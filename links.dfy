/**
 * The two outbound links. Each is a configured page address followed by
 * `&usid=<employee number>&said=<Smart Auction id>`, joined by plain string
 * concatenation: nothing is percent-encoded, and every absent part reads as "".
 */
module DpsLinks {
  import opened Wrappers
  import opened DpsModel

  const UsidKey: string := "&usid="
  const SaidKey: string := "&said="

  /** `data?.userEmployeeNumber || ''`. */
  function EmployeeNumber(d: Option<Payload>): string
  {
    if d.None? then "" else OrEmpty(d.value.userEmployeeNumber)
  }

  /** `data?.account?.Smart_Auction_Id__c || ''`. */
  function AuctionId(d: Option<Payload>): string
  {
    if d.None? || d.value.account.None? then "" else OrEmpty(d.value.account.value.smartAuctionId)
  }

  /** The shape every link has. */
  function BuildLink(base: string, emp: string, said: string): string
  {
    base + UsidKey + emp + SaidKey + said
  }

  /** Index of the first '&' in `s`, or |s| when it has none. */
  function FirstAmp(s: string): (k: nat)
    ensures k <= |s|
    ensures forall j :: 0 <= j < k ==> s[j] != '&'
    ensures k < |s| ==> s[k] == '&'
  {
    if s == [] || s[0] == '&' then 0 else 1 + FirstAmp(s[1..])
  }

  /**
   * Reads a link back: strips `base + "&usid="`, takes the employee number up
   * to the first '&', which must open `"&said="`, and the auction id after it.
   */
  function ParseLink(base: string, url: string): Option<(string, string)>
  {
    var head := base + UsidKey;
    if |url| < |head| || url[..|head|] != head then None
    else
      var rest := url[|head|..];
      var k := FirstAmp(rest);
      if |rest| - k < |SaidKey| || rest[k..k + |SaidKey|] != SaidKey then None
      else Some((rest[..k], rest[k + |SaidKey|..]))
  }

  lemma {:induction false} FirstAmpOfConcat(e: string, t: string)
    requires '&' !in e
    requires |t| > 0 && t[0] == '&'
    ensures FirstAmp(e + t) == |e|
  {
    if e != [] {
      assert (e + t)[0] == e[0];
      assert (e + t)[1..] == e[1..] + t;
      FirstAmpOfConcat(e[1..], t);
    } else {
      assert e + t == t;
    }
  }

  /** A link whose employee number has no '&' reads back as the two values it was built from. */
  lemma LinkRoundTrip(base: string, emp: string, said: string)
    requires '&' !in emp
    ensures ParseLink(base, BuildLink(base, emp, said)) == Some((emp, said))
  {
    var url := BuildLink(base, emp, said);
    var head := base + UsidKey;
    var rest := emp + SaidKey + said;
    assert url == head + rest;
    assert url[..|head|] == head;
    assert url[|head|..] == rest;
    FirstAmpOfConcat(emp, SaidKey + said);
    assert rest == emp + (SaidKey + said);
    var k := |emp|;
    assert rest[..k] == emp;
    assert rest[k..k + |SaidKey|] == SaidKey;
    assert rest[k + |SaidKey|..] == said;
  }

  /** Whatever reads back was built by BuildLink, from an employee number with no '&'. */
  lemma ParseLinkSound(base: string, url: string, emp: string, said: string)
    requires ParseLink(base, url) == Some((emp, said))
    ensures '&' !in emp
    ensures url == BuildLink(base, emp, said)
  {
  }

  /** The two directions together: exactly the links of '&'-free employee numbers read back. */
  lemma ParseLinkExact(base: string, url: string, emp: string, said: string)
    ensures ParseLink(base, url) == Some((emp, said)) <==> url == BuildLink(base, emp, said) && '&' !in emp
  {
    if ParseLink(base, url) == Some((emp, said)) {
      ParseLinkSound(base, url, emp, said);
    }
    if url == BuildLink(base, emp, said) && '&' !in emp {
      LinkRoundTrip(base, emp, said);
    }
  }

  /**
   * Without encoding the link is ambiguous: an employee number that itself
   * contains `&said=` gives the same link as a different pair of values.
   */
  lemma LinkAmbiguous(base: string, emp: string, x: string, said: string)
    ensures BuildLink(base, emp + SaidKey + x, said) == BuildLink(base, emp, x + SaidKey + said)
    ensures emp + SaidKey + x != emp
  {
  }

  /**
   * `openScorecard`'s URL: the scorecard page (or "" when unset), then the
   * employee number and the auction id, each "" when absent.
   */
  function ScorecardLink(scorecardPage: Option<string>, d: Option<Payload>): (url: string)
    ensures url == OrEmpty(scorecardPage) + "&usid=" + EmployeeNumber(d) + "&said=" + AuctionId(d)
    ensures d.None? ==> url == OrEmpty(scorecardPage) + "&usid=&said="
    ensures '&' !in EmployeeNumber(d) ==>
      ParseLink(OrEmpty(scorecardPage), url) == Some((EmployeeNumber(d), AuctionId(d)))
  {
    ParseLinkExact(OrEmpty(scorecardPage), BuildLink(OrEmpty(scorecardPage), EmployeeNumber(d), AuctionId(d)),
                   EmployeeNumber(d), AuctionId(d));
    BuildLink(OrEmpty(scorecardPage), EmployeeNumber(d), AuctionId(d))
  }

  /**
   * `openSummary`'s URL: the summary page (or "" when unset), then the same
   * two parameters as the scorecard link.
   */
  function SummaryLink(summaryPage: Option<string>, d: Option<Payload>): (url: string)
    ensures url == OrEmpty(summaryPage) + "&usid=" + EmployeeNumber(d) + "&said=" + AuctionId(d)
    ensures d.None? ==> url == OrEmpty(summaryPage) + "&usid=&said="
    ensures '&' !in EmployeeNumber(d) ==>
      ParseLink(OrEmpty(summaryPage), url) == Some((EmployeeNumber(d), AuctionId(d)))
  {
    ParseLinkExact(OrEmpty(summaryPage), BuildLink(OrEmpty(summaryPage), EmployeeNumber(d), AuctionId(d)),
                   EmployeeNumber(d), AuctionId(d));
    BuildLink(OrEmpty(summaryPage), EmployeeNumber(d), AuctionId(d))
  }
}
