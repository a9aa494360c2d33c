/** Worked examples: the component driven through concrete calls. */
module DpsScenarios {
  import opened Wrappers
  import opened DpsModel
  import opened DpsView
  import opened DpsLinks
  import opened DpsTransitions
  import opened DpsComponent

  const WarrantyGap := Opportunity("Warranty", "GAP", "2024-01-01", "2025-01-01", true)

  /** A payload scoped to "B1" with one opportunity and nothing else. */
  const B1Payload := Payload(
    Some([BacOption("B1", "B1")]), Some("B1"), None, None, None,
    Some([WarrantyGap]), Some("E1"), Some(Account(Some("A1"))))

  /** An initial load of that payload selects "B1" and numbers its one opportunity 1. */
  method InitialLoadScenario(recordId: Option<string>, nullReadMessage: string)
    returns (selection: Option<string>, rows: seq<OppRow>, choices: seq<Choice>)
    ensures selection == Some("B1")
    ensures rows == [OppRow(1, "Warranty", "GAP", "2024-01-01", "2025-01-01", true)]
    ensures choices == [Choice("B1", "B1")]
  {
    var c := new DpsData(recordId);
    var req := c.Load(Ok(Some(B1Payload)), nullReadMessage);
    selection, rows, choices := c.selectedBAC, OppsTable(c.data), BacOptions(c.data);
  }

  /**
   * With "B2" picked, a rejected re-fetch keeps the selection and the old
   * payload and shows one error; the request carried "B2".
   */
  method FailedRescopeScenario(recordId: Option<string>, nullReadMessage: string, message: string)
    returns (req: Request, selection: Option<string>, data: Option<Payload>)
    ensures req == ScopedRequest(recordId, Some("B2"))
    ensures selection == Some("B2") && data == Some(B1Payload)
  {
    var c := new DpsData(recordId);
    var _ := c.Load(Ok(Some(B1Payload)), nullReadMessage);
    c.HandleBacChange("B2");
    req := c.HandleGo(Err(None, message));
    selection, data := c.selectedBAC, c.data;
    assert c.toasts == [Toast("Error", message, "error")];
  }

  /** The scorecard link of that payload. */
  lemma ScorecardLinkScenario()
    ensures ScorecardLink(Some("https://x/scorecard?"), Some(B1Payload)) == "https://x/scorecard?&usid=E1&said=A1"
  {
  }
}
