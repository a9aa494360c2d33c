/**
 * The component's getters: pure projections of the current payload into
 * presentation rows. Each one is total: an absent payload or field gives [].
 */
module DpsView {
  import opened Wrappers
  import opened DpsModel

  /** An entry of the BAC picker, rebuilt with just a label and a value. */
  datatype Choice = Choice(caption: string, value: string)

  /** A row of the opportunities table, numbered by position from 1. */
  datatype OppRow = OppRow(
    id: nat,
    productType: string,
    product: string,
    enrollDate: string,
    expDate: string,
    enrolled: bool)

  /** The opportunities the table is built from: `data?.opportunities || []`. */
  function Opportunities(d: Option<Payload>): (opps: seq<Opportunity>)
    ensures d.None? || d.value.opportunities.None? ==> opps == []
    ensures d.Some? && d.value.opportunities.Some? ==> opps == d.value.opportunities.value
  {
    if d.None? then [] else OrEmptyList(d.value.opportunities)
  }

  /** `bacOptions`: the service's options, same length and order, caption (the JavaScript `label`) and value copied. */
  function BacOptions(d: Option<Payload>): (r: seq<Choice>)
    ensures d.None? || d.value.bacOptions.None? ==> r == []
    ensures d.Some? && d.value.bacOptions.Some? ==>
      |r| == |d.value.bacOptions.value| &&
      forall i :: 0 <= i < |r| ==>
        r[i].caption == d.value.bacOptions.value[i].caption && r[i].value == d.value.bacOptions.value[i].value
  {
    var opts := if d.None? then [] else OrEmptyList(d.value.bacOptions);
    seq(|opts|, i requires 0 <= i < |opts| => Choice(opts[i].caption, opts[i].value))
  }

  /** `monthLabels`: the field itself, or [] when it or the payload is absent. */
  function MonthLabels(d: Option<Payload>): (r: seq<string>)
    ensures d.None? || d.value.monthLabels.None? ==> r == []
    ensures d.Some? && d.value.monthLabels.Some? ==> r == d.value.monthLabels.value
  {
    if d.None? then [] else OrEmptyList(d.value.monthLabels)
  }

  /** `fiSections`: the field itself, or [] when it or the payload is absent. */
  function FiSections(d: Option<Payload>): (r: seq<FiSection>)
    ensures d.None? || d.value.fiSections.None? ==> r == []
    ensures d.Some? && d.value.fiSections.Some? ==> r == d.value.fiSections.value
  {
    if d.None? then [] else OrEmptyList(d.value.fiSections)
  }

  /** `contacts`: the field itself, or [] when it or the payload is absent. */
  function Contacts(d: Option<Payload>): (r: seq<Contact>)
    ensures d.None? || d.value.contacts.None? ==> r == []
    ensures d.Some? && d.value.contacts.Some? ==> r == d.value.contacts.value
  {
    if d.None? then [] else OrEmptyList(d.value.contacts)
  }

  /** The row an opportunity becomes at 0-based position `idx`. */
  function NumberedRow(o: Opportunity, idx: nat): OppRow
  {
    OppRow(idx + 1, o.productType, o.product, o.enrollDate, o.expDate, o.enrolled)
  }

  /**
   * `oppsTable`: one row per opportunity, in order; row i carries id i + 1
   * and the five fields of opportunity i.
   */
  function OppsTable(d: Option<Payload>): (rows: seq<OppRow>)
    ensures |rows| == |Opportunities(d)|
    ensures forall i :: 0 <= i < |rows| ==>
      rows[i].id == i + 1 &&
      rows[i].productType == Opportunities(d)[i].productType &&
      rows[i].product == Opportunities(d)[i].product &&
      rows[i].enrollDate == Opportunities(d)[i].enrollDate &&
      rows[i].expDate == Opportunities(d)[i].expDate &&
      rows[i].enrolled == Opportunities(d)[i].enrolled
  {
    var opps := Opportunities(d);
    seq(|opps|, i requires 0 <= i < |opps| => NumberedRow(opps[i], i))
  }

  /** Drops the synthetic ids: the inverse of numbering the rows. */
  function Unnumbered(rows: seq<OppRow>): (opps: seq<Opportunity>)
    ensures |opps| == |rows|
  {
    seq(|rows|, i requires 0 <= i < |rows| =>
      Opportunity(rows[i].productType, rows[i].product, rows[i].enrollDate, rows[i].expDate, rows[i].enrolled))
  }

  /** The table loses nothing: stripping the ids gives back the opportunities. */
  lemma OppsTableRoundTrip(d: Option<Payload>)
    ensures Unnumbered(OppsTable(d)) == Opportunities(d)
  {
  }

  /**
   * The ids are positions, not keys: two payloads with equally many
   * opportunities get the same ids, whatever the opportunities are.
   */
  lemma OppsTableIdsArePositions(d1: Option<Payload>, d2: Option<Payload>, i: nat)
    requires |Opportunities(d1)| == |Opportunities(d2)|
    requires i < |Opportunities(d1)|
    ensures OppsTable(d1)[i].id == OppsTable(d2)[i].id == i + 1
  {
  }
}
