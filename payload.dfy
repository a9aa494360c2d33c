/**
 * The records the dashboard component receives from its data service.
 * Every field the component reads through `?.` may be absent, so it is an Option.
 */
module DpsModel {
  import opened Wrappers

  /** One entry of the service's `bacOptions` list. */
  datatype BacOption = BacOption(caption: string, value: string)

  /** A contact record, passed through to the contacts table untouched. */
  datatype Contact = Contact(name: string, contactTitle: string, email: string, phone: string)

  /** A section of the F&I summary; the component never looks inside one. */
  type FiSection

  /** One opportunity as the service returns it. */
  datatype Opportunity = Opportunity(
    productType: string,
    product: string,
    enrollDate: string,
    expDate: string,
    enrolled: bool)

  /** The dealer account; only its Smart Auction id is read. */
  datatype Account = Account(smartAuctionId: Option<string>)

  /** The whole response of either data-service call. */
  datatype Payload = Payload(
    bacOptions: Option<seq<BacOption>>,
    selectedBAC: Option<string>,
    monthLabels: Option<seq<string>>,
    fiSections: Option<seq<FiSection>>,
    contacts: Option<seq<Contact>>,
    opportunities: Option<seq<Opportunity>>,
    userEmployeeNumber: Option<string>,
    account: Option<Account>)

  /** `xs || []` for a list field: an absent list reads as the empty one. */
  function OrEmptyList<T>(xs: Option<seq<T>>): seq<T>
  {
    match xs
    case Some(s) => s
    case None => []
  }

  /** `s || ''` for a string: absent and "" both read as "". */
  function OrEmpty(s: Option<string>): string
  {
    match s
    case Some(v) => v
    case None => ""
  }
}
