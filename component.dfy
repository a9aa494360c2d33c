/**
 * The dashboard component itself: the two fields it updates in place and a
 * ghost log standing for the notifications it dispatches. Remote results are
 * inputs to the handlers, and each handler returns the request it sends.
 */
module DpsComponent {
  import opened Wrappers
  import opened DpsModel
  import opened DpsTransitions

  class DpsData {
    const recordId: Option<string>
    var data: Option<Payload>
    var selectedBAC: Option<string>
    ghost var toasts: seq<Toast>

    /** The fields and the notification log, as a State value. */
    ghost function View(): State
      reads this
    {
      State(data, selectedBAC, toasts)
    }

    /** A component on a record page, before anything has loaded. */
    constructor (recordId: Option<string>)
      ensures this.recordId == recordId
      ensures View() == Start
    {
      this.recordId := recordId;
      data := None;
      selectedBAC := None;
      toasts := [];
    }

    /** Shows a notification: appends it to the log and touches nothing else. */
    method Notify(title: string, message: string, variant: string)
      modifies this`toasts
      ensures toasts == old(toasts) + [Toast(title, message, variant)]
    {
      toasts := toasts + [Toast(title, message, variant)];
    }

    /** `load`: asks for the record's data and stores what comes back. */
    method Load(result: FetchResult, nullReadMessage: string) returns (req: Request)
      modifies this
      ensures req == InitialRequest(recordId)
      ensures View() == AfterLoad(old(View()), result, nullReadMessage)
    {
      req := InitialRequest(recordId);
      match result {
        case Ok(resp) =>
          data := resp;
          if resp.Some? {
            selectedBAC := resp.value.selectedBAC;
          } else {
            Notify("Error", nullReadMessage, "error");
          }
        case Err(bodyMessage, message) =>
          Notify("Error", ErrorMessage(bodyMessage, message), "error");
      }
    }

    /** `handleBacChange`: the picked value becomes the selection. */
    method HandleBacChange(value: string)
      modifies this
      ensures View() == AfterBacChange(old(View()), value)
    {
      selectedBAC := Some(value);
    }

    /** `handleGo`: asks for the data of the current selection and stores it. */
    method HandleGo(result: FetchResult) returns (req: Request)
      modifies this
      ensures req == GoRequest(recordId, old(View()))
      ensures View() == AfterGo(old(View()), result)
    {
      req := ScopedRequest(recordId, selectedBAC);
      match result {
        case Ok(resp) =>
          data := resp;
        case Err(bodyMessage, message) =>
          Notify("Error", ErrorMessage(bodyMessage, message), "error");
      }
    }
  }
}
