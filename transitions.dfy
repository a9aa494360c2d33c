/**
 * The component's state machine, stated on values: its two fields and the
 * notifications it has shown, and what `load`, `handleGo` and
 * `handleBacChange` make of them. Each remote call is one atomic step whose
 * outcome is an input.
 */
module DpsTransitions {
  import opened Wrappers
  import opened DpsModel

  /** A notification as handed to the host: title, message, variant. */
  datatype Toast = Toast(title: string, message: string, variant: string)

  /** What the data service answered: a response (possibly null) or a rejection. */
  datatype FetchResult =
    | Ok(response: Option<Payload>)
    | Err(bodyMessage: Option<string>, message: string)

  /** The arguments of a data-service call. */
  datatype Request =
    | InitialRequest(recordId: Option<string>)
    | ScopedRequest(recordId: Option<string>, selectedBAC: Option<string>)

  /** The component's fields, and every notification it has shown so far. */
  datatype State = State(data: Option<Payload>, selectedBAC: Option<string>, toasts: seq<Toast>)

  const Start := State(None, None, [])

  /** `e?.body?.message || e.message`: a present, non-empty body message wins. */
  function ErrorMessage(bodyMessage: Option<string>, message: string): (m: string)
    ensures bodyMessage.Some? && bodyMessage.value != "" ==> m == bodyMessage.value
    ensures bodyMessage.None? || bodyMessage.value == "" ==> m == message
  {
    if bodyMessage.Some? && bodyMessage.value != "" then bodyMessage.value else message
  }

  predicate IsErrorToast(t: Toast)
  {
    t.title == "Error" && t.variant == "error"
  }

  /** The one notification a rejected call shows. */
  function ErrorToast(bodyMessage: Option<string>, message: string): (t: Toast)
    ensures IsErrorToast(t)
    ensures t.message == ErrorMessage(bodyMessage, message)
  {
    Toast("Error", ErrorMessage(bodyMessage, message), "error")
  }

  /**
   * `load`: a payload sets both fields. A null response is stored, then
   * reading its `selectedBAC` throws, so the host's TypeError text is shown.
   * A rejection changes no field and shows the extracted message.
   */
  function AfterLoad(s: State, r: FetchResult, nullReadMessage: string): (t: State)
    ensures r.Ok? && r.response.Some? ==>
      t.data == r.response && t.selectedBAC == r.response.value.selectedBAC && t.toasts == s.toasts
    ensures r == Ok(None) ==>
      t.data == None && t.selectedBAC == s.selectedBAC &&
      t.toasts == s.toasts + [Toast("Error", nullReadMessage, "error")]
    ensures r.Err? ==>
      t.data == s.data && t.selectedBAC == s.selectedBAC &&
      t.toasts == s.toasts + [ErrorToast(r.bodyMessage, r.message)]
  {
    match r
    case Ok(Some(p)) => State(Some(p), p.selectedBAC, s.toasts)
    case Ok(None) => State(None, s.selectedBAC, s.toasts + [Toast("Error", nullReadMessage, "error")])
    case Err(b, m) => s.(toasts := s.toasts + [ErrorToast(b, m)])
  }

  /** The request `handleGo` sends: the record and the selection current at the call. */
  function GoRequest(recordId: Option<string>, s: State): (q: Request)
    ensures q.ScopedRequest? && q.recordId == recordId && q.selectedBAC == s.selectedBAC
  {
    ScopedRequest(recordId, s.selectedBAC)
  }

  /**
   * `handleGo`: a response replaces `data` wholesale (its own `selectedBAC`
   * is ignored); a rejection keeps the stale payload and shows one error.
   */
  function AfterGo(s: State, r: FetchResult): (t: State)
    ensures t.selectedBAC == s.selectedBAC
    ensures r.Ok? ==> t.data == r.response && t.toasts == s.toasts
    ensures r.Err? ==> t.data == s.data && t.toasts == s.toasts + [ErrorToast(r.bodyMessage, r.message)]
  {
    match r
    case Ok(resp) => s.(data := resp)
    case Err(b, m) => s.(toasts := s.toasts + [ErrorToast(b, m)])
  }

  /** `handleBacChange`: the picked value becomes the selection, unchecked against the options. */
  function AfterBacChange(s: State, v: string): (t: State)
    ensures t.selectedBAC == Some(v)
    ensures t.data == s.data && t.toasts == s.toasts
  {
    s.(selectedBAC := Some(v))
  }

  /** One thing that can happen to the component. */
  datatype Event =
    | Load(result: FetchResult, nullReadMessage: string)
    | Go(result: FetchResult)
    | BacChange(value: string)

  function Step(s: State, e: Event): State
  {
    match e
    case Load(r, nm) => AfterLoad(s, r, nm)
    case Go(r) => AfterGo(s, r)
    case BacChange(v) => AfterBacChange(s, v)
  }

  function Run(s: State, es: seq<Event>): State
    decreases |es|
  {
    if es == [] then s else Run(Step(s, es[0]), es[1..])
  }

  /** Whether an event ends in a notification. */
  predicate Fails(e: Event)
  {
    match e
    case Load(r, _) => r.Err? || r == Ok(None)
    case Go(r) => r.Err?
    case BacChange(_) => false
  }

  function FailureCount(es: seq<Event>): nat
    decreases |es|
  {
    if es == [] then 0 else (if Fails(es[0]) then 1 else 0) + FailureCount(es[1..])
  }

  /**
   * Failures are surfaced, never swallowed, never doubled: over any run the
   * log keeps what it had and gains exactly one "Error"/"error"
   * notification per failed call.
   */
  lemma {:induction false} RunNotifiesOncePerFailure(s: State, es: seq<Event>)
    ensures |Run(s, es).toasts| == |s.toasts| + FailureCount(es)
    ensures Run(s, es).toasts[..|s.toasts|] == s.toasts
    ensures forall i :: |s.toasts| <= i < |Run(s, es).toasts| ==> IsErrorToast(Run(s, es).toasts[i])
    decreases |es|
  {
    if es != [] {
      var s1 := Step(s, es[0]);
      assert |s1.toasts| == |s.toasts| + (if Fails(es[0]) then 1 else 0);
      assert s1.toasts[..|s.toasts|] == s.toasts;
      assert forall i :: |s.toasts| <= i < |s1.toasts| ==> IsErrorToast(s1.toasts[i]);
      RunNotifiesOncePerFailure(s1, es[1..]);
      var t := Run(s, es);
      assert t == Run(s1, es[1..]);
      assert t.toasts[..|s1.toasts|] == s1.toasts;
      assert t.toasts[..|s.toasts|] == t.toasts[..|s1.toasts|][..|s.toasts|];
    }
  }

  /**
   * The selection is the user's: a run of `handleGo` calls never moves it,
   * whatever payloads come back, and leaves `data` absent only if it was
   * absent or some response was null.
   */
  lemma {:induction false} GoRunKeepsSelection(s: State, es: seq<Event>)
    requires forall i :: 0 <= i < |es| ==> es[i].Go?
    ensures Run(s, es).selectedBAC == s.selectedBAC
    ensures Run(s, es).data.None? ==>
      s.data.None? || exists i :: 0 <= i < |es| && es[i].result == Ok(None)
    decreases |es|
  {
    if es != [] {
      var s1 := Step(s, es[0]);
      GoRunKeepsSelection(s1, es[1..]);
      assert Run(s, es) == Run(s1, es[1..]);
      if Run(s, es).data.None? && s.data.Some? {
        if s1.data.None? {
          assert es[0].result == Ok(None);
        } else {
          var j :| 0 <= j < |es[1..]| && es[1..][j].result == Ok(None);
          assert es[j + 1].result == Ok(None);
        }
      }
    }
  }
}
