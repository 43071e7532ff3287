/** The single-flight PayloadSender: one boolean gates acceptance, every
    terminal path clears it before the listener hears of the outcome, and a
    synchronous exception while dispatching counts as a failure.

    The request sender is an outcome given per dispatch; its callbacks
    (finish, cancel, fail) are explicit calls; the listener is recorded in a
    notification log. Calls are sequential. */
module Storage {
  import opened Wrappers

  /** Opaque identities of the collaborators. */
  datatype Payload = Payload(id: nat)
  datatype RetryPolicy = RetryPolicy(id: nat)
  datatype RequestSender = RequestSender(id: nat)
  datatype HttpRequest = HttpRequest(id: nat)
  datatype Listener = Listener(id: nat)

  /** What requestSender.sendPayload does synchronously: return a request,
      return null (setRetryPolicy then throws a NullPointerException, whose
      message the runtime chooses), or throw. */
  datatype DispatchOutcome =
    | Returned(request: HttpRequest)
    | ReturnedNull(npeMessage: Option<string>)
    | Raised(exception: Exception)

  /** The exception that escapes sendPayloadRequest for a dispatch outcome. */
  function DispatchFailure(d: DispatchOutcome): (e: Option<Exception>)
    ensures e.None? <==> d.Returned?
    ensures d.ReturnedNull? ==> e == Some(Exception("NullPointerException", d.npeMessage))
    ensures d.Raised? ==> e == Some(d.exception)
  {
    match d
    case Returned(_) => None
    case ReturnedNull(m) => Some(Exception("NullPointerException", m))
    case Raised(e) => Some(e)
  }

  /** One call of listener.onFinishSending(sender, payload, cancelled, errorMessage). */
  datatype Notification = Notification(listener: Listener, payload: Payload, cancelled: bool, errorMessage: Option<string>)

  /** A request returned by the request sender, with the retry policy set on it. */
  datatype Dispatch = Dispatch(payload: Payload, request: HttpRequest, retryPolicy: RetryPolicy)

  /** The sender's state: the retry policy it was built with, its listener,
      the sending flag, and logs of what the listener and the requests saw. */
  datatype SenderState = SenderState(retryPolicy: RetryPolicy, listener: Option<Listener>, sendingFlag: bool,
                                     notifications: seq<Notification>, dispatched: seq<Dispatch>)

  function InitialState(retryPolicy: RetryPolicy): SenderState
  {
    SenderState(retryPolicy, None, false, [], [])
  }

  /** The message passed on for a synchronous exception: its own message,
      or "<SimpleName> is thrown" when that is null. */
  function DispatchErrorMessage(e: Exception): (m: string)
    ensures e.message.Some? ==> m == e.message.value
    ensures e.message.None? ==> |m| > |e.simpleName| && m[..|e.simpleName|] == e.simpleName
    ensures m == "" <==> e.message == Some("")
  {
    if e.message.Some? then e.message.value else e.simpleName + " is thrown"
  }

  /** handleFinishSendingPayload: clear the flag, then tell the listener, if
      any. An exception from the listener is swallowed and changes nothing. */
  function HandleFinish(s: SenderState, payload: Payload, cancelled: bool, errorMessage: Option<string>): (t: SenderState)
    ensures !t.sendingFlag
    ensures t.retryPolicy == s.retryPolicy && t.listener == s.listener && t.dispatched == s.dispatched
    ensures s.listener.None? ==> t.notifications == s.notifications
    ensures s.listener.Some? ==>
      |t.notifications| == |s.notifications| + 1 && t.notifications[..|s.notifications|] == s.notifications &&
      t.notifications[|s.notifications|] == Notification(s.listener.value, payload, cancelled, errorMessage)
  {
    var notified := if s.listener.Some?
      then s.notifications + [Notification(s.listener.value, payload, cancelled, errorMessage)]
      else s.notifications;
    s.(sendingFlag := false, notifications := notified)
  }

  /** The three callbacks of a request, and the outcome each reports. A
      callback belongs to one dispatched request, named by its position in
      `dispatched`, and reports the payload that request was sent for. A
      position with no request names no callback, and nothing happens. */
  function OnFinishStep(s: SenderState, request: nat): (r: SenderState)
    ensures request < |s.dispatched| ==>
      !r.sendingFlag && r.retryPolicy == s.retryPolicy && r.listener == s.listener && r.dispatched == s.dispatched &&
      r.notifications == s.notifications +
        (if s.listener.Some? then [Notification(s.listener.value, s.dispatched[request].payload, false, None)] else [])
    ensures request >= |s.dispatched| ==> r == s
  {
    if request < |s.dispatched| then HandleFinish(s, s.dispatched[request].payload, false, None) else s
  }

  function OnCancelStep(s: SenderState, request: nat): (r: SenderState)
    ensures request < |s.dispatched| ==>
      !r.sendingFlag && r.retryPolicy == s.retryPolicy && r.listener == s.listener && r.dispatched == s.dispatched &&
      r.notifications == s.notifications +
        (if s.listener.Some? then [Notification(s.listener.value, s.dispatched[request].payload, true, None)] else [])
    ensures request >= |s.dispatched| ==> r == s
  {
    if request < |s.dispatched| then HandleFinish(s, s.dispatched[request].payload, true, None) else s
  }

  function OnFailStep(s: SenderState, request: nat, reason: Option<string>): (r: SenderState)
    ensures request < |s.dispatched| ==>
      !r.sendingFlag && r.retryPolicy == s.retryPolicy && r.listener == s.listener && r.dispatched == s.dispatched &&
      r.notifications == s.notifications +
        (if s.listener.Some? then [Notification(s.listener.value, s.dispatched[request].payload, false, reason)] else [])
    ensures request >= |s.dispatched| ==> r == s
  {
    if request < |s.dispatched| then HandleFinish(s, s.dispatched[request].payload, false, reason) else s
  }

  /** sendPayloadRequest: hand the payload to the request sender and set the
      retry policy on the request it returns, or let the exception escape. */
  datatype RequestResult = RequestResult(state: SenderState, thrown: Option<Exception>)

  function SendRequest(s: SenderState, payload: Payload, dispatch: DispatchOutcome): (r: RequestResult)
    ensures r.state.sendingFlag == s.sendingFlag && r.state.notifications == s.notifications
    ensures r.thrown == DispatchFailure(dispatch)
    ensures dispatch.Returned? ==> r.state.dispatched == s.dispatched + [Dispatch(payload, dispatch.request, s.retryPolicy)]
    ensures !dispatch.Returned? ==> r.state == s
  {
    match dispatch
    case Returned(request) =>
      RequestResult(s.(dispatched := s.dispatched + [Dispatch(payload, request, s.retryPolicy)]), None)
    case _ => RequestResult(s, DispatchFailure(dispatch))
  }

  /** sendPayload as a function: the result (accepted, or the exception for a
      null payload) and the new state. */
  datatype SendResult = SendResult(state: SenderState, accepted: Result<bool>)

  function SendPayloadStep(s: SenderState, payload: Option<Payload>, dispatch: DispatchOutcome): (r: SendResult)
    ensures r.accepted == (if payload.None? then Thrown(IllegalArgument("Payload is null")) else Ok(!s.sendingFlag))
    ensures r.accepted != Ok(true) ==> r.state == s
    ensures r.state.retryPolicy == s.retryPolicy && r.state.listener == s.listener
    ensures r.accepted == Ok(true) ==> (r.state.sendingFlag <==> dispatch.Returned?)
    ensures r.accepted == Ok(true) && dispatch.Returned? ==>
      r.state.notifications == s.notifications &&
      r.state.dispatched == s.dispatched + [Dispatch(payload.value, dispatch.request, s.retryPolicy)]
    ensures r.accepted == Ok(true) && !dispatch.Returned? ==>
      r.state.dispatched == s.dispatched &&
      |r.state.notifications| == |s.notifications| + (if s.listener.Some? then 1 else 0)
  {
    if payload.None? then SendResult(s, Thrown(IllegalArgument("Payload is null")))
    else if s.sendingFlag then SendResult(s, Ok(false))
    else
      var r := SendRequest(s.(sendingFlag := true), payload.value, dispatch);
      match r.thrown
      case None => SendResult(r.state, Ok(true))
      case Some(e) => SendResult(HandleFinish(r.state, payload.value, false, Some(DispatchErrorMessage(e))), Ok(true))
  }

  /** A null payload is refused with an exception and nothing changes. */
  lemma NullPayloadThrows(s: SenderState, dispatch: DispatchOutcome)
    ensures SendPayloadStep(s, None, dispatch) == SendResult(s, Thrown(IllegalArgument("Payload is null")))
  {
  }

  /** While a send is outstanding every new payload is refused: no dispatch,
      no notification, no change at all. */
  lemma BusySenderRejects(s: SenderState, payload: Payload, dispatch: DispatchOutcome)
    requires s.sendingFlag
    ensures SendPayloadStep(s, Some(payload), dispatch) == SendResult(s, Ok(false))
  {
  }

  /** An idle sender accepts: when the request is dispatched the flag stays
      set, the listener hears nothing yet and the request carries the sender's
      retry policy; when dispatch throws, the flag ends cleared and the
      listener gets exactly one failure with the exception's message. */
  lemma IdleSenderAccepts(s: SenderState, payload: Payload, dispatch: DispatchOutcome)
    requires !s.sendingFlag
    ensures var r := SendPayloadStep(s, Some(payload), dispatch);
      r.accepted == Ok(true) && r.state.listener == s.listener && r.state.retryPolicy == s.retryPolicy &&
      (dispatch.Returned? ==>
        r.state.sendingFlag && r.state.notifications == s.notifications &&
        r.state.dispatched == s.dispatched + [Dispatch(payload, dispatch.request, s.retryPolicy)]) &&
      (dispatch.Raised? ==>
        !r.state.sendingFlag && r.state.dispatched == s.dispatched &&
        r.state.notifications == s.notifications +
          (if s.listener.Some? then [Notification(s.listener.value, payload, false, Some(DispatchErrorMessage(dispatch.exception)))] else [])) &&
      (dispatch.ReturnedNull? ==>
        !r.state.sendingFlag && r.state.dispatched == s.dispatched &&
        r.state.notifications == s.notifications +
          (if s.listener.Some? then [Notification(s.listener.value, payload, false,
                                                  Some(DispatchErrorMessage(Exception("NullPointerException", dispatch.npeMessage))))] else []))
  {
  }

  /** The callbacks report finish as (false, null), cancel as (true, null) and
      fail(reason) as (false, reason), each once, after clearing the flag. */
  lemma CallbackOutcomes(s: SenderState, request: nat, reason: Option<string>, l: Listener)
    requires s.listener == Some(l) && request < |s.dispatched|
    ensures var payload := s.dispatched[request].payload;
      OnFinishStep(s, request).notifications == s.notifications + [Notification(l, payload, false, None)] &&
      OnCancelStep(s, request).notifications == s.notifications + [Notification(l, payload, true, None)] &&
      OnFailStep(s, request, reason).notifications == s.notifications + [Notification(l, payload, false, reason)]
    ensures !OnFinishStep(s, request).sendingFlag && !OnCancelStep(s, request).sendingFlag && !OnFailStep(s, request, reason).sendingFlag
  {
  }

  /** The flag is clear by the time the listener runs, so a send issued from
      the listener for the next payload is accepted. */
  lemma ResendFromListenerAccepted(s: SenderState, payload: Payload, cancelled: bool, errorMessage: Option<string>,
                                   next: Payload, dispatch: DispatchOutcome)
    ensures SendPayloadStep(HandleFinish(s, payload, cancelled, errorMessage), Some(next), dispatch).accepted == Ok(true)
  {
  }

  // ---------------------------------------------------------------------
  // Runs of the state machine

  /** The calls the sender can receive. */
  datatype Event =
    | Send(payload: Option<Payload>, dispatch: DispatchOutcome)
    | Finish(request: nat)
    | Cancel(request: nat)
    | Fail(request: nat, reason: Option<string>)
    | SetListener(listener: Option<Listener>)
  {
    /** A callback of the request at position `request` of `dispatched`. */
    predicate IsCallback()
    {
      Finish? || Cancel? || Fail?
    }
  }

  function Step(s: SenderState, e: Event): SenderState
  {
    match e
    case Send(p, d) => SendPayloadStep(s, p, d).state
    case Finish(i) => OnFinishStep(s, i)
    case Cancel(i) => OnCancelStep(s, i)
    case Fail(i, reason) => OnFailStep(s, i, reason)
    case SetListener(l) => s.(listener := l)
  }

  function Run(s: SenderState, events: seq<Event>): SenderState
    decreases |events|
  {
    if events == [] then s else Run(Step(s, events[0]), events[1..])
  }

  /** The event is a send the sender accepts in state s. */
  predicate AcceptedIn(s: SenderState, e: Event)
  {
    e.Send? && SendPayloadStep(s, e.payload, e.dispatch).accepted == Ok(true)
  }

  /** The event reaches handleFinishSendingPayload in state s: a callback of
      a dispatched request, or an accepted send whose dispatch throws. */
  predicate CompletesIn(s: SenderState, e: Event)
  {
    (e.IsCallback() && e.request < |s.dispatched|) ||
    (AcceptedIn(s, e) && !e.dispatch.Returned?)
  }

  function Accepted(s: SenderState, events: seq<Event>): nat
    decreases |events|
  {
    if events == [] then 0
    else (if AcceptedIn(s, events[0]) then 1 else 0) + Accepted(Step(s, events[0]), events[1..])
  }

  function Completed(s: SenderState, events: seq<Event>): nat
    decreases |events|
  {
    if events == [] then 0
    else (if CompletesIn(s, events[0]) then 1 else 0) + Completed(Step(s, events[0]), events[1..])
  }

  /** The request sender calls back only while a send is outstanding, and
      only for the outstanding request (the last one dispatched). */
  predicate WellBehaved(s: SenderState, events: seq<Event>)
    decreases |events|
  {
    events == [] ||
    ((events[0].IsCallback() ==> s.sendingFlag && events[0].request + 1 == |s.dispatched|) &&
     WellBehaved(Step(s, events[0]), events[1..]))
  }

  function Flag(s: SenderState): nat
  {
    if s.sendingFlag then 1 else 0
  }

  /** Single flight as a count: accepted sends never outnumber the calls of
      handleFinishSendingPayload plus the flag, whatever the callbacks do. A
      stale callback is counted as a call too, so this alone does not say
      that every accepted payload was reported (StaleFinishLosesPayload). */
  lemma {:induction false} AtMostOneInFlight(s: SenderState, events: seq<Event>)
    ensures Accepted(s, events) + Flag(s) <= Completed(s, events) + Flag(Run(s, events))
    decreases |events|
  {
    if events != [] {
      AtMostOneInFlight(Step(s, events[0]), events[1..]);
    }
  }

  /** With a request sender that calls back only while a send is
      outstanding, accepted payloads and completions match exactly: each
      accepted payload completes once, except the one still in flight. */
  lemma {:induction false} CompletesExactlyOnce(s: SenderState, events: seq<Event>)
    requires WellBehaved(s, events)
    ensures Accepted(s, events) + Flag(s) == Completed(s, events) + Flag(Run(s, events))
    decreases |events|
  {
    if events != [] {
      CompletesExactlyOnce(Step(s, events[0]), events[1..]);
    }
  }

  /** With a listener that is never replaced, the listener hears one
      notification per completion. */
  lemma {:induction false} OneNotificationPerCompletion(s: SenderState, events: seq<Event>)
    requires s.listener.Some?
    requires forall i :: 0 <= i < |events| ==> !events[i].SetListener?
    ensures |Run(s, events).notifications| == |s.notifications| + Completed(s, events)
    decreases |events|
  {
    if events != [] {
      var t := Step(s, events[0]);
      assert t.listener == s.listener;
      assert |t.notifications| == |s.notifications| + (if CompletesIn(s, events[0]) then 1 else 0);
      OneNotificationPerCompletion(t, events[1..]);
    }
  }

  /** The payloads the listener was told about, in order. */
  function NotifiedPayloads(ns: seq<Notification>): (ps: seq<Payload>)
    ensures |ps| == |ns|
    ensures forall i :: 0 <= i < |ns| ==> ps[i] == ns[i].payload
    decreases |ns|
  {
    if ns == [] then [] else NotifiedPayloads(ns[..|ns| - 1]) + [ns[|ns| - 1].payload]
  }

  /** The payloads of the accepted sends of a run, in order. */
  function AcceptedPayloads(s: SenderState, events: seq<Event>): seq<Payload>
    decreases |events|
  {
    if events == [] then []
    else (if AcceptedIn(s, events[0]) then [events[0].payload.value] else []) + AcceptedPayloads(Step(s, events[0]), events[1..])
  }

  /** The payload of the outstanding request, if a send is outstanding. */
  function Outstanding(s: SenderState): seq<Payload>
  {
    if s.sendingFlag && |s.dispatched| > 0 then [s.dispatched[|s.dispatched| - 1].payload] else []
  }

  /** One step of a well-behaved run moves an accepted payload into the
      outstanding slot or into the notifications, and the outstanding one
      into the notifications. */
  lemma PayloadBalanceStep(s: SenderState, e: Event)
    requires s.listener.Some? && !e.SetListener?
    requires s.sendingFlag ==> |s.dispatched| > 0
    requires e.IsCallback() ==> s.sendingFlag && e.request + 1 == |s.dispatched|
    ensures var t := Step(s, e);
      t.listener == s.listener && (t.sendingFlag ==> |t.dispatched| > 0) &&
      NotifiedPayloads(t.notifications) + Outstanding(t) ==
        NotifiedPayloads(s.notifications) + Outstanding(s) + (if AcceptedIn(s, e) then [e.payload.value] else [])
  {
    var t := Step(s, e);
    if e.Send? && AcceptedIn(s, e) {
      // An accepted payload becomes outstanding, or is notified at once.
      if !e.dispatch.Returned? {
        var n := t.notifications[|t.notifications| - 1];
        assert t.notifications == s.notifications + [n] && n.payload == e.payload.value;
        assert NotifiedPayloads(t.notifications) == NotifiedPayloads(s.notifications) + [n.payload];
      }
    } else if e.IsCallback() {
      // The outstanding payload moves into the notifications.
      var n := t.notifications[|t.notifications| - 1];
      assert t.notifications == s.notifications + [n] && n.payload == s.dispatched[e.request].payload;
      assert NotifiedPayloads(t.notifications) == NotifiedPayloads(s.notifications) + [n.payload];
    }
  }

  lemma AppendIsAssociative<T>(a: seq<T>, b: seq<T>, c: seq<T>)
    ensures a + b + c == a + (b + c)
  {
  }

  /** Under a well-behaved request sender and a listener that is never
      replaced, the listener is told about exactly the accepted payloads, in
      the order they were accepted, except the one still outstanding. */
  lemma {:induction false} NotifiesAcceptedPayloadsInOrder(s: SenderState, events: seq<Event>)
    requires s.listener.Some?
    requires forall i :: 0 <= i < |events| ==> !events[i].SetListener?
    requires s.sendingFlag ==> |s.dispatched| > 0
    requires WellBehaved(s, events)
    ensures NotifiedPayloads(Run(s, events).notifications) + Outstanding(Run(s, events)) ==
            NotifiedPayloads(s.notifications) + Outstanding(s) + AcceptedPayloads(s, events)
    decreases |events|
  {
    if events != [] {
      var t, rest := Step(s, events[0]), events[1..];
      assert forall i :: 0 <= i < |rest| ==> rest[i] == events[i + 1];
      PayloadBalanceStep(s, events[0]);
      NotifiesAcceptedPayloadsInOrder(t, rest);
      // Both sides of the step, then regroup the concatenation.
      var first := if AcceptedIn(s, events[0]) then [events[0].payload.value] else [];
      var before := NotifiedPayloads(s.notifications) + Outstanding(s);
      assert AcceptedPayloads(s, events) == first + AcceptedPayloads(t, rest);
      assert Run(s, events) == Run(t, rest);
      AppendIsAssociative(before, first, AcceptedPayloads(t, rest));
    }
  }

  /** For a new sender given a listener, under a well-behaved request sender:
      the notified payloads, followed by the outstanding one, are exactly the
      accepted payloads. */
  lemma NewSenderNotifiesAcceptedPayloads(retryPolicy: RetryPolicy, l: Listener, events: seq<Event>)
    requires forall i :: 0 <= i < |events| ==> !events[i].SetListener?
    requires WellBehaved(InitialState(retryPolicy).(listener := Some(l)), events)
    ensures var s := InitialState(retryPolicy).(listener := Some(l));
      NotifiedPayloads(Run(s, events).notifications) + Outstanding(Run(s, events)) == AcceptedPayloads(s, events)
  {
    NotifiesAcceptedPayloadsInOrder(InitialState(retryPolicy).(listener := Some(l)), events);
  }

  /** Without the well-behaved assumption the order property fails: a second
      onFinish of the first request, arriving while the second is in flight,
      clears the flag, so a third payload is accepted and the second one is
      never reported. */
  lemma StaleFinishLosesPayload(retryPolicy: RetryPolicy, l: Listener, a: Payload, b: Payload, c: Payload,
                                ra: HttpRequest, rb: HttpRequest, rc: HttpRequest)
    ensures var s := InitialState(retryPolicy).(listener := Some(l));
      var events := [Send(Some(a), Returned(ra)), Finish(0), Send(Some(b), Returned(rb)), Finish(0), Send(Some(c), Returned(rc))];
      !WellBehaved(s, events) &&
      AcceptedPayloads(s, events) == [a, b, c] &&
      NotifiedPayloads(Run(s, events).notifications) == [a, a] &&
      Outstanding(Run(s, events)) == [c]
  {
    var s0 := InitialState(retryPolicy).(listener := Some(l));
    var events := [Send(Some(a), Returned(ra)), Finish(0), Send(Some(b), Returned(rb)), Finish(0), Send(Some(c), Returned(rc))];
    var da := Dispatch(a, ra, retryPolicy);
    var db := Dispatch(b, rb, retryPolicy);
    // A is accepted and dispatched; its request finishes; B is accepted and
    // dispatched; a stale finish of A's request clears the flag; C is accepted.
    var s1 := Step(s0, events[0]);
    assert s1 == s0.(sendingFlag := true, dispatched := [da]);
    var s2 := Step(s1, events[1]);
    assert s2 == s1.(sendingFlag := false, notifications := [Notification(l, a, false, None)]);
    var s3 := Step(s2, events[2]);
    assert s3 == s2.(sendingFlag := true, dispatched := [da, db]);
    var s4 := Step(s3, events[3]);
    assert s4 == s3.(sendingFlag := false, notifications := [Notification(l, a, false, None), Notification(l, a, false, None)]);
    var s5 := Step(s4, events[4]);
    assert s5 == s4.(sendingFlag := true, dispatched := [da, db, Dispatch(c, rc, retryPolicy)]);
    var e1, e2, e3, e4 := events[1..], events[2..], events[3..], events[4..];
    assert e1[1..] == e2 && e2[1..] == e3 && e3[1..] == e4 && e4[1..] == [];
    assert Run(s0, events) == Run(s1, e1) == Run(s2, e2) == Run(s3, e3) == Run(s4, e4) == Run(s5, []);
    assert AcceptedPayloads(s4, e4) == [c];
    assert AcceptedPayloads(s2, e2) == [b, c];
    assert AcceptedPayloads(s0, events) == [a, b, c];
    assert !WellBehaved(s3, e3);
    assert WellBehaved(s0, events) ==> WellBehaved(s1, e1) ==> WellBehaved(s2, e2) ==> WellBehaved(s3, e3);
    assert NotifiedPayloads(s5.notifications) == [a, a];
  }

  /** Every request ever dispatched carries the retry policy the sender was
      built with. */
  lemma {:induction false} RequestsCarrySenderPolicy(s: SenderState, events: seq<Event>)
    requires forall i :: 0 <= i < |s.dispatched| ==> s.dispatched[i].retryPolicy == s.retryPolicy
    ensures Run(s, events).retryPolicy == s.retryPolicy
    ensures forall i :: 0 <= i < |Run(s, events).dispatched| ==> Run(s, events).dispatched[i].retryPolicy == s.retryPolicy
    decreases |events|
  {
    if events != [] {
      var t := Step(s, events[0]);
      assert t.retryPolicy == s.retryPolicy;
      assert forall i :: 0 <= i < |t.dispatched| ==> t.dispatched[i].retryPolicy == s.retryPolicy;
      RequestsCarrySenderPolicy(t, events[1..]);
    }
  }

  // ---------------------------------------------------------------------
  // The sender object

  class PayloadSender {
    const requestSender: RequestSender
    const requestRetryPolicy: RetryPolicy
    var listener: Option<Listener>
    var sendingFlag: bool
    /** What the listener has been told, in order. */
    var notifications: seq<Notification>
    /** The requests dispatched, with the retry policy set on each. */
    var dispatched: seq<Dispatch>

    function State(): SenderState
      reads this
    {
      SenderState(requestRetryPolicy, listener, sendingFlag, notifications, dispatched)
    }

    /** The constructor proper, once both collaborators are known non-null. */
    constructor (requestSender: RequestSender, retryPolicy: RetryPolicy)
      ensures this.requestSender == requestSender
      ensures State() == InitialState(retryPolicy)
    {
      this.requestSender := requestSender;
      this.requestRetryPolicy := retryPolicy;
      listener := None;
      sendingFlag := false;
      notifications := [];
      dispatched := [];
    }

    /** `new PayloadSender(requestSender, retryPolicy)` with its null checks:
        a null request sender, then a null retry policy, is refused. */
    static method Create(requestSender: Option<RequestSender>, retryPolicy: Option<RetryPolicy>)
      returns (sender: PayloadSender?, thrown: Option<Exception>)
      ensures requestSender.None? ==>
        sender == null && thrown == Some(IllegalArgument("Payload request sender is null"))
      ensures requestSender.Some? && retryPolicy.None? ==>
        sender == null && thrown == Some(IllegalArgument("Retry policy is null"))
      ensures requestSender.Some? && retryPolicy.Some? ==>
        thrown == None && sender != null && fresh(sender) &&
        sender.requestSender == requestSender.value && sender.State() == InitialState(retryPolicy.value)
    {
      if requestSender.None? {
        return null, Some(IllegalArgument("Payload request sender is null"));
      }
      if retryPolicy.None? {
        return null, Some(IllegalArgument("Retry policy is null"));
      }
      sender := new PayloadSender(requestSender.value, retryPolicy.value);
      thrown := None;
    }

    /** sendPayload: refuse a null payload, refuse while sending, otherwise
        set the flag, dispatch, and turn a synchronous exception into a
        failure notification; an accepted payload returns true either way. */
    method SendPayload(payload: Option<Payload>, dispatch: DispatchOutcome) returns (accepted: Result<bool>)
      modifies this
      ensures var r := SendPayloadStep(old(State()), payload, dispatch);
        State() == r.state && accepted == r.accepted
      ensures accepted == (if payload.None? then Thrown(IllegalArgument("Payload is null")) else Ok(!old(sendingFlag)))
    {
      if payload.None? {
        return Thrown(IllegalArgument("Payload is null"));
      }
      var busy := IsSendingPayload();
      if busy {
        return Ok(false);
      }
      sendingFlag := true;
      var thrown := SendPayloadRequest(payload.value, dispatch);
      if thrown.Some? {
        var message := DispatchErrorMessage(thrown.value);
        HandleFinishSendingPayload(payload.value, false, Some(message));
      }
      accepted := Ok(true);
    }

    /** sendPayloadRequest: the exception it lets escape, if any. */
    method SendPayloadRequest(payload: Payload, dispatch: DispatchOutcome) returns (thrown: Option<Exception>)
      modifies this`dispatched
      ensures var r := SendRequest(old(State()), payload, dispatch);
        State() == r.state && thrown == r.thrown
    {
      match dispatch
      case Raised(e) =>
        thrown := Some(e);
      case ReturnedNull(npeMessage) =>
        thrown := Some(Exception("NullPointerException", npeMessage));
      case Returned(request) =>
        dispatched := dispatched + [Dispatch(payload, request, requestRetryPolicy)];
        thrown := None;
    }

    /** The onFinish callback of the dispatched request at position
        `request`; it reports the payload that request was sent for. */
    method OnFinish(request: nat)
      requires request < |dispatched|
      modifies this
      ensures State() == OnFinishStep(old(State()), request)
    {
      HandleFinishSendingPayload(dispatched[request].payload, false, None);
    }

    /** The onCancel callback of the dispatched request at position `request`. */
    method OnCancel(request: nat)
      requires request < |dispatched|
      modifies this
      ensures State() == OnCancelStep(old(State()), request)
    {
      HandleFinishSendingPayload(dispatched[request].payload, true, None);
    }

    /** The onFail callback of the dispatched request at position `request`. */
    method OnFail(request: nat, reason: Option<string>)
      requires request < |dispatched|
      modifies this
      ensures State() == OnFailStep(old(State()), request, reason)
    {
      HandleFinishSendingPayload(dispatched[request].payload, false, reason);
    }

    /** handleFinishSendingPayload: clear the flag first, then notify. */
    method HandleFinishSendingPayload(payload: Payload, cancelled: bool, errorMessage: Option<string>)
      modifies this`sendingFlag, this`notifications
      ensures State() == HandleFinish(old(State()), payload, cancelled, errorMessage)
    {
      sendingFlag := false;
      if listener.Some? {
        notifications := notifications + [Notification(listener.value, payload, cancelled, errorMessage)];
      }
    }

    /** isSendingPayload: the flag as it is now. */
    function IsSendingPayload(): (sending: bool)
      reads this
      ensures sending == State().sendingFlag
    {
      sendingFlag
    }

    /** setListener: replace the listener (None stands for null). */
    method SetListener(listener: Option<Listener>)
      modifies this`listener
      ensures State() == Step(old(State()), Event.SetListener(listener))
    {
      this.listener := listener;
    }
  }

  /** When the outstanding request finishes, the listener hears of its
      payload; a send of the next payload from the listener is accepted, and
      that payload is then the outstanding one. */
  method ResendFromListener(sender: PayloadSender, next: Payload, request: HttpRequest)
    returns (accepted: Result<bool>)
    requires sender.sendingFlag && |sender.dispatched| > 0
    modifies sender
    ensures accepted == Ok(true) && sender.IsSendingPayload()
    ensures sender.dispatched == old(sender.dispatched) + [Dispatch(next, request, sender.requestRetryPolicy)]
    ensures old(sender.listener).Some? ==>
      sender.notifications == old(sender.notifications) +
        [Notification(old(sender.listener).value, old(sender.dispatched)[|old(sender.dispatched)| - 1].payload, false, None)]
  {
    sender.OnFinish(|sender.dispatched| - 1);
    accepted := sender.SendPayload(Some(next), Returned(request));
  }
}
