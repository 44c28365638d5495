/**
 * The payment lifecycle: five statuses, a Success and a Failure event per
 * operation, the table of events each status accepts, the four transit
 * functions and the holder object that keeps the current state.
 */
module PaymentStateMachine {
  import opened Wrappers

  datatype PaymentStatus = Pending | Authorized | Captured | Refunded | Voided

  datatype PaymentEvent =
    | AuthorizeSuccess | AuthorizeFailure
    | CaptureSuccess | CaptureFailure
    | RefundSuccess | RefundFailure
    | VoidSuccess | VoidFailure

  /** The four money-moving operations, one transit function each. */
  datatype Operation = Authorize | Capture | Refund | Void

  const ALL_STATUSES: seq<PaymentStatus> := [Pending, Authorized, Captured, Refunded, Voided]
  const ALL_EVENTS: seq<PaymentEvent> :=
    [AuthorizeSuccess, AuthorizeFailure, CaptureSuccess, CaptureFailure,
     RefundSuccess, RefundFailure, VoidSuccess, VoidFailure]

  function OperationOf(e: PaymentEvent): Operation {
    match e
    case AuthorizeSuccess | AuthorizeFailure => Authorize
    case CaptureSuccess | CaptureFailure => Capture
    case RefundSuccess | RefundFailure => Refund
    case VoidSuccess | VoidFailure => Void
  }

  predicate IsSuccess(e: PaymentEvent) {
    e == AuthorizeSuccess || e == CaptureSuccess || e == RefundSuccess || e == VoidSuccess
  }

  function SuccessEvent(op: Operation): PaymentEvent {
    match op
    case Authorize => AuthorizeSuccess
    case Capture => CaptureSuccess
    case Refund => RefundSuccess
    case Void => VoidSuccess
  }

  function FailureEvent(op: Operation): PaymentEvent {
    match op
    case Authorize => AuthorizeFailure
    case Capture => CaptureFailure
    case Refund => RefundFailure
    case Void => VoidFailure
  }

  /** There are five distinct statuses and eight distinct events, and every value is listed. */
  lemma Enumerations()
    ensures |ALL_STATUSES| == 5 && forall s: PaymentStatus :: s in ALL_STATUSES
    ensures forall i, j :: 0 <= i < j < |ALL_STATUSES| ==> ALL_STATUSES[i] != ALL_STATUSES[j]
    ensures |ALL_EVENTS| == 8 && forall e: PaymentEvent :: e in ALL_EVENTS
    ensures forall i, j :: 0 <= i < j < |ALL_EVENTS| ==> ALL_EVENTS[i] != ALL_EVENTS[j]
  {
    forall s: PaymentStatus ensures s in ALL_STATUSES {
      match s
      case Pending => assert ALL_STATUSES[0] == s;
      case Authorized => assert ALL_STATUSES[1] == s;
      case Captured => assert ALL_STATUSES[2] == s;
      case Refunded => assert ALL_STATUSES[3] == s;
      case Voided => assert ALL_STATUSES[4] == s;
    }
    forall e: PaymentEvent ensures e in ALL_EVENTS {
      match e
      case AuthorizeSuccess => assert ALL_EVENTS[0] == e;
      case AuthorizeFailure => assert ALL_EVENTS[1] == e;
      case CaptureSuccess => assert ALL_EVENTS[2] == e;
      case CaptureFailure => assert ALL_EVENTS[3] == e;
      case RefundSuccess => assert ALL_EVENTS[4] == e;
      case RefundFailure => assert ALL_EVENTS[5] == e;
      case VoidSuccess => assert ALL_EVENTS[6] == e;
      case VoidFailure => assert ALL_EVENTS[7] == e;
    }
  }

  /** Every event is exactly one of the Success or the Failure event of its operation. */
  lemma EventsPerOperation(e: PaymentEvent, op: Operation)
    ensures SuccessEvent(op) != FailureEvent(op)
    ensures OperationOf(SuccessEvent(op)) == op && IsSuccess(SuccessEvent(op))
    ensures OperationOf(FailureEvent(op)) == op && !IsSuccess(FailureEvent(op))
    ensures e == SuccessEvent(OperationOf(e)) || e == FailureEvent(OperationOf(e))
    ensures IsSuccess(e) <==> e == SuccessEvent(OperationOf(e))
  {
  }

  /**
   * A payment state: a status and, for the three non-final statuses, the
   * status it heads for. The union type of the source restricts the pairs;
   * IsPaymentState below says which.
   */
  datatype PaymentState = PaymentState(status: PaymentStatus, targetState: Option<PaymentStatus>)

  /** The statuses the union type allows as `targetState` of each status. */
  function Targets(status: PaymentStatus): set<PaymentStatus> {
    match status
    case Pending => {Authorized}
    case Authorized => {Captured, Voided}
    case Captured => {Refunded}
    case Refunded => {}
    case Voided => {}
  }

  /** The discriminated union: a target exactly when the status has one, and one of the allowed ones. */
  predicate IsPaymentState(s: PaymentState) {
    if Targets(s.status) == {} then s.targetState.None?
    else s.targetState.Some? && s.targetState.value in Targets(s.status)
  }

  /** The events each status accepts (the type-level transition table). */
  function AcceptedEvents(status: PaymentStatus): set<PaymentEvent> {
    match status
    case Pending => {AuthorizeSuccess, AuthorizeFailure}
    case Authorized => {CaptureSuccess, CaptureFailure, VoidSuccess, VoidFailure}
    case Captured => {RefundSuccess, RefundFailure}
    case Refunded => {}
    case Voided => {}
  }

  /** Refunded and Voided carry no target and accept no event. */
  lemma FinalStatuses(s: PaymentStatus)
    ensures (s == Refunded || s == Voided) <==> Targets(s) == {}
    ensures (s == Refunded || s == Voided) <==> AcceptedEvents(s) == {}
  {
  }

  /** The status each transit function requires, and the status its Success event enters. */
  function SourceStatus(op: Operation): PaymentStatus {
    match op
    case Authorize => Pending
    case Capture => Authorized
    case Void => Authorized
    case Refund => Captured
  }

  function SuccessStatus(op: Operation): PaymentStatus {
    match op
    case Authorize => Authorized
    case Capture => Captured
    case Void => Voided
    case Refund => Refunded
  }

  const INVALID_EVENT := "Invalid event"

  function AuthorizeTransit(currentState: PaymentState, event: PaymentEvent): Result<PaymentState, string> {
    if currentState.status != Pending then Err("Current state is not Pending")
    else match event
      case AuthorizeSuccess => Ok(PaymentState(Authorized, Some(Captured)))
      case AuthorizeFailure => Ok(PaymentState(Pending, Some(Authorized)))
      case _ => Err(INVALID_EVENT)
  }

  function CaptureTransit(currentState: PaymentState, event: PaymentEvent): Result<PaymentState, string> {
    if currentState.status != Authorized then Err("Current state is not Authorized")
    else match event
      case CaptureSuccess => Ok(PaymentState(Captured, Some(Refunded)))
      case CaptureFailure => Ok(PaymentState(Authorized, Some(Captured)))
      case _ => Err(INVALID_EVENT)
  }

  function VoidTransit(currentState: PaymentState, event: PaymentEvent): Result<PaymentState, string> {
    if currentState.status != Authorized then Err("Current state is not Authorized")
    else match event
      case VoidSuccess => Ok(PaymentState(Voided, None))
      case VoidFailure => Ok(PaymentState(Authorized, Some(Voided)))
      case _ => Err(INVALID_EVENT)
  }

  function RefundTransit(currentState: PaymentState, event: PaymentEvent): Result<PaymentState, string> {
    if currentState.status != Captured then Err("Current state is not Captured")
    else match event
      case RefundSuccess => Ok(PaymentState(Refunded, None))
      case RefundFailure => Ok(PaymentState(Captured, Some(Refunded)))
      case _ => Err(INVALID_EVENT)
  }

  /** The transit function of an operation. */
  function Transit(op: Operation, currentState: PaymentState, event: PaymentEvent): Result<PaymentState, string> {
    match op
    case Authorize => AuthorizeTransit(currentState, event)
    case Capture => CaptureTransit(currentState, event)
    case Void => VoidTransit(currentState, event)
    case Refund => RefundTransit(currentState, event)
  }

  /**
   * A transit succeeds exactly when the current status accepts the event in
   * the table and the event belongs to the transit's own operation.
   */
  lemma TransitFollowsTable(op: Operation, s: PaymentState, e: PaymentEvent)
    ensures Transit(op, s, e).Ok? <==> e in AcceptedEvents(s.status) && OperationOf(e) == op
  {
  }

  /**
   * The errors: a wrong current status is reported first, naming the required
   * status; an event of another operation then falls to 'Invalid event'.
   */
  lemma TransitErrors(op: Operation, s: PaymentState, e: PaymentEvent)
    ensures s.status != SourceStatus(op) ==>
      Transit(op, s, e) == Err("Current state is not " + StatusName(SourceStatus(op)))
    ensures s.status == SourceStatus(op) && OperationOf(e) != op ==> Transit(op, s, e) == Err(INVALID_EVENT)
  {
    match SourceStatus(op)
    case Pending => assert "Current state is not " + "Pending" == "Current state is not Pending";
    case Authorized => assert "Current state is not " + "Authorized" == "Current state is not Authorized";
    case Captured => assert "Current state is not " + "Captured" == "Current state is not Captured";
  }

  function StatusName(s: PaymentStatus): string {
    match s
    case Pending => "Pending"
    case Authorized => "Authorized"
    case Captured => "Captured"
    case Refunded => "Refunded"
    case Voided => "Voided"
  }

  /**
   * What a successful transit returns: a Success event moves to the
   * operation's status along an edge of the table, a Failure event keeps the
   * status and aims at the operation's status; either way the result is a
   * member of the union type.
   */
  lemma TransitResult(op: Operation, s: PaymentState, e: PaymentEvent)
    requires Transit(op, s, e).Ok?
    ensures var next := Transit(op, s, e).value;
      && IsPaymentState(next)
      && s.status == SourceStatus(op)
      && (IsSuccess(e) ==> next.status == SuccessStatus(op) && next.status in Targets(s.status))
      && (!IsSuccess(e) ==> next == PaymentState(s.status, Some(SuccessStatus(op))))
  {
  }

  /** A Success event is a legal edge of the lifecycle: Pending to Authorized, Authorized to Captured or Voided, Captured to Refunded. */
  predicate LegalEdge(from: PaymentStatus, to: PaymentStatus) {
    || (from == Pending && to == Authorized)
    || (from == Authorized && (to == Captured || to == Voided))
    || (from == Captured && to == Refunded)
  }

  /** Dispatches an event to the transit function of its own operation. */
  function Transition(s: PaymentState, e: PaymentEvent): Result<PaymentState, string> {
    Transit(OperationOf(e), s, e)
  }

  /** Totality: the transition errs exactly on the pairs the table does not list, and otherwise follows a legal edge or stays put. */
  lemma TransitionIsTotal(s: PaymentState, e: PaymentEvent)
    ensures Transition(s, e).Ok? <==> e in AcceptedEvents(s.status)
    ensures Transition(s, e).Ok? && IsSuccess(e) ==> LegalEdge(s.status, Transition(s, e).value.status)
    ensures Transition(s, e).Ok? && !IsSuccess(e) ==> Transition(s, e).value.status == s.status
  {
  }

  /** Refunded and Voided are terminal: every operation errs from them. */
  lemma TerminalStatuses(op: Operation, s: PaymentState, e: PaymentEvent)
    requires s.status == Refunded || s.status == Voided
    ensures Transit(op, s, e).Err?
  {
  }

  /** How far along the lifecycle a status is. */
  function Rank(s: PaymentStatus): nat {
    match s
    case Pending => 0
    case Authorized => 1
    case Captured => 2
    case Voided => 2
    case Refunded => 3
  }

  /** The holder's behaviour over a series of events: an error keeps the state. */
  function Run(s: PaymentState, events: seq<PaymentEvent>): PaymentState
    decreases |events|
  {
    if events == [] then s
    else
      var r := Transition(s, events[0]);
      Run(if r.Ok? then r.value else s, events[1..])
  }

  /**
   * Over any series of events the status never moves back, the state stays
   * in the union type, and a payment that reached Refunded or Voided stays
   * exactly as it was.
   */
  lemma {:induction false} RunMovesForward(s: PaymentState, events: seq<PaymentEvent>)
    requires IsPaymentState(s)
    ensures Rank(Run(s, events).status) >= Rank(s.status)
    ensures IsPaymentState(Run(s, events))
    ensures s.status == Refunded || s.status == Voided ==> Run(s, events) == s
    decreases |events|
  {
    if events != [] {
      var r := Transition(s, events[0]);
      if r.Ok? {
        TransitResult(OperationOf(events[0]), s, events[0]);
      }
      RunMovesForward(if r.Ok? then r.value else s, events[1..]);
    }
  }

  /**
   * The object returned by the factory: it keeps the current state and
   * replaces it only with what a transit returned.
   */
  class StateMachine {
    var state: PaymentState

    constructor (initialState: PaymentState)
      ensures state == initialState
    {
      state := initialState;
    }

    method GetState() returns (s: PaymentState)
      ensures s == state
    {
      s := state;
    }

    /** Applies a transit function; an error leaves the state as it was. */
    method Transition(transit: (PaymentState, PaymentEvent) -> Result<PaymentState, string>, event: PaymentEvent)
      returns (r: Result<PaymentState, string>)
      modifies this
      ensures r == transit(old(state), event)
      ensures state == if r.Ok? then r.value else old(state)
    {
      var currentState := state;
      var nextState := transit(currentState, event);
      if nextState.Err? {
        state := currentState;
        return nextState;
      }
      state := nextState.value;
      return nextState;
    }

    method Authorize(event: PaymentEvent) returns (r: Result<PaymentState, string>)
      modifies this
      ensures r == AuthorizeTransit(old(state), event)
      ensures state == if r.Ok? then r.value else old(state)
      ensures IsPaymentState(old(state)) ==> IsPaymentState(state)
    {
      r := Transition(AuthorizeTransit, event);
      if r.Ok? { TransitResult(Operation.Authorize, old(state), event); }
    }

    method Capture(event: PaymentEvent) returns (r: Result<PaymentState, string>)
      modifies this
      ensures r == CaptureTransit(old(state), event)
      ensures state == if r.Ok? then r.value else old(state)
      ensures IsPaymentState(old(state)) ==> IsPaymentState(state)
    {
      r := Transition(CaptureTransit, event);
      if r.Ok? { TransitResult(Operation.Capture, old(state), event); }
    }

    method Refund(event: PaymentEvent) returns (r: Result<PaymentState, string>)
      modifies this
      ensures r == RefundTransit(old(state), event)
      ensures state == if r.Ok? then r.value else old(state)
      ensures IsPaymentState(old(state)) ==> IsPaymentState(state)
    {
      r := Transition(RefundTransit, event);
      if r.Ok? { TransitResult(Operation.Refund, old(state), event); }
    }

    method Voidy(event: PaymentEvent) returns (r: Result<PaymentState, string>)
      modifies this
      ensures r == VoidTransit(old(state), event)
      ensures state == if r.Ok? then r.value else old(state)
      ensures IsPaymentState(old(state)) ==> IsPaymentState(state)
    {
      r := Transition(VoidTransit, event);
      if r.Ok? { TransitResult(Operation.Void, old(state), event); }
    }
  }
}
