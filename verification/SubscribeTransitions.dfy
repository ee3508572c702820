/** The seven per-state transition functions. */
module SubscribeTransitions {
  import opened Common
  import opened SubscribeTypes

  /** What a transition function decides: the state to enter (none: the event is
      not handled here), the subscription status to store, and the invocation to
      run before the state is left. */
  datatype Decision = Decision(
    target: Option<StateType>,
    status: Option<SubscriptionStatus>,
    emission: Option<InvocationType>)

  const IGNORED := Decision(None, None, None)

  function Goto(target: StateType): Decision {
    Decision(Some(target), None, None)
  }

  function Report(target: StateType, status: SubscriptionStatus): Decision {
    Decision(Some(target), Some(status), Some(EmitStatus))
  }

  function FromUnsubscribed(event: Event, context: Context): Decision {
    match event
    case SubscriptionChanged(_, _, _) => Goto(Handshaking)
    case SubscriptionRestored(_, _, _, _) => Goto(Handshaking)
    case _ => IGNORED
  }

  function FromHandshaking(event: Event, context: Context): Decision {
    match event
    case SubscriptionChanged(_, _, _) =>
      if NothingToSubscribe(context) then Goto(Unsubscribed) else Goto(Handshaking)
    case SubscriptionRestored(_, _, _, _) => Goto(Handshaking)
    case HandshakeSuccess(_) => Report(Receiving, Connected)
    case HandshakeFailure(_) => Report(HandshakeFailed, ConnectionError)
    case Disconnect => Goto(HandshakeStopped)
    case UnsubscribeAll(_, _) => Goto(Unsubscribed)
    case _ => IGNORED
  }

  function FromHandshakeFailed(event: Event, context: Context): Decision {
    match event
    case SubscriptionChanged(_, _, _) =>
      if NothingToSubscribe(context) then Goto(Unsubscribed) else Goto(Handshaking)
    case SubscriptionRestored(_, _, _, _) =>
      if NothingToSubscribe(context) then Goto(Unsubscribed) else Goto(Handshaking)
    case Reconnect(_) => Goto(Handshaking)
    case UnsubscribeAll(_, _) => Goto(Unsubscribed)
    case _ => IGNORED
  }

  function FromHandshakeStopped(event: Event, context: Context): Decision {
    match event
    case SubscriptionChanged(_, _, _) => Goto(HandshakeStopped)
    case SubscriptionRestored(_, _, _, _) => Goto(HandshakeStopped)
    case Reconnect(_) => Goto(Handshaking)
    case UnsubscribeAll(_, _) => Goto(Unsubscribed)
    case _ => IGNORED
  }

  function FromReceiving(event: Event, context: Context): Decision {
    match event
    case SubscriptionChanged(_, _, _) =>
      if NothingToSubscribe(context) then Report(Unsubscribed, Disconnected)
      else Report(Receiving, SubscriptionChangedStatus)
    case SubscriptionRestored(_, _, _, _) =>
      if NothingToSubscribe(context) then Report(Unsubscribed, Disconnected)
      else Report(Receiving, SubscriptionChangedStatus)
    case ReceiveSuccess(_) => Decision(Some(Receiving), None, Some(EmitMessage))
    case ReceiveFailure(_) => Report(ReceiveFailed, DisconnectedUnexpectedly)
    case Disconnect => Report(ReceiveStopped, Disconnected)
    case UnsubscribeAll(_, _) => Report(Unsubscribed, Disconnected)
    case _ => IGNORED
  }

  function FromReceiveFailed(event: Event, context: Context): Decision {
    match event
    case SubscriptionChanged(_, _, _) => Goto(Handshaking)
    case SubscriptionRestored(_, _, _, _) => Goto(Handshaking)
    case Reconnect(_) => Goto(Handshaking)
    case UnsubscribeAll(_, _) => Goto(Unsubscribed)
    case _ => IGNORED
  }

  function FromReceiveStopped(event: Event, context: Context): Decision {
    match event
    case SubscriptionChanged(_, _, _) => Goto(ReceiveStopped)
    case SubscriptionRestored(_, _, _, _) => Goto(ReceiveStopped)
    case Reconnect(_) => Goto(Handshaking)
    case UnsubscribeAll(_, _) => Goto(Unsubscribed)
    case _ => IGNORED
  }

  function Decide(state: StateType, event: Event, context: Context): Decision {
    match state
    case Unsubscribed => FromUnsubscribed(event, context)
    case Handshaking => FromHandshaking(event, context)
    case HandshakeFailed => FromHandshakeFailed(event, context)
    case HandshakeStopped => FromHandshakeStopped(event, context)
    case Receiving => FromReceiving(event, context)
    case ReceiveFailed => FromReceiveFailed(event, context)
    case ReceiveStopped => FromReceiveStopped(event, context)
  }

  /** The request a state issues when it is entered. */
  function OnEnter(state: StateType): (kind: Option<InvocationType>) {
    match state
    case Handshaking => Some(Handshake)
    case Receiving => Some(Receive)
    case _ => None
  }

  /** States that issued a request cancel it when they are left. */
  function OnExit(state: StateType): Option<InvocationType> {
    if OnEnter(state).Some? then Some(Cancel) else None
  }
}
