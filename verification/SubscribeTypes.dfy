/** The values the Subscribe Event Engine passes around: states, events,
    contexts, invocations and subscription statuses. */
module SubscribeTypes {
  import opened Common

  datatype StateType =
    | Unsubscribed
    | Handshaking
    | HandshakeFailed
    | HandshakeStopped
    | Receiving
    | ReceiveFailed
    | ReceiveStopped

  datatype Cursor = Cursor(timetoken: string, region: int)

  const DEFAULT_CURSOR := Cursor("0", 0)

  const RESULT_OK: int := 0

  /** An event together with what its constructor was given. A missing list is
      the source's NULL pointer. */
  datatype Event =
    | SubscriptionChanged(channels: Option<string>, groups: Option<string>, sentByEngine: bool)
    | SubscriptionRestored(channels: Option<string>, groups: Option<string>, cursor: Cursor, sentByEngine: bool)
    | HandshakeSuccess(cursor: Cursor)
    | HandshakeFailure(reason: int)
    | ReceiveSuccess(cursor: Cursor)
    | ReceiveFailure(reason: int)
    | Disconnect
    | Reconnect(cursor: Cursor)
    | UnsubscribeAll(channels: Option<string>, groups: Option<string>)

  datatype Context = Context(
    channels: Option<string>,
    groups: Option<string>,
    cursor: Cursor,
    reason: int,
    sendHeartbeat: bool)

  datatype SubscriptionStatus =
    | Connected
    | ConnectionError
    | DisconnectedUnexpectedly
    | Disconnected
    | SubscriptionChangedStatus

  datatype InvocationType = Handshake | Receive | EmitStatus | EmitMessage | Cancel

  /** COMPLETED is only ever held for the moment between the completion callback
      and the removal from the queue. */
  datatype InvocationStatus = Created | Running | Completed

  datatype Invocation = Invocation(
    id: nat,
    kind: InvocationType,
    status: InvocationStatus,
    context: Context)
  {
    /** Only CANCEL invocations are allocated as immediate. */
    predicate Immediate() { kind == Cancel }
  }

  /** Event constructors turn an empty list into a missing one. */
  function NonEmpty(list: Option<string>): Option<string> {
    if list.Some? && list.value == "" then None else list
  }

  /** The context an event carries: the event's own lists, cursor and reason over
      what the current state remembers. Only the two subscription events replace
      the lists; only they can ask for a heartbeat. */
  function EventContext(current: Option<Context>, event: Event): Context {
    var remembered := if current.Some? then current.value.cursor else DEFAULT_CURSOR;
    match event
    case SubscriptionChanged(channels, groups, sentByEngine) =>
      Context(NonEmpty(channels), NonEmpty(groups), remembered, RESULT_OK, !sentByEngine)
    case SubscriptionRestored(channels, groups, cursor, sentByEngine) =>
      Context(NonEmpty(channels), NonEmpty(groups), cursor, RESULT_OK, !sentByEngine)
    case UnsubscribeAll(channels, groups) =>
      Inherit(current, NonEmpty(channels), NonEmpty(groups)).(cursor := remembered)
    case HandshakeSuccess(cursor) => Inherit(current, None, None).(cursor := cursor)
    case ReceiveSuccess(cursor) => Inherit(current, None, None).(cursor := cursor)
    case Reconnect(cursor) => Inherit(current, None, None).(cursor := cursor)
    case HandshakeFailure(reason) => Inherit(current, None, None).(cursor := remembered, reason := reason)
    case ReceiveFailure(reason) => Inherit(current, None, None).(cursor := remembered, reason := reason)
    case Disconnect => Inherit(current, None, None).(cursor := remembered)
  }

  /** A list the event does not bring is shared with the current state's context. */
  function Inherit(current: Option<Context>, channels: Option<string>, groups: Option<string>): Context {
    Context(
      if channels == None && current.Some? then current.value.channels else channels,
      if groups == None && current.Some? then current.value.groups else groups,
      DEFAULT_CURSOR, RESULT_OK, false)
  }

  predicate NothingToSubscribe(context: Context) {
    (context.channels == None || context.channels.value == "") &&
    (context.groups == None || context.groups.value == "")
  }
}
