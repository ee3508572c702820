/** What a log says: the life of each invocation, the order in which they were
    enqueued and finished, and the subscription state the accepted events add up
    to. Nothing here looks at the machine's own fields. */
module SubscribeLog {
  import opened Common
  import opened SubscribeTypes
  import opened SubscribeMachine

  // ---------- one invocation ----------

  datatype Phase = Absent | Pending | Active | Suspended | Gone

  /** Where the log leaves an invocation. */
  function PhaseOf(log: seq<Entry>, id: nat): Phase {
    if log == [] then Absent
    else
      var before := PhaseOf(log[..|log| - 1], id);
      match log[|log| - 1]
      case Enqueued(x, _) => if x == id then Pending else before
      case Paused(x) => if x == id then Pending else before
      case Started(x) => if x == id then Active else before
      case Waiting(x) => if x == id then Suspended else before
      case Finished(x, _) => if x == id then Gone else before
      case Removed(x) => if x == id then Gone else before
      case _ => before
  }

  /** The entries that may follow a log: an invocation is enqueued once, started
      only while pending, paused or left waiting only while its effect runs,
      finished from there, and removed only while pending. */
  predicate Allowed(log: seq<Entry>, entry: Entry) {
    match entry
    case Enqueued(id, _) => PhaseOf(log, id) == Absent
    case Removed(id) => PhaseOf(log, id) == Pending
    case Started(id) => PhaseOf(log, id) == Pending
    case Paused(id) => PhaseOf(log, id) == Active
    case Waiting(id) => PhaseOf(log, id) == Active
    case Finished(id, _) => PhaseOf(log, id) == Active || PhaseOf(log, id) == Suspended
    case _ => true
  }

  predicate Legal(log: seq<Entry>) {
    log == [] || (Legal(log[..|log| - 1]) && Allowed(log[..|log| - 1], log[|log| - 1]))
  }

  // ---------- order ----------

  /** Non-immediate invocations in the order they were enqueued. */
  function EnqueuedIds(log: seq<Entry>): seq<nat> {
    if log == [] then []
    else
      var before := EnqueuedIds(log[..|log| - 1]);
      var last := log[|log| - 1];
      if last.Enqueued? && last.kind != Cancel then before + [last.id] else before
  }

  /** Non-immediate invocations in the order they finished. */
  function FinishedIds(log: seq<Entry>): seq<nat> {
    if log == [] then []
    else
      var before := FinishedIds(log[..|log| - 1]);
      var last := log[|log| - 1];
      if last.Finished? && last.kind != Cancel then before + [last.id] else before
  }

  function RemovedIds(log: seq<Entry>): set<nat> {
    if log == [] then {}
    else
      var before := RemovedIds(log[..|log| - 1]);
      var last := log[|log| - 1];
      if last.Removed? then before + {last.id} else before
  }

  // ---------- subscription ----------

  /** What the accepted events, the reports and the waiting cancels of a log add
      up to, with nothing taken from the machine. */
  datatype Story = Story(
    state: StateType,
    channels: Option<string>,
    groups: Option<string>,
    cursor: Cursor,
    reported: SubscriptionStatus,
    waiting: Option<nat>,
    overlapped: bool,
    requestsCurrent: bool,
    receivingEarned: bool)
  {
    /** The context asks for exactly what the log adds up to. */
    predicate Agrees(context: Context) {
      context.channels == channels && context.groups == groups && context.cursor == cursor
    }

    predicate Issued(kind: InvocationType) {
      (kind == Handshake && state == Handshaking) || (kind == Receive && state == Receiving)
    }

    /** The lists are those of the last accepted SUBSCRIPTION_CHANGED or
        SUBSCRIPTION_RESTORED. The cursor is that of the last accepted event that
        brings one, and is forgotten whenever UNSUBSCRIBED is entered. */
    function Move(event: Event, origin: StateType, target: StateType): Story {
      var relisted := event.SubscriptionChanged? || event.SubscriptionRestored?;
      this.(
      state := target,
      channels := if relisted then NonEmpty(event.channels) else channels,
      groups := if relisted then NonEmpty(event.groups) else groups,
      cursor := if target == Unsubscribed then DEFAULT_CURSOR
                else if BringsCursor(event) then event.cursor
                else cursor,
      receivingEarned := receivingEarned && origin == state &&
                         (target == Receiving && state != Receiving ==>
                            state == Handshaking && event.HandshakeSuccess?))
    }

    function Tell(entry: Entry): Story {
      match entry
      case Moved(event, origin, target) => Move(event, origin, target)
      case Reported(status) => this.(reported := status)
      case Requested(kind, context) =>
        this.(requestsCurrent := requestsCurrent && (Issued(kind) ==> Agrees(context)))
      case Waiting(id) => this.(waiting := Some(id), overlapped := overlapped || waiting.Some?)
      case Finished(id, _) => if waiting == Some(id) then this.(waiting := None) else this
      case _ => this
    }
  }

  const BEGINNING := Story(Unsubscribed, None, None, DEFAULT_CURSOR, Disconnected, None, false, true, true)

  function StoryOf(log: seq<Entry>): Story {
    if log == [] then BEGINNING else StoryOf(log[..|log| - 1]).Tell(log[|log| - 1])
  }

  predicate BringsCursor(event: Event) {
    event.SubscriptionRestored? || event.HandshakeSuccess? || event.ReceiveSuccess? || event.Reconnect?
  }

  /** Appending an entry is one step of each of the functions above. */
  lemma Push(log: seq<Entry>, entry: Entry)
    ensures (log + [entry])[..|log + [entry]| - 1] == log
    ensures (log + [entry])[|log + [entry]| - 1] == entry
    ensures StoryOf(log + [entry]) == StoryOf(log).Tell(entry)
  {
  }

  lemma PushIds(log: seq<Entry>, entry: Entry)
    ensures EnqueuedIds(log + [entry]) == if entry.Enqueued? && entry.kind != Cancel then EnqueuedIds(log) + [entry.id] else EnqueuedIds(log)
    ensures FinishedIds(log + [entry]) == if entry.Finished? && entry.kind != Cancel then FinishedIds(log) + [entry.id] else FinishedIds(log)
    ensures RemovedIds(log + [entry]) == if entry.Removed? then RemovedIds(log) + {entry.id} else RemovedIds(log)
  {
    assert (log + [entry])[..|log + [entry]| - 1] == log;
  }
}
