/**
 One resumable event stream of the Rust client: three cursors, a bounded queue between the socket actor
 and the application, and a typed end.

 `Stream` is the stream's state as a value. The functions on it are the regions that run under the
 stream's lock, and `EventStream` is the object that performs them in place.
 */
module EventStream {
  import opened Bytes

  const MAX_SEQUENCE: nat := 9_007_199_254_740_991

  datatype Payload = SessionEnded | OtherEvent(body: nat)

  datatype Cursor = Cursor(session: nat, epoch: nat, sequence: nat)

  /** What one subscription is bound to. */
  datatype Binding = Binding(
    session: nat, epoch: nat, subscription: nat, minor: nat,
    after: Option<Cursor>, replayThrough: Cursor, ended: bool,
    maxEvents: nat, maxBytes: nat)

  datatype Item = Item(cursor: Cursor, payload: Payload)
  datatype Queued = Queued(bytes: nat, item: Item)

  datatype StreamError = ProtocolViolation | CursorError | QueueOverflow | Cancelled | TransportError
  datatype Completion = Active | Remote | Failed(error: StreamError) | CancelledLocally

  datatype Terminal = Terminal(subscription: nat, session: nat, last: Option<Cursor>, sessionEnded: bool)

  /**
   The socket actor. Once a cancel was signalled it is `Late`: it may finish the message it is working on and
   sees the signal then. While `Closing` it has decided how it ends and not yet recorded it.
   */
  datatype Actor = Running | Late | Closing(completion: Completion) | Gone

  datatype Stream = Stream(
    b: Binding,
    completion: Completion,
    received: Option<Cursor>,
    lastWasEnd: bool,
    delivered: Option<Cursor>,
    confirmed: Option<Cursor>,
    terminal: Option<Terminal>,
    queuedBytes: nat,
    queue: seq<Queued>,
    inHand: Option<Queued>,     // taken from the queue by `next`, not yet recorded
    actor: Actor)

  function Opened(b: Binding): Stream {
    Stream(b, Active, None, false, b.after, b.after, None, 0, [], None, Running)
  }

  function At(c: Option<Cursor>): nat {
    if c.Some? then c.value.sequence else 0
  }

  /** The end of the continuous prefix the socket has shown. */
  function Reached(s: Stream): nat {
    if s.received.Some? then s.received.value.sequence else At(s.b.after)
  }

  // ----- Receiving -----

  datatype Message = Message(
    subscription: nat, cursor: Cursor, eventSession: nat, eventSequence: nat, payload: Payload, minor: nat)

  function CheckEvent(s: Stream, m: Message): Option<StreamError> {
    if m.subscription != s.b.subscription then Some(ProtocolViolation)
    else if m.cursor.session != s.b.session || m.cursor.epoch != s.b.epoch
            || m.eventSession != s.b.session || m.eventSequence != m.cursor.sequence then Some(CursorError)
    else if m.minor > s.b.minor then Some(ProtocolViolation)
    else if Reached(s) + 1 > MAX_SEQUENCE then Some(CursorError)
    else if m.cursor.sequence != Reached(s) + 1 then Some(CursorError)
    else None
  }

  predicate HasRoom(s: Stream, bytes: nat) {
    s.queuedBytes + bytes <= s.b.maxBytes && |s.queue| < s.b.maxEvents
  }

  /** The cursor moves before the room is checked. */
  function Receive(s: Stream, m: Message): Stream {
    s.(received := Some(m.cursor), lastWasEnd := m.payload.SessionEnded?)
  }

  function Enqueue(s: Stream, m: Message, bytes: nat): Stream {
    Receive(s, m).(queue := s.queue + [Queued(bytes, Item(m.cursor, m.payload))], queuedBytes := s.queuedBytes + bytes)
  }

  function CheckTerminal(s: Stream, t: Terminal): Option<StreamError> {
    if t.subscription != s.b.subscription || t.session != s.b.session then Some(ProtocolViolation)
    else if t.last.Some? && (t.last.value.session != s.b.session || t.last.value.epoch != s.b.epoch) then
      Some(CursorError)
    else if t.last != s.received then Some(CursorError)
    else if t.sessionEnded && ((s.received.None? && s.b.after.None?) || Reached(s) < s.b.replayThrough.sequence) then
      Some(CursorError)
    else if t.sessionEnded && !AlreadyConfirmed(s) && !s.lastWasEnd then Some(ProtocolViolation)
    else None
  }

  predicate AlreadyConfirmed(s: Stream) {
    s.b.ended && s.received.None? && s.b.after == Some(s.b.replayThrough)
  }

  function SetCompletion(s: Stream, c: Completion): Stream {
    if s.completion.Active? then s.(completion := c) else s
  }

  // ----- Delivering, confirming, ending -----

  /** The undelivered events in order: the one in hand, then the queue. */
  function Undelivered(s: Stream): seq<Queued> {
    (if s.inHand.Some? then [s.inHand.value] else []) + s.queue
  }

  function Take(s: Stream): Stream
    requires s.queue != []
  {
    s.(inHand := Some(s.queue[0]), queue := s.queue[1..])
  }

  function SaturatingSub(a: nat, b: nat): nat { if a < b then 0 else a - b }

  predicate InOrder(s: Stream)
    requires s.inHand.Some?
  {
    s.inHand.value.item.cursor.sequence == At(s.delivered) + 1 <= MAX_SEQUENCE
  }

  function Deliver(s: Stream): Stream
    requires s.inHand.Some?
  {
    var q := s.inHand.value;
    var r := s.(inHand := None, queuedBytes := SaturatingSub(s.queuedBytes, q.bytes));
    if InOrder(s) then r.(delivered := Some(q.item.cursor))
    else if At(s.delivered) + 1 > MAX_SEQUENCE then r
    else r.(completion := Failed(CursorError))
  }

  /** What `next` answers once the queue is empty and closed. */
  datatype Ending = CleanEnd | RemoteTermination | EndError(error: StreamError)

  function EndOf(s: Stream): Ending {
    match s.completion
    case Active => EndError(ProtocolViolation)
    case Remote =>
      if s.terminal.None? then EndError(ProtocolViolation)
      else if s.terminal.value.sessionEnded then CleanEnd else RemoteTermination
    case Failed(e) => EndError(e)
    case CancelledLocally => EndError(Cancelled)
  }

  predicate Confirmable(s: Stream, c: Cursor) {
    && c.session == s.b.session && c.epoch == s.b.epoch
    && c.sequence == At(s.confirmed) + 1 <= MAX_SEQUENCE
    && s.delivered.Some? && c.sequence <= At(s.delivered)
  }

  // `cancel` signals the actor, waits for it for a while, drains the queue, and records the end. When both
  // waits run out the actor is still there.

  function Signal(s: Stream): Stream {
    if s.actor.Running? then s.(actor := Late) else s
  }

  function Drain(s: Stream): Stream { s.(queue := []) }

  function RecordCancel(s: Stream): Stream {
    SetCompletion(s.(queuedBytes := 0), CancelledLocally)
  }

  predicate CanResume(s: Stream) {
    !s.completion.Active? && s.queue == []
  }

  // ----- The object -----

  class EventStream {
    const b: Binding
    var completion: Completion
    var received: Option<Cursor>
    var lastWasEnd: bool
    var delivered: Option<Cursor>
    var confirmed: Option<Cursor>
    var terminal: Option<Terminal>
    var queuedBytes: nat
    var queue: seq<Queued>
    var inHand: Option<Queued>
    var actor: Actor

    ghost function View(): Stream
      reads this
    {
      Stream(b, completion, received, lastWasEnd, delivered, confirmed, terminal, queuedBytes, queue, inHand, actor)
    }

    constructor (b: Binding)
      ensures View() == Opened(b)
    {
      this.b := b;
      completion, received, lastWasEnd := Active, None, false;
      delivered, confirmed, terminal := b.after, b.after, None;
      queuedBytes, queue, inHand, actor := 0, [], None, Running;
    }

    /** Called by the actor for an event notification; an error makes the actor give up. */
    method AcceptEvent(m: Message, bytes: nat) returns (error: Option<StreamError>)
      modifies this
      ensures error == if CheckEvent(old(View()), m).Some? then CheckEvent(old(View()), m)
                       else if HasRoom(old(View()), bytes) then None else Some(QueueOverflow)
      ensures View() == if CheckEvent(old(View()), m).Some? then old(View())
                        else if HasRoom(old(View()), bytes) then Enqueue(old(View()), m, bytes)
                        else Receive(old(View()), m)
      ensures error.None? || error == Some(QueueOverflow) ==> Reached(View()) == Reached(old(View())) + 1
      ensures error.None? ==> queuedBytes <= b.maxBytes && |queue| == |old(queue)| + 1 <= b.maxEvents
    {
      if m.subscription != b.subscription {
        return Some(ProtocolViolation);
      }
      if m.cursor.session != b.session || m.cursor.epoch != b.epoch
         || m.eventSession != b.session || m.eventSequence != m.cursor.sequence {
        return Some(CursorError);
      }
      if m.minor > b.minor {
        return Some(ProtocolViolation);
      }
      var previous := if received.Some? then received else b.after;
      var expected := At(previous) + 1;
      if expected > MAX_SEQUENCE || m.cursor.sequence != expected {
        return Some(CursorError);
      }
      received := Some(m.cursor);
      lastWasEnd := m.payload.SessionEnded?;
      var nextBytes := queuedBytes + bytes;
      if nextBytes > b.maxBytes {
        return Some(QueueOverflow);
      }
      if |queue| >= b.maxEvents {
        return Some(QueueOverflow);
      }
      queue := queue + [Queued(bytes, Item(m.cursor, m.payload))];
      queuedBytes := nextBytes;
      return None;
    }

    method AcceptTerminal(t: Terminal) returns (error: Option<StreamError>)
      modifies this
      ensures error == CheckTerminal(old(View()), t)
      ensures View() == if error.Some? then old(View()) else old(View()).(terminal := Some(t), completion := Remote)
      ensures error.None? && t.sessionEnded ==> b.replayThrough.sequence <= Reached(View())
    {
      if t.subscription != b.subscription || t.session != b.session {
        return Some(ProtocolViolation);
      }
      if t.last.Some? && (t.last.value.session != b.session || t.last.value.epoch != b.epoch) {
        return Some(CursorError);
      }
      if t.last != received {
        return Some(CursorError);
      }
      if t.sessionEnded {
        var continuous := if received.Some? then received else b.after;
        if continuous.None? || continuous.value.sequence < b.replayThrough.sequence {
          return Some(CursorError);
        }
        var replayWasAlreadyConfirmed := b.ended && received.None? && b.after == Some(b.replayThrough);
        if !replayWasAlreadyConfirmed && !lastWasEnd {
          return Some(ProtocolViolation);
        }
      }
      terminal := Some(t);
      completion := Remote;
      return None;
    }

    /** The locked half of `next`, after an event was taken from the queue. */
    method DeliverInHand() returns (item: Option<Item>)
      requires inHand.Some?
      modifies this
      ensures View() == Deliver(old(View()))
      ensures item == if InOrder(old(View())) then Some(old(inHand).value.item) else None
      ensures item.Some? ==> At(delivered) == At(old(delivered)) + 1
      ensures item.None? ==> delivered == old(delivered)
    {
      var q := inHand.value;
      inHand := None;
      queuedBytes := SaturatingSub(queuedBytes, q.bytes);
      var expected := At(delivered) + 1;
      if expected > MAX_SEQUENCE {
        return None;
      }
      if q.item.cursor.sequence != expected {
        completion := Failed(CursorError);
        return None;
      }
      delivered := Some(q.item.cursor);
      return Some(q.item);
    }

    method Confirm(c: Cursor) returns (ok: bool)
      modifies this`confirmed
      ensures ok == Confirmable(old(View()), c)
      ensures View() == if ok then old(View()).(confirmed := Some(c)) else old(View())
      ensures ok ==> At(old(confirmed)) + 1 == At(confirmed) <= At(delivered)
    {
      if c.session != b.session || c.epoch != b.epoch {
        return false;
      }
      var expected := At(confirmed) + 1;
      if expected > MAX_SEQUENCE || c.sequence != expected {
        return false;
      }
      if delivered.None? || c.sequence > delivered.value.sequence {
        return false;
      }
      confirmed := Some(c);
      return true;
    }

    method SignalCancel()
      modifies this`actor
      ensures View() == Signal(old(View()))
      ensures !actor.Running?
    {
      if actor.Running? {
        actor := Late;
      }
    }

    /** Drops what is queued; the byte count is left alone. */
    method DrainQueue()
      modifies this`queue
      ensures View() == Drain(old(View()))
    {
      while queue != []
        decreases |queue|
      {
        queue := queue[1..];
      }
    }

    method FinishCancel()
      modifies this`queuedBytes, this`completion
      ensures View() == RecordCancel(old(View()))
      ensures !completion.Active? && confirmed == old(confirmed)
    {
      queuedBytes := 0;
      if completion.Active? {
        completion := CancelledLocally;
      }
    }
  }
}
