/**
 A client that follows one session log over any number of streams.

 The server appends to its log and, on a stream opened after some cursor, sends events of the log in
 whatever order it likes; all that is assumed of it is that an event it sends is the log's event with
 that sequence, and that it refuses a cursor of another epoch. Without a cursor a stream may be opened on
 a new epoch. The socket actor and the application share the stream and interleave; the application resumes
 from its confirmed cursor when a stream is over, as often as it likes. A cancel may return while the actor
 is still working on one last message.
 */
module Resumption {
  import opened Bytes
  import opened EventStream

  /** How far a call of `cancel` has come. */
  datatype CancelPhase = NoCancel | Signalled | Drained

  datatype World = World(
    log: seq<Payload>,
    session: nat,
    epoch: nat,
    stream: Stream,
    cancelling: CancelPhase,
    items: seq<Payload>,         // what this stream has delivered
    confirmedLog: seq<Payload>,  // every event ever confirmed, over all streams, in order; before the first
                                 // stream, those up to the cursor it is opened after
    dropped: nat,                // received events this stream discarded
    overflowed: bool,            // an event was received and found no room
    counted: bool,               // no drain has disturbed the byte count
    outlived: bool)              // a drain on this stream came before its actor had stopped

  datatype Event =
    | Append(p: Payload)
    // the socket actor
    | Accept(m: Message, bytes: nat)
    | Overflow(m: Message, bytes: nat)
    | Refuse(error: StreamError)
    | Notice
    | Finish(t: Terminal)
    | Record
    | Abort
    // the application
    | TakeNext
    | DeliverNext
    | ConfirmNext(c: Cursor)
    | CancelSignal
    | CancelDrain
    | CancelRecord
    | Resume(b: Binding)

  predicate ByActor(e: Event) {
    e.Accept? || e.Overflow? || e.Refuse? || e.Notice? || e.Finish? || e.Record? || e.Abort?
  }

  predicate ByReader(e: Event) {
    e.TakeNext? || e.DeliverNext?
  }

  predicate BindingOk(w: World, b: Binding) {
    && b.session == w.session && b.epoch == w.epoch
    && b.replayThrough.session == b.session && b.replayThrough.epoch == b.epoch
    && At(b.after) <= b.replayThrough.sequence
  }

  predicate CursorOk(w: World, c: Option<Cursor>) {
    c.Some? ==> c.value.session == w.session && c.value.epoch == w.epoch && 1 <= c.value.sequence <= MAX_SEQUENCE
  }

  predicate JustOpened(w: World) {
    && w.stream == Opened(w.stream.b) && w.cancelling.NoCancel?
    && w.items == [] && w.dropped == 0 && !w.overflowed && w.counted && !w.outlived
  }

  /** The first stream is opened from the beginning or after a cursor saved earlier. */
  predicate Start(w: World) {
    var after := w.stream.b.after;
    && JustOpened(w) && BindingOk(w, w.stream.b)
    && CursorOk(w, after) && At(after) <= |w.log| && w.confirmedLog == w.log[..At(after)]
  }

  /** The server sends what its log holds. */
  predicate Truthful(w: World, m: Message) {
    1 <= m.cursor.sequence <= |w.log| && m.payload == w.log[m.cursor.sequence - 1]
  }

  predicate Receives(s: Stream) { s.actor.Running? || s.actor.Late? }

  predicate ActorCan(w: World, e: Event)
    requires ByActor(e)
  {
    var s := w.stream;
    match e
    case Accept(m, bytes) => Receives(s) && CheckEvent(s, m).None? && HasRoom(s, bytes) && Truthful(w, m)
    case Overflow(m, bytes) => Receives(s) && CheckEvent(s, m).None? && !HasRoom(s, bytes) && Truthful(w, m)
    case Refuse(_) => Receives(s)
    case Notice => s.actor.Late?
    case Finish(t) => Receives(s) && CheckTerminal(s, t).None?
    case Record => s.actor.Closing?
    case Abort => s.actor.Late?
  }

  /** The application does one thing at a time: it is inside `cancel`, inside `next`, or free. */
  predicate Free(w: World) { w.cancelling.NoCancel? && w.stream.inHand.None? }

  predicate Possible(w: World, e: Event) {
    var s := w.stream;
    if ByActor(e) then ActorCan(w, e)
    else
      match e
      case Append(_) => true
      case TakeNext => Free(w) && s.queue != []
      case DeliverNext => s.inHand.Some?
      case ConfirmNext(c) => Free(w) && Confirmable(s, c)
      case CancelSignal => Free(w)
      case CancelDrain => w.cancelling.Signalled?
      case CancelRecord => w.cancelling.Drained?
      case Resume(b) =>
        && Free(w) && CanResume(s) && b.after == s.confirmed && BindingOk(w.(epoch := b.epoch), b)
        && (b.after.Some? ==> b.epoch == w.epoch)
  }

  /** The delivered event behind the confirmed cursor. */
  function NextConfirmed(w: World): seq<Payload> {
    var i := At(w.stream.confirmed) - At(w.stream.b.after);
    if 0 <= i < |w.items| then [w.items[i]] else []
  }

  /** What the actor does; its message after the signal is its last. */
  function NextOfActor(w: World, e: Event): World
    requires ByActor(e) && ActorCan(w, e)
  {
    var s := w.stream;
    match e
    case Accept(m, bytes) =>
      w.(stream := Enqueue(s, m, bytes).(actor := if s.actor.Late? then Closing(CancelledLocally) else s.actor))
    case Overflow(m, bytes) =>
      w.(stream := Receive(s, m).(actor := Closing(Failed(QueueOverflow))), overflowed := true)
    case Refuse(error) => w.(stream := s.(actor := Closing(Failed(error))))
    case Notice => w.(stream := s.(actor := Closing(CancelledLocally)))
    case Finish(t) => w.(stream := s.(terminal := Some(t), completion := Remote, actor := Gone))
    case Record => w.(stream := SetCompletion(s.(actor := Gone), s.actor.completion))
    case Abort => w.(stream := s.(actor := Gone))
  }

  function NextDelivery(w: World): World
    requires w.stream.inHand.Some?
  {
    var s := w.stream;
    if InOrder(s) then w.(stream := Deliver(s), items := w.items + [s.inHand.value.item.payload])
    else w.(stream := Deliver(s), dropped := w.dropped + 1)
  }

  function Next(w: World, e: Event): World
    requires Possible(w, e)
  {
    var s := w.stream;
    if ByActor(e) then NextOfActor(w, e)
    else
      match e
      case Append(p) => w.(log := w.log + [p])
      case TakeNext => w.(stream := Take(s))
      case DeliverNext => NextDelivery(w)
      case ConfirmNext(c) =>
        w.(stream := s.(confirmed := Some(c)), confirmedLog := w.confirmedLog + NextConfirmed(w))
      case CancelSignal => w.(stream := Signal(s), cancelling := Signalled)
      case CancelDrain =>
        w.(stream := Drain(s), cancelling := Drained, dropped := w.dropped + |s.queue|,
           counted := w.counted && s.queue == [], outlived := w.outlived || !s.actor.Gone?)
      case CancelRecord => w.(stream := RecordCancel(s), cancelling := NoCancel, counted := s.queue == [])
      case Resume(b) =>
        w.(epoch := b.epoch, stream := Opened(b), items := [], dropped := 0, overflowed := false,
           counted := true, outlived := false)
  }

  ghost predicate Run(trace: seq<World>, events: seq<Event>) {
    && |trace| == |events| + 1 && Start(trace[0])
    && forall i :: 0 <= i < |events| ==> Possible(trace[i], events[i]) && trace[i + 1] == Next(trace[i], events[i])
  }

  // ----- Invariants -----

  function SumBytes(queue: seq<Queued>): nat {
    if queue == [] then 0 else queue[0].bytes + SumBytes(queue[1..])
  }

  function HandCount(s: Stream): nat { if s.inHand.Some? then 1 else 0 }

  function HandBytes(s: Stream): nat { if s.inHand.Some? then s.inHand.value.bytes else 0 }

  predicate ItemOk(w: World, q: Queued, sequence: nat) {
    && q.item.cursor == Cursor(w.session, w.epoch, sequence)
    && 1 <= sequence <= |w.log| && q.item.payload == w.log[sequence - 1]
  }

  /** The undelivered events are the log's events, one after the other, behind what was delivered or discarded. */
  ghost predicate HandOk(w: World) {
    w.stream.inHand.Some? ==> ItemOk(w, w.stream.inHand.value, At(w.stream.delivered) + w.dropped + 1)
  }

  ghost predicate QueueAt(w: World, i: nat) {
    i < |w.stream.queue| ==>
      ItemOk(w, w.stream.queue[i], At(w.stream.delivered) + w.dropped + HandCount(w.stream) + 1 + i)
  }

  ghost predicate QueueOk(w: World) {
    HandOk(w) && forall i :: QueueAt(w, i)
  }

  /** Both limits hold, and byte accounting is exact until a drain disturbs it. */
  ghost predicate RoomOk(w: World) {
    var s := w.stream;
    && s.queuedBytes <= s.b.maxBytes && |s.queue| <= s.b.maxEvents
    && (w.counted ==> s.queuedBytes == SumBytes(s.queue) + HandBytes(s))
  }

  /** Every cursor belongs to this session and epoch. */
  ghost predicate ValidCursors(w: World) {
    var s := w.stream;
    && BindingOk(w, s.b)
    && CursorOk(w, s.b.after) && CursorOk(w, s.received) && CursorOk(w, s.delivered) && CursorOk(w, s.confirmed)
  }

  function One(b: bool): nat { if b then 1 else 0 }

  /** The cursors are ordered; what was received is delivered, undelivered, discarded, or found no room. */
  ghost predicate OrderOk(w: World) {
    var s := w.stream;
    && At(s.b.after) <= At(s.confirmed) <= At(s.delivered)
    && Reached(s) == At(s.delivered) + HandCount(s) + |s.queue| + w.dropped + One(w.overflowed)
    && (s.received.Some? ==> At(s.b.after) < Reached(s))
    && Reached(s) <= |w.log| && Reached(s) <= MAX_SEQUENCE
  }

  ghost predicate CursorsOk(w: World) {
    ValidCursors(w) && OrderOk(w)
  }

  /** Who can still act on the stream. */
  ghost predicate ActorOk(w: World) {
    var s := w.stream;
    && (s.actor.Running? ==> s.completion.Active? && w.cancelling.NoCancel? && !w.outlived)
    && (s.actor.Closing? ==> s.actor.completion.Failed? || s.actor.completion.CancelledLocally?)
    && (Receives(s) ==> !w.overflowed)
    && (s.completion.Active? && (s.actor.Late? || s.actor.Gone?) ==> !w.cancelling.NoCancel?)
    && (s.completion.Active? && !w.cancelling.Drained? ==> w.dropped == 0 && w.counted && !w.outlived)
    && (s.inHand.Some? ==> w.cancelling.NoCancel?)
  }

  /** As long as every drain found its actor stopped, nothing arrives behind one. */
  ghost predicate StoppedOk(w: World) {
    var s := w.stream;
    !w.outlived ==>
      && (!s.completion.Active? || w.cancelling.Drained? ==> s.actor.Gone?)
      && (w.dropped > 0 || w.cancelling.Drained? ==> s.queue == [] && s.inHand.None?)
      && (!w.cancelling.Drained? ==> w.counted)
  }

  /** How the stream ends. */
  ghost predicate EndOk(w: World) {
    var s := w.stream;
    && (s.completion.Remote? <==> s.terminal.Some?)
    && (s.completion.Remote? ==> s.actor.Gone? && !w.overflowed)
    && ((s.actor.Late? || s.terminal.Some?) && w.dropped > 0 ==> s.queue == [] && s.inHand.None?)
    && (s.lastWasEnd <==> s.received.Some? && 1 <= Reached(s) <= |w.log| && w.log[Reached(s) - 1].SessionEnded?)
    && (s.completion.Remote? && s.terminal.value.sessionEnded ==>
          s.b.replayThrough.sequence <= Reached(s) && (AlreadyConfirmed(s) || s.lastWasEnd))
  }

  /** Everything delivered and confirmed is the log's own prefix. */
  ghost predicate LogOk(w: World) {
    var s := w.stream;
    && At(s.b.after) <= At(s.confirmed) <= At(s.delivered) <= |w.log|
    && w.items == w.log[At(s.b.after)..At(s.delivered)]
    && w.confirmedLog == w.log[..At(s.confirmed)]
  }

  ghost predicate Inv(w: World) {
    CursorsOk(w) && QueueOk(w) && RoomOk(w) && ActorOk(w) && StoppedOk(w) && EndOk(w) && LogOk(w)
  }

  lemma {:induction false} SumAppend(queue: seq<Queued>, q: Queued)
    ensures SumBytes(queue + [q]) == SumBytes(queue) + q.bytes
  {
    if queue != [] {
      assert (queue + [q])[1..] == queue[1..] + [q];
      SumAppend(queue[1..], q);
    }
  }

  /** The event in hand is the next one exactly when nothing was discarded. */
  lemma InOrderMeans(w: World)
    requires HandOk(w) && OrderOk(w) && w.stream.inHand.Some?
    ensures InOrder(w.stream) <==> w.dropped == 0
  {
  }

  lemma ActorKeepsRoom(w: World, e: Event)
    requires Possible(w, e) && ByActor(e)
    requires RoomOk(w) && (w.stream.inHand.Some? ==> w.cancelling.NoCancel?)
    ensures RoomOk(Next(w, e))
  {
    hide CheckEvent, CheckTerminal, Truthful, Confirmable;
    if e.Accept? {
      SumAppend(w.stream.queue, Queued(e.bytes, Item(e.m.cursor, e.m.payload)));
    }
  }

  lemma ReaderKeepsRoom(w: World, e: Event)
    requires Possible(w, e) && ByReader(e)
    requires RoomOk(w) && (w.stream.inHand.Some? ==> w.cancelling.NoCancel?)
    ensures RoomOk(Next(w, e))
  {
    hide CheckEvent, CheckTerminal, Truthful, Confirmable, BindingOk, InOrder;
    match e
    case TakeNext =>
    case DeliverNext =>
  }

  lemma RestKeepsRoom(w: World, e: Event)
    requires Possible(w, e) && !ByActor(e) && !ByReader(e)
    requires RoomOk(w) && (w.stream.inHand.Some? ==> w.cancelling.NoCancel?)
    ensures RoomOk(Next(w, e))
  {
    hide CheckEvent, CheckTerminal, Truthful, Confirmable, BindingOk, NextConfirmed;
  }

  lemma ActorKeepsQueue(w: World, e: Event, i: nat)
    requires Possible(w, e) && ByActor(e)
    requires HandOk(w) && QueueAt(w, i) && QueueAt(w, i + 1) && CursorsOk(w) && ActorOk(w)
    ensures QueueAt(Next(w, e), i)
  {
    hide CheckTerminal, HasRoom, Confirmable;
  }

  lemma ReaderKeepsQueue(w: World, e: Event, i: nat)
    requires Possible(w, e) && ByReader(e)
    requires HandOk(w) && QueueAt(w, i) && QueueAt(w, i + 1) && CursorsOk(w) && ActorOk(w)
    ensures QueueAt(Next(w, e), i)
  {
    hide CheckEvent, CheckTerminal, HasRoom, Truthful, Confirmable, BindingOk, InOrder;
    match e
    case TakeNext =>
    case DeliverNext => InOrderMeans(w);
  }

  lemma RestKeepsQueue(w: World, e: Event, i: nat)
    requires Possible(w, e) && !ByActor(e) && !ByReader(e)
    requires HandOk(w) && QueueAt(w, i) && QueueAt(w, i + 1) && CursorsOk(w) && ActorOk(w)
    ensures QueueAt(Next(w, e), i)
  {
    hide CheckEvent, CheckTerminal, HasRoom, Truthful;
  }

  lemma ActorKeepsHand(w: World, e: Event)
    requires Possible(w, e) && ByActor(e)
    requires HandOk(w) && QueueAt(w, 0) && ActorOk(w)
    ensures HandOk(Next(w, e))
  {
    hide CheckEvent, CheckTerminal, HasRoom, Truthful;
  }

  lemma ReaderKeepsHand(w: World, e: Event)
    requires Possible(w, e) && ByReader(e)
    requires HandOk(w) && QueueAt(w, 0) && ActorOk(w)
    ensures HandOk(Next(w, e))
  {
    hide CheckEvent, CheckTerminal, HasRoom, Truthful, Confirmable, BindingOk, InOrder;
  }

  lemma RestKeepsHand(w: World, e: Event)
    requires Possible(w, e) && !ByActor(e) && !ByReader(e)
    requires HandOk(w) && QueueAt(w, 0) && ActorOk(w)
    ensures HandOk(Next(w, e))
  {
    hide CheckEvent, CheckTerminal, HasRoom, Truthful, Confirmable, BindingOk;
  }

  lemma ActorKeepsValidity(w: World, e: Event)
    requires Possible(w, e) && ByActor(e)
    requires ValidCursors(w) && OrderOk(w) && HandOk(w)
    ensures ValidCursors(Next(w, e))
  {
    hide CheckTerminal, HasRoom, Confirmable;
  }

  lemma ReaderKeepsValidity(w: World, e: Event)
    requires Possible(w, e) && ByReader(e)
    requires ValidCursors(w) && OrderOk(w) && HandOk(w)
    ensures ValidCursors(Next(w, e))
  {
    hide CheckEvent, CheckTerminal, HasRoom, Truthful, Confirmable, InOrder;
    match e
    case TakeNext =>
    case DeliverNext => InOrderMeans(w);
  }

  lemma RestKeepsValidity(w: World, e: Event)
    requires Possible(w, e) && !ByActor(e) && !ByReader(e)
    requires ValidCursors(w) && OrderOk(w) && HandOk(w)
    ensures ValidCursors(Next(w, e))
  {
    hide CheckEvent, CheckTerminal, HasRoom, Truthful;
  }

  lemma ActorKeepsOrder(w: World, e: Event)
    requires Possible(w, e) && ByActor(e)
    requires ValidCursors(w) && OrderOk(w) && HandOk(w) && ActorOk(w)
    ensures OrderOk(Next(w, e))
  {
    hide CheckTerminal, HasRoom, Confirmable;
  }

  lemma ReaderKeepsOrder(w: World, e: Event)
    requires Possible(w, e) && ByReader(e)
    requires ValidCursors(w) && OrderOk(w) && HandOk(w) && ActorOk(w)
    ensures OrderOk(Next(w, e))
  {
    hide CheckEvent, CheckTerminal, HasRoom, Truthful, Confirmable, BindingOk, InOrder;
    match e
    case TakeNext =>
    case DeliverNext => InOrderMeans(w);
  }

  lemma RestKeepsOrder(w: World, e: Event)
    requires Possible(w, e) && !ByActor(e) && !ByReader(e)
    requires ValidCursors(w) && OrderOk(w) && HandOk(w) && ActorOk(w)
    ensures OrderOk(Next(w, e))
  {
    hide CheckEvent, CheckTerminal, HasRoom, Truthful;
  }

  lemma ActorKeepsActor(w: World, e: Event)
    requires Possible(w, e) && ByActor(e)
    requires CursorsOk(w) && ActorOk(w) && StoppedOk(w) && EndOk(w) && HandOk(w)
    ensures ActorOk(Next(w, e)) && StoppedOk(Next(w, e))
  {
    hide CheckTerminal, HasRoom, Confirmable;
  }

  lemma ReaderKeepsActor(w: World, e: Event)
    requires Possible(w, e) && ByReader(e)
    requires CursorsOk(w) && ActorOk(w) && StoppedOk(w) && EndOk(w) && HandOk(w)
    ensures ActorOk(Next(w, e)) && StoppedOk(Next(w, e))
  {
    hide CheckEvent, CheckTerminal, HasRoom, Truthful, Confirmable, BindingOk, InOrder;
    match e
    case TakeNext =>
    case DeliverNext => InOrderMeans(w);
  }

  lemma RestKeepsActor(w: World, e: Event)
    requires Possible(w, e) && !ByActor(e) && !ByReader(e)
    requires CursorsOk(w) && ActorOk(w) && StoppedOk(w) && EndOk(w) && HandOk(w)
    ensures ActorOk(Next(w, e)) && StoppedOk(Next(w, e))
  {
    hide CheckEvent, CheckTerminal, HasRoom, Truthful;
  }

  lemma ActorKeepsEnd(w: World, e: Event)
    requires Possible(w, e) && ByActor(e)
    requires CursorsOk(w) && ActorOk(w) && EndOk(w) && HandOk(w)
    ensures EndOk(Next(w, e))
  {
    hide HasRoom, Confirmable;
  }

  lemma ReaderKeepsEnd(w: World, e: Event)
    requires Possible(w, e) && ByReader(e)
    requires CursorsOk(w) && ActorOk(w) && EndOk(w) && HandOk(w)
    ensures EndOk(Next(w, e))
  {
    hide CheckEvent, CheckTerminal, HasRoom, Truthful, Confirmable, BindingOk, InOrder;
    match e
    case TakeNext =>
    case DeliverNext => InOrderMeans(w);
  }

  lemma RestKeepsEnd(w: World, e: Event)
    requires Possible(w, e) && !ByActor(e) && !ByReader(e)
    requires CursorsOk(w) && ActorOk(w) && EndOk(w) && HandOk(w)
    ensures EndOk(Next(w, e))
  {
    hide CheckEvent, CheckTerminal, HasRoom, Truthful;
  }

  lemma ActorKeepsLog(w: World, e: Event)
    requires Possible(w, e) && ByActor(e)
    requires CursorsOk(w) && LogOk(w) && HandOk(w)
    ensures LogOk(Next(w, e))
  {
    hide CheckTerminal, HasRoom, Confirmable;
  }

  lemma ReaderKeepsLog(w: World, e: Event)
    requires Possible(w, e) && ByReader(e)
    requires CursorsOk(w) && LogOk(w) && HandOk(w)
    ensures LogOk(Next(w, e))
  {
    hide CheckEvent, CheckTerminal, HasRoom, Truthful, Confirmable, BindingOk, InOrder;
    match e
    case TakeNext =>
    case DeliverNext =>
      InOrderMeans(w);
      var after, n := At(w.stream.b.after), At(w.stream.delivered);
      assert n < |w.log| ==> w.log[after..n] + [w.log[n]] == w.log[after..n + 1];
  }

  lemma RestKeepsLog(w: World, e: Event)
    requires Possible(w, e) && !ByActor(e) && !ByReader(e)
    requires CursorsOk(w) && LogOk(w) && HandOk(w)
    ensures LogOk(Next(w, e))
  {
    hide CheckEvent, CheckTerminal, HasRoom, Truthful;
  }

  lemma StepInv(w: World, e: Event)
    requires Possible(w, e) && Inv(w)
    ensures Inv(Next(w, e))
  {
    hide Next, Possible;
    var t := Next(w, e);
    if ByActor(e) {
      forall i: nat ensures QueueAt(t, i) { ActorKeepsQueue(w, e, i); }
      ActorKeepsRoom(w, e);
      ActorKeepsHand(w, e);
      ActorKeepsValidity(w, e);
      ActorKeepsOrder(w, e);
      ActorKeepsActor(w, e);
      ActorKeepsEnd(w, e);
      ActorKeepsLog(w, e);
    } else if ByReader(e) {
      forall i: nat ensures QueueAt(t, i) { ReaderKeepsQueue(w, e, i); }
      ReaderKeepsRoom(w, e);
      ReaderKeepsHand(w, e);
      ReaderKeepsValidity(w, e);
      ReaderKeepsOrder(w, e);
      ReaderKeepsActor(w, e);
      ReaderKeepsEnd(w, e);
      ReaderKeepsLog(w, e);
    } else {
      forall i: nat ensures QueueAt(t, i) { RestKeepsQueue(w, e, i); }
      RestKeepsRoom(w, e);
      RestKeepsHand(w, e);
      RestKeepsValidity(w, e);
      RestKeepsOrder(w, e);
      RestKeepsActor(w, e);
      RestKeepsEnd(w, e);
      RestKeepsLog(w, e);
    }
  }

  // ----- Whole runs -----

  /** The caller can see from the public cursors that nothing received is undelivered. */
  predicate LooksCaughtUp(received: Option<Cursor>, delivered: Option<Cursor>) {
    received.None? || received == delivered
  }

  predicate CaughtUp(s: Stream) { LooksCaughtUp(s.received, s.delivered) }

  lemma CaughtUpMeans(w: World)
    requires CursorsOk(w)
    ensures CaughtUp(w.stream) <==> Reached(w.stream) == At(w.stream.delivered)
  {
  }

  /** What one step does to the history, so that runs can be followed without unfolding `Next`. */
  ghost predicate Moves(w: World, e: Event, t: World) {
    && w.log <= t.log && w.confirmedLog <= t.confirmedLog
    && (e.Resume? ==>
          t.stream.b.after == w.stream.confirmed && t.dropped == 0 && !t.overflowed && !t.outlived)
    && (!e.Resume? ==>
          && t.stream.b == w.stream.b && EndMoves(w, t)
          && (w.overflowed ==> t.overflowed)
          && (t.outlived <==> w.outlived || (e.CancelDrain? && !w.stream.actor.Gone?))
          && (t.dropped == 0 <==> w.dropped == 0 && (e.CancelDrain? ==> w.stream.queue == []))
          && (e.CancelDrain? && !w.overflowed ==> (t.dropped == 0 <==> w.dropped == 0 && CaughtUp(w.stream))))
  }

  /** A stream that is over stays over; if every drain found its actor stopped, also in the same way. */
  ghost predicate EndMoves(w: World, t: World) {
    !w.stream.completion.Active? ==>
      && !t.stream.completion.Active?
      && (!w.outlived ==> t.stream.completion == w.stream.completion)
  }

  lemma StepEndMoves(w: World, e: Event)
    requires Possible(w, e) && Inv(w) && !e.Resume?
    ensures EndMoves(w, Next(w, e))
  {
    hide CheckEvent, CheckTerminal, HasRoom, Truthful, Confirmable, BindingOk, InOrder, LogOk;
    if e.DeliverNext? {
      InOrderMeans(w);
    }
  }

  lemma StepMoves(w: World, e: Event)
    requires Possible(w, e) && Inv(w)
    ensures Moves(w, e, Next(w, e))
  {
    hide CheckEvent, CheckTerminal, HasRoom, Truthful, Confirmable, BindingOk, InOrder, LogOk, CaughtUp, EndMoves;
    CaughtUpMeans(w);
    if e.DeliverNext? {
      InOrderMeans(w);
    }
    if !e.Resume? {
      StepEndMoves(w, e);
    }
  }

  /** A stream whose terminal has arrived receives nothing more, and its delivered cursor only advances. */
  ghost predicate Settled(w: World, t: World) {
    w.stream.terminal.Some? ==>
      && t.stream.terminal == w.stream.terminal && t.stream.received == w.stream.received
      && At(w.stream.delivered) <= At(t.stream.delivered)
  }

  lemma StepSettled(w: World, e: Event)
    requires Possible(w, e) && Inv(w) && !e.Resume?
    ensures Settled(w, Next(w, e))
  {
  }

  lemma {:induction false} RunInv(trace: seq<World>, events: seq<Event>, i: nat)
    requires Run(trace, events) && i < |trace|
    ensures Inv(trace[i])
  {
    if i > 0 {
      RunInv(trace, events, i - 1);
      StepInv(trace[i - 1], events[i - 1]);
    }
  }

  ghost predicate Followed(trace: seq<World>, events: seq<Event>) {
    && |trace| == |events| + 1 && trace[0].dropped == 0 && !trace[0].outlived
    && forall i :: 0 <= i < |events| ==> Moves(trace[i], events[i], trace[i + 1])
  }

  lemma RunFollowed(trace: seq<World>, events: seq<Event>)
    requires Run(trace, events)
    ensures Followed(trace, events)
  {
    forall i | 0 <= i < |events| ensures Moves(trace[i], events[i], trace[i + 1]) {
      RunInv(trace, events, i);
      StepMoves(trace[i], events[i]);
    }
  }

  lemma {:induction false} Grows(trace: seq<World>, events: seq<Event>, i: nat, j: nat)
    requires Followed(trace, events) && i <= j < |trace|
    ensures trace[i].log <= trace[j].log && trace[i].confirmedLog <= trace[j].confirmedLog
    decreases j
  {
    if i < j {
      Grows(trace, events, i, j - 1);
      assert Moves(trace[j - 1], events[j - 1], trace[j]);
    }
  }

  /**
   However often streams fail and are resumed, the events confirmed so far are, in order and without gap
   or repeat, the first events of the server's log; the resumable cursor counts them; and nothing confirmed
   is ever taken back.
   */
  lemma ConfirmedIsPrefix(trace: seq<World>, events: seq<Event>, i: nat, j: nat)
    requires Run(trace, events) && i <= j < |trace|
    ensures trace[i].confirmedLog <= trace[j].confirmedLog <= trace[j].log
    ensures |trace[j].confirmedLog| == At(trace[j].stream.confirmed)
  {
    RunInv(trace, events, j);
    RunFollowed(trace, events);
    Grows(trace, events, i, j);
  }

  ghost predicate NoResume(events: seq<Event>, i: nat, j: nat) {
    forall k :: i <= k < j && k < |events| ==> !events[k].Resume?
  }

  ghost predicate OpenedAt(events: seq<Event>, i: nat) {
    i == 0 || (i <= |events| && events[i - 1].Resume?)
  }

  lemma {:induction false} SameStream(trace: seq<World>, events: seq<Event>, i: nat, j: nat)
    requires Followed(trace, events) && i <= j < |trace| && NoResume(events, i, j)
    ensures trace[j].stream.b == trace[i].stream.b
    ensures !trace[i].stream.completion.Active? ==> !trace[j].stream.completion.Active?
    decreases j
  {
    if i < j {
      SameStream(trace, events, i, j - 1);
      assert Moves(trace[j - 1], events[j - 1], trace[j]);
    }
  }

  lemma PrefixThenSlice<T>(confirmed: seq<T>, log: seq<T>, n: nat, m: nat)
    requires n <= m <= |log| && |confirmed| == n && confirmed <= log
    ensures confirmed + log[n..m] == log[..m]
  {
  }

  /**
   A resumed stream delivers the log again from the first event that was not confirmed: whatever it has
   delivered follows the confirmed events directly, so an unconfirmed event is never passed over.
   */
  lemma UnconfirmedOfferedAgain(trace: seq<World>, events: seq<Event>, i: nat, j: nat)
    requires Run(trace, events) && i < j < |trace| && events[i].Resume? && NoResume(events, i + 1, j)
    ensures trace[i].confirmedLog + trace[j].items <= trace[j].log
    ensures |trace[i].confirmedLog + trace[j].items| == At(trace[j].stream.delivered)
  {
    RunInv(trace, events, j);
    RunFollowed(trace, events);
    ConfirmedIsPrefix(trace, events, i, i);
    ConfirmedIsPrefix(trace, events, i, j);
    SameStream(trace, events, i + 1, j);
    assert Moves(trace[i], events[i], trace[i + 1]);
    PrefixThenSlice(trace[i].confirmedLog, trace[j].log, At(trace[i].stream.confirmed), At(trace[j].stream.delivered));
  }

  // ----- Completion -----

  /** Completion leaves `Active` at most once in a stream's life. */
  lemma LeavesActiveOnce(trace: seq<World>, events: seq<Event>, i: nat, j: nat)
    requires Run(trace, events) && i <= j < |trace| && NoResume(events, i, j)
    requires !trace[i].stream.completion.Active?
    ensures !trace[j].stream.completion.Active?
  {
    RunFollowed(trace, events);
    SameStream(trace, events, i, j);
  }

  /** Every drain on this stream came after its actor had stopped. */
  ghost predicate AllStopped(trace: seq<World>, events: seq<Event>, i: nat, j: nat)
    requires |trace| == |events| + 1 && j < |trace|
  {
    forall k :: i <= k < j && events[k].CancelDrain? ==> trace[k].stream.actor.Gone?
  }

  lemma {:induction false} OutlivedMeans(trace: seq<World>, events: seq<Event>, i: nat, j: nat)
    requires Followed(trace, events) && i <= j < |trace| && OpenedAt(events, i) && NoResume(events, i, j)
    ensures trace[j].outlived <==> !AllStopped(trace, events, i, j)
    decreases j
  {
    if i < j {
      OutlivedMeans(trace, events, i, j - 1);
      assert Moves(trace[j - 1], events[j - 1], trace[j]);
    } else if i > 0 {
      assert Moves(trace[i - 1], events[i - 1], trace[i]);
    }
  }

  lemma {:induction false} SameEnd(trace: seq<World>, events: seq<Event>, a: nat, b: nat)
    requires Followed(trace, events) && a <= b < |trace| && NoResume(events, a, b) && !trace[b].outlived
    requires !trace[a].stream.completion.Active?
    ensures trace[b].stream.completion == trace[a].stream.completion
    decreases b
  {
    if a < b {
      assert Moves(trace[b - 1], events[b - 1], trace[b]);
      SameEnd(trace, events, a, b - 1);
    }
  }

  /** Once it has left `Active` it never changes, as long as every drain found its actor stopped. */
  lemma CompletionIsFinal(trace: seq<World>, events: seq<Event>, i: nat, a: nat, b: nat)
    requires Run(trace, events) && i <= a <= b < |trace| && OpenedAt(events, i) && NoResume(events, i, b)
    requires AllStopped(trace, events, i, b) && !trace[a].stream.completion.Active?
    ensures trace[b].stream.completion == trace[a].stream.completion
  {
    RunFollowed(trace, events);
    OutlivedMeans(trace, events, i, b);
    SameEnd(trace, events, a, b);
  }

  /**
   The exact steps that overwrite an end: a terminal from an actor that a cancel did not wait for, and `next`
   finding the event of such an actor out of order.
   */
  lemma CompletionChangesOnlyLate(trace: seq<World>, events: seq<Event>, i: nat)
    requires Run(trace, events) && i < |events| && !events[i].Resume? && !trace[i].stream.completion.Active?
    ensures trace[i + 1].stream.completion != trace[i].stream.completion <==>
      || events[i].Finish?
      || (events[i].DeliverNext? && !InOrder(trace[i].stream) && trace[i].stream.completion != Failed(CursorError))
    ensures trace[i + 1].stream.completion != trace[i].stream.completion ==> trace[i].outlived
  {
    hide CheckEvent, CheckTerminal, HasRoom, Truthful, Confirmable, BindingOk, LogOk;
    RunInv(trace, events, i);
    if events[i].DeliverNext? {
      InOrderMeans(trace[i]);
    }
  }

  lemma SumUndelivered(s: Stream)
    ensures SumBytes(Undelivered(s)) == SumBytes(s.queue) + (if s.inHand.Some? then s.inHand.value.bytes else 0)
  {
    if s.inHand.Some? {
      assert Undelivered(s)[1..] == s.queue;
    } else {
      assert Undelivered(s) == s.queue;
    }
  }

  /**
   While a stream is active and not being drained, the undelivered events carry exactly the sequences from
   delivered + 1 on, up to received, or to one short of it when the last event found no room and the actor is
   about to fail; the byte count is their sum and within the limit.
   */
  lemma ActiveQueueShape(trace: seq<World>, events: seq<Event>, i: nat, k: nat)
    requires Run(trace, events) && i < |trace| && trace[i].stream.completion.Active? && !trace[i].cancelling.Drained?
    ensures var w := trace[i]; var s := w.stream; var u := Undelivered(s);
      && At(s.confirmed) <= At(s.delivered) <= Reached(s) <= |w.log|
      && (k < |u| ==> ItemOk(w, u[k], At(s.delivered) + 1 + k))
      && (Receives(s) ==> At(s.delivered) + |u| == Reached(s))
      && At(s.delivered) + |u| <= Reached(s) <= At(s.delivered) + |u| + 1
      && SumBytes(u) == s.queuedBytes <= s.b.maxBytes && |s.queue| <= s.b.maxEvents
  {
    RunInv(trace, events, i);
    SumUndelivered(trace[i].stream);
    if trace[i].stream.inHand.None? {
      assert QueueAt(trace[i], k);
    } else if k > 0 {
      assert QueueAt(trace[i], k - 1);
    }
  }

  /** No drain on this stream has discarded anything. */
  ghost predicate NothingDiscarded(trace: seq<World>, events: seq<Event>, i: nat, j: nat)
    requires |trace| == |events| + 1 && j < |trace|
  {
    forall k :: i <= k < j && events[k].CancelDrain? ==> trace[k].stream.queue == []
  }

  lemma {:induction false} DroppedMeans(trace: seq<World>, events: seq<Event>, i: nat, j: nat)
    requires Followed(trace, events) && i <= j < |trace| && OpenedAt(events, i) && NoResume(events, i, j)
    ensures trace[j].dropped == 0 <==> NothingDiscarded(trace, events, i, j)
    decreases j
  {
    if i < j {
      DroppedMeans(trace, events, i, j - 1);
      assert Moves(trace[j - 1], events[j - 1], trace[j]);
    } else if i > 0 {
      assert Moves(trace[i - 1], events[i - 1], trace[i]);
    }
  }

  /**
   `next` sees an event out of order exactly when a cancel on this stream discarded something before, so that
   the event came from an actor the cancel did not wait for; otherwise it delivers the log's next event.
   */
  lemma DeliveryIsInOrder(trace: seq<World>, events: seq<Event>, i: nat, j: nat)
    requires Run(trace, events) && i <= j < |events| && events[j].DeliverNext?
    requires OpenedAt(events, i) && NoResume(events, i, j)
    ensures InOrder(trace[j].stream) <==> NothingDiscarded(trace, events, i, j)
    ensures AllStopped(trace, events, i, j) ==>
      InOrder(trace[j].stream) && trace[j].stream.inHand.value.bytes <= trace[j].stream.queuedBytes
  {
    RunInv(trace, events, j);
    RunFollowed(trace, events);
    InOrderMeans(trace[j]);
    DroppedMeans(trace, events, i, j);
    OutlivedMeans(trace, events, i, j);
  }

  /** What a delivery in order does. */
  lemma DeliversNextOfLog(trace: seq<World>, events: seq<Event>, j: nat)
    requires Run(trace, events) && j < |events| && events[j].DeliverNext? && InOrder(trace[j].stream)
    ensures At(trace[j].stream.delivered) < |trace[j].log|
    ensures trace[j + 1].items == trace[j].items + [trace[j].log[At(trace[j].stream.delivered)]]
    ensures trace[j + 1].stream.completion == trace[j].stream.completion
  {
    RunInv(trace, events, j);
    InOrderMeans(trace[j]);
  }

  /** The queue closes with a recorded reason: `next` never finds it closed and the stream still active. */
  lemma ClosedQueueHasReason(trace: seq<World>, events: seq<Event>, i: nat)
    requires Run(trace, events) && i < |trace|
    ensures trace[i].stream.actor.Gone? && trace[i].cancelling.NoCancel? ==> !trace[i].stream.completion.Active?
    ensures trace[i].stream.completion.Remote? ==> trace[i].stream.terminal.Some?
  {
    RunInv(trace, events, i);
  }

  // ----- The clean end -----

  /** Every `cancel` on this stream drained it when the cursors agreed. */
  ghost predicate CancelsCaughtUp(trace: seq<World>, events: seq<Event>, i: nat, j: nat)
    requires |trace| == |events| + 1 && j < |trace|
  {
    forall k :: i <= k < j && events[k].CancelDrain? ==> CaughtUp(trace[k].stream)
  }

  lemma {:induction false} DroppedByCancel(trace: seq<World>, events: seq<Event>, i: nat, j: nat)
    requires Followed(trace, events) && i <= j < |trace| && OpenedAt(events, i) && NoResume(events, i, j)
    ensures !trace[j].overflowed ==> (trace[j].dropped == 0 <==> CancelsCaughtUp(trace, events, i, j))
    decreases j
  {
    if i < j {
      DroppedByCancel(trace, events, i, j - 1);
      assert Moves(trace[j - 1], events[j - 1], trace[j]);
    } else if i > 0 {
      assert Moves(trace[i - 1], events[i - 1], trace[i]);
    }
  }

  /** `next` has nothing left to wait for and answers a clean end. */
  predicate AnswersCleanEnd(s: Stream) {
    s.actor.Gone? && s.queue == [] && s.inHand.None? && EndOf(s).CleanEnd?
  }

  /** Everything of the session that this stream received was delivered, ending with the session's end. */
  ghost predicate SawTheEnd(w: World) {
    var s := w.stream;
    && At(s.b.after) <= Reached(s) <= |w.log|
    && w.items == w.log[At(s.b.after)..Reached(s)]
    && ((w.items != [] && w.items[|w.items| - 1].SessionEnded?) || (w.items == [] && AlreadyConfirmed(s)))
  }

  lemma CompleteUnlessDropped(w: World)
    requires Inv(w) && AnswersCleanEnd(w.stream)
    ensures w.stream.b.replayThrough.sequence <= Reached(w.stream) && !w.overflowed
    ensures SawTheEnd(w) <==> w.dropped == 0
  {
    assert |w.items| == At(w.stream.delivered) - At(w.stream.b.after);
  }

  /**
   A clean end always comes after the replay boundary was received. It comes after all preceding events were
   delivered exactly when no `cancel` on the stream drained undelivered events.
   */
  lemma CleanEndIsComplete(trace: seq<World>, events: seq<Event>, i: nat, j: nat)
    requires Run(trace, events) && i <= j < |trace| && OpenedAt(events, i) && NoResume(events, i, j)
    requires AnswersCleanEnd(trace[j].stream)
    ensures trace[j].stream.b.replayThrough.sequence <= Reached(trace[j].stream)
    ensures SawTheEnd(trace[j]) <==> CancelsCaughtUp(trace, events, i, j)
  {
    RunInv(trace, events, j);
    RunFollowed(trace, events);
    DroppedByCancel(trace, events, i, j);
    CompleteUnlessDropped(trace[j]);
  }

  /** At a clean end the public cursors tell whether everything received was delivered. */
  lemma CleanEndShowsInCursors(trace: seq<World>, events: seq<Event>, j: nat)
    requires Run(trace, events) && j < |trace| && AnswersCleanEnd(trace[j].stream)
    ensures SawTheEnd(trace[j]) <==> CaughtUp(trace[j].stream)
  {
    RunInv(trace, events, j);
    CompleteUnlessDropped(trace[j]);
    CaughtUpMeans(trace[j]);
  }

  lemma {:induction false} SettledAlong(trace: seq<World>, events: seq<Event>, a: nat, k: nat)
    requires Run(trace, events) && a <= k < |trace| && NoResume(events, a, k)
    ensures Settled(trace[a], trace[k])
    decreases k
  {
    if a < k {
      SettledAlong(trace, events, a, k - 1);
      RunInv(trace, events, k - 1);
      StepSettled(trace[k - 1], events[k - 1]);
    }
  }

  /**
   A caller that first sees the terminal and then reads the two cursors knows the state at a later
   `cancel`: cursors that agreed still agree, and if nothing was delivered in between, cursors that did not
   agree still do not.
   */
  lemma LookBeforeCancel(trace: seq<World>, events: seq<Event>, a: nat, b: nat, c: nat, k: nat)
    requires Run(trace, events) && a <= b <= k && a <= c <= k < |trace| && NoResume(events, a, k)
    requires trace[a].stream.terminal.Some?
    ensures LooksCaughtUp(trace[b].stream.received, trace[c].stream.delivered) ==> CaughtUp(trace[k].stream)
    ensures trace[c].stream.delivered == trace[k].stream.delivered ==>
      (LooksCaughtUp(trace[b].stream.received, trace[c].stream.delivered) <==> CaughtUp(trace[k].stream))
  {
    SettledAlong(trace, events, a, b);
    SettledAlong(trace, events, a, c);
    SettledAlong(trace, events, a, k);
    SettledAlong(trace, events, c, k);
    ReceivedBoundsDelivered(trace, events, k);
  }

  lemma ReceivedBoundsDelivered(trace: seq<World>, events: seq<Event>, k: nat)
    requires Run(trace, events) && k < |trace|
    ensures At(trace[k].stream.delivered) <= Reached(trace[k].stream)
    ensures CaughtUp(trace[k].stream) <==> Reached(trace[k].stream) == At(trace[k].stream.delivered)
  {
    RunInv(trace, events, k);
    CaughtUpMeans(trace[k]);
  }

  /** The caller looked before the `cancel` at step k, the terminal first, and the cursors agreed. */
  ghost predicate LookedBefore(trace: seq<World>, i: nat, k: nat)
    requires k < |trace|
  {
    exists a, b, c :: i <= a <= b <= k && a <= c <= k && trace[a].stream.terminal.Some?
      && LooksCaughtUp(trace[b].stream.received, trace[c].stream.delivered)
  }

  lemma LookedMeansCaughtUp(trace: seq<World>, events: seq<Event>, i: nat, k: nat)
    requires Run(trace, events) && i <= k < |trace| && NoResume(events, i, k) && LookedBefore(trace, i, k)
    ensures CaughtUp(trace[k].stream)
  {
    hide Possible, Next, CaughtUp, LooksCaughtUp;
    var a, b, c :| i <= a <= b <= k && a <= c <= k && trace[a].stream.terminal.Some?
      && LooksCaughtUp(trace[b].stream.received, trace[c].stream.delivered);
    LookBeforeCancel(trace, events, a, b, c, k);
  }

  /** A clean end is complete if the caller looked like that before each of its cancels. */
  lemma LookingMakesCleanEndComplete(trace: seq<World>, events: seq<Event>, i: nat, j: nat)
    requires Run(trace, events) && i <= j < |trace| && OpenedAt(events, i) && NoResume(events, i, j)
    requires AnswersCleanEnd(trace[j].stream)
    requires forall k :: i <= k < j && events[k].CancelDrain? ==> LookedBefore(trace, i, k)
    ensures SawTheEnd(trace[j])
  {
    hide Possible, Next, CaughtUp, SawTheEnd, AnswersCleanEnd, LookedBefore;
    forall k | i <= k < j && events[k].CancelDrain? ensures CaughtUp(trace[k].stream) {
      LookedMeansCaughtUp(trace, events, i, k);
    }
    CleanEndIsComplete(trace, events, i, j);
  }

  /** A whole call of `cancel` on a stream whose actor has stopped. */
  function AfterCancel(w: World): World
    requires Free(w)
  {
    Next(Next(Next(w, CancelSignal), CancelDrain), CancelRecord)
  }

  /** Cancelling a stream that the server has ended turns it into a clean end, read or not. */
  lemma CancelMakesCleanEnd(w: World)
    requires Inv(w) && Free(w) && EndOf(w.stream).CleanEnd? && w.dropped == 0
    ensures AnswersCleanEnd(AfterCancel(w).stream)
    ensures SawTheEnd(AfterCancel(w)) <==> CaughtUp(w.stream)
  {
    hide Inv, SawTheEnd, CaughtUp;
    var w1 := Next(w, CancelSignal);
    StepInv(w, CancelSignal);
    var w2 := Next(w1, CancelDrain);
    StepInv(w1, CancelDrain);
    StepInv(w2, CancelRecord);
    DroppedUnlessCaughtUp(w);
    CompleteUnlessDropped(AfterCancel(w));
  }

  lemma DroppedUnlessCaughtUp(w: World)
    requires Inv(w) && Free(w) && EndOf(w.stream).CleanEnd? && w.dropped == 0
    ensures w.stream.actor.Gone? && (w.stream.queue == [] <==> CaughtUp(w.stream))
  {
    CaughtUpMeans(w);
  }

  // ----- Runs that show what can happen -----

  lemma OneStepMore(trace: seq<World>, events: seq<Event>, e: Event, t: World)
    requires Run(trace, events) && Possible(trace[|events|], e) && t == Next(trace[|events|], e)
    ensures Run(trace + [t], events + [e])
  {
    hide Possible, Next, Start;
  }

  function Opening(log: seq<Payload>, through: nat): World {
    World(log, 0, 0, Opened(Binding(0, 0, 0, 0, None, Cursor(0, 0, through), false, 2, 2)), NoCancel,
          [], [], 0, false, true, false)
  }

  function Sent(sequence: nat, p: Payload): Event {
    Accept(Message(0, Cursor(0, 0, sequence), 0, sequence, p, 0), 1)
  }

  function Kept(sequence: nat, p: Payload): Queued { Queued(1, Item(Cursor(0, 0, sequence), p)) }

  // A session whose only event is its end: that event is queued, the server finishes, nothing is read.
  const QUIET := Opening([SessionEnded], 1)
  const SENT := Sent(1, SessionEnded)
  const QUEUED := QUIET.(stream := QUIET.stream.(
    received := Some(Cursor(0, 0, 1)), lastWasEnd := true, queuedBytes := 1, queue := [Kept(1, SessionEnded)]))
  const ENDED := Finish(Terminal(0, 0, Some(Cursor(0, 0, 1)), true))
  const UNREAD := QUEUED.(stream := QUEUED.stream.(
    terminal := Some(ENDED.t), completion := Remote, actor := Gone))
  const CALLED := UNREAD.(cancelling := Signalled)
  const EMPTIED := UNREAD.(
    stream := UNREAD.stream.(queue := []), cancelling := Drained, dropped := 1, counted := false)
  const CANCELLED := EMPTIED.(
    stream := EMPTIED.stream.(queuedBytes := 0), cancelling := NoCancel, counted := true)

  lemma UnreadEndIsReached()
    ensures Run([QUIET] + [QUEUED] + [UNREAD], [] + [SENT] + [ENDED])
  {
    assert Run([QUIET], []);
    OneStepMore([QUIET], [], SENT, QUEUED);
    OneStepMore([QUIET] + [QUEUED], [] + [SENT], ENDED, UNREAD);
  }

  /** Cancelled at that point, the stream answers a clean end although its event was never delivered. */
  lemma CancelledEndLooksClean(trace: seq<World>, events: seq<Event>)
    requires trace == [QUIET] + [QUEUED] + [UNREAD] && events == [] + [SENT] + [ENDED]
    ensures Run(trace + [CALLED] + [EMPTIED] + [CANCELLED], events + [CancelSignal] + [CancelDrain] + [CancelRecord])
    ensures AnswersCleanEnd(CANCELLED.stream) && !SawTheEnd(CANCELLED)
  {
    UnreadEndIsReached();
    OneStepMore(trace, events, CancelSignal, CALLED);
    OneStepMore(trace + [CALLED], events + [CancelSignal], CancelDrain, EMPTIED);
    OneStepMore(trace + [CALLED] + [EMPTIED], events + [CancelSignal] + [CancelDrain], CancelRecord, CANCELLED);
    assert CANCELLED.items == [] && CANCELLED.stream.received == Some(Cursor(0, 0, 1));
  }

  /** Cursors that agree while the stream is still active promise nothing: the same run starts with them. */
  lemma LookingEarlyIsNotEnough(trace: seq<World>, events: seq<Event>)
    requires trace == [QUIET] + [QUEUED] + [UNREAD] && events == [] + [SENT] + [ENDED]
    ensures QUIET.stream.completion.Active? && QUIET.stream.terminal.None? && CaughtUp(QUIET.stream)
    ensures Run(trace + [CALLED] + [EMPTIED] + [CANCELLED], events + [CancelSignal] + [CancelDrain] + [CancelRecord])
    ensures AnswersCleanEnd(CANCELLED.stream) && !SawTheEnd(CANCELLED)
  {
    CancelledEndLooksClean(trace, events);
  }

  // A cancel that runs out of patience: the first event is dropped, and the actor is still at work.
  const FIRST := OtherEvent(1)
  const SECOND := OtherEvent(2)
  const BUSY0 := Opening([FIRST, SECOND], 0)
  const BUSY1 := BUSY0.(stream := BUSY0.stream.(
    received := Some(Cursor(0, 0, 1)), queuedBytes := 1, queue := [Kept(1, FIRST)]))
  const BUSY2 := BUSY1.(stream := BUSY1.stream.(actor := Late), cancelling := Signalled)
  const BUSY3 := BUSY2.(
    stream := BUSY2.stream.(queue := []), cancelling := Drained, dropped := 1, counted := false, outlived := true)
  const BUSY4 := BUSY3.(
    stream := BUSY3.stream.(queuedBytes := 0, completion := CancelledLocally), cancelling := NoCancel, counted := true)

  lemma ActorOutlivesCancel()
    ensures Run([BUSY0] + [BUSY1] + [BUSY2] + [BUSY3] + [BUSY4],
                [] + [Sent(1, FIRST)] + [CancelSignal] + [CancelDrain] + [CancelRecord])
  {
    assert Run([BUSY0], []);
    OneStepMore([BUSY0], [], Sent(1, FIRST), BUSY1);
    OneStepMore([BUSY0] + [BUSY1], [] + [Sent(1, FIRST)], CancelSignal, BUSY2);
    OneStepMore([BUSY0] + [BUSY1] + [BUSY2], [] + [Sent(1, FIRST)] + [CancelSignal], CancelDrain, BUSY3);
    OneStepMore([BUSY0] + [BUSY1] + [BUSY2] + [BUSY3], [] + [Sent(1, FIRST)] + [CancelSignal] + [CancelDrain],
                CancelRecord, BUSY4);
  }

  const LATE5 := BUSY4.(stream := BUSY4.stream.(
    received := Some(Cursor(0, 0, 2)), queuedBytes := 1, queue := [Kept(2, SECOND)],
    actor := Closing(CancelledLocally)))
  const LATE6 := LATE5.(stream := LATE5.stream.(queue := [], inHand := Some(Kept(2, SECOND))))
  const LATE7 := LATE6.(
    stream := LATE6.stream.(inHand := None, queuedBytes := 0, completion := Failed(CursorError)), dropped := 2)

  /** Its last event then makes `next` fail out of order, and the cancellation is overwritten. */
  lemma LateEventIsOutOfOrder(trace: seq<World>, events: seq<Event>)
    requires trace == [BUSY0] + [BUSY1] + [BUSY2] + [BUSY3] + [BUSY4]
    requires events == [] + [Sent(1, FIRST)] + [CancelSignal] + [CancelDrain] + [CancelRecord]
    ensures Run(trace + [LATE5] + [LATE6] + [LATE7], events + [Sent(2, SECOND)] + [TakeNext] + [DeliverNext])
    ensures !InOrder(LATE6.stream)
    ensures BUSY4.stream.completion == CancelledLocally && LATE7.stream.completion == Failed(CursorError)
  {
    ActorOutlivesCancel();
    OneStepMore(trace, events, Sent(2, SECOND), LATE5);
    OneStepMore(trace + [LATE5], events + [Sent(2, SECOND)], TakeNext, LATE6);
    OneStepMore(trace + [LATE5] + [LATE6], events + [Sent(2, SECOND)] + [TakeNext], DeliverNext, LATE7);
  }

  const STOP := Finish(Terminal(0, 0, Some(Cursor(0, 0, 1)), false))
  const OVERWRITTEN := BUSY4.(stream := BUSY4.stream.(terminal := Some(STOP.t), completion := Remote, actor := Gone))

  /** Or its terminal turns the cancelled stream into one that the server ended. */
  lemma LateTerminalOverwrites(trace: seq<World>, events: seq<Event>)
    requires trace == [BUSY0] + [BUSY1] + [BUSY2] + [BUSY3] + [BUSY4]
    requires events == [] + [Sent(1, FIRST)] + [CancelSignal] + [CancelDrain] + [CancelRecord]
    ensures Run(trace + [OVERWRITTEN], events + [STOP])
    ensures BUSY4.stream.completion == CancelledLocally && OVERWRITTEN.stream.completion == Remote
  {
    ActorOutlivesCancel();
    OneStepMore(trace, events, STOP, OVERWRITTEN);
  }
}
