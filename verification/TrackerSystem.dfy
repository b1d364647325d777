/**
 Every interleaving of the threads that use one control-plane client.

 A `System` holds the tracker state together with each operation that has released the mutex and not
 finished: requests tracked but not handed to the writer, cancels prepared but not sent, the hello
 attempt, callers taken out of the table but not told yet, and calls of `fail` that are due. An event is
 one region of one thread, `Possible` says when it can happen and `Next` what it does; a run is any
 sequence of possible events.
 */
module TrackerSystem {
  import opened Bytes
  import opened Negotiation
  import opened RequestTracker

  datatype FrameKind = HelloFrame | RequestFrame(call: Call) | AutoCancel(target: nat)
  datatype Frame = Frame(id: nat, kind: FrameKind)

  /** The future of `hello`: before its request is tracked, while it waits for the answer, and once its
      request could not be sent and the phase is still to be reset. */
  datatype Attempt = NoAttempt | Opening(offer: Offer) | Waiting(offer: Offer, id: nat) | Retreating(offer: Offer)

  /** A cancel between being prepared and being sent or put back. */
  datatype Pump = Pump(request: nat, checked: bool)

  datatype Outcome = Value(hello: Option<HelloResult>) | RemoteError | BadResult | ClientOver

  /** What was sent to one caller. */
  datatype Telling = Telling(id: nat, outcome: Outcome)

  datatype Reply = Success(decodes: bool, hello: HelloResult) | RemoteFailure

  datatype System = System(
    st: State,
    attempt: Attempt,
    sending: map<nat, FrameKind>, // tracked, not yet handed to the writer
    pumps: map<nat, Pump>,        // by target
    frames: seq<Frame>,           // handed to the writer, in order
    handles: set<nat>,            // requests whose caller can still give up
    inserted: set<nat>,           // ids ever tracked as pending
    telling: map<nat, Outcome>,   // senders taken out of the table and not used yet
    told: seq<Telling>,           // what callers were told, in order
    dueFailures: nat,
    closeStarted: bool)

  datatype HelloEvent =
    | Open(offer: Offer)
    | Insert
    | Refused(consumed: bool)     // no id given, or an id but too large a frame
    | HelloSent
    | HelloUnsent
    | Retreat
    | BecomeReady(result: HelloResult)
    | Rejected                    // unacceptable answer, or the client ended meanwhile
    | Error
    | DropFuture

  datatype CallEvent =
    | Begin(call: Call)
    | BeginOversize(call: Call)
    | HandToWriter(id: nat)
    | HandFailed(id: nat)

  /** A caller drops its handle. */
  datatype GiveUpEvent =
    | Abandon(id: nat)
    | AbandonOverflow(id: nat)
    | AbandonLate(id: nat)

  datatype PumpEvent =
    | Prepare(target: nat)
    | Broken(consumed: bool)      // ids exhausted, or too large a frame
    | Gone(target: nat)
    | Check(target: nat)
    | Restore(target: nat, writerClosed: bool)
    | SendCancel(target: nat)

  datatype ReaderEvent =
    | Respond(id: nat, reply: Reply)
    | RespondLate(id: nat, reply: Reply)
    | RespondUnknown(id: nat)
    | Tell(id: nat)

  /** Everything that ends the client. */
  datatype EndEvent =
    | Trouble                     // null id, bad frame, transport error: `fail` will be called
    | RunFail
    | RunFailLate
    | CloseStart
    | CloseFinish

  datatype Event =
    | Hello(h: HelloEvent) | Calls(c: CallEvent) | GiveUp(g: GiveUpEvent) | Pumps(p: PumpEvent)
    | Reader(r: ReaderEvent) | Ends(n: EndEvent)

  const START := System(INITIAL, NoAttempt, map[], map[], [], {}, {}, map[], [], 0, false)

  const HELLO := Call(SystemHello, false, false, false, false)

  /** What an event needs in order to make sense at all. */
  predicate HelloApplies(s: System, e: HelloEvent) {
    match e
    case Open(_) => s.st.phase == AwaitingHello
    case Insert => s.attempt.Opening? && s.st.phase == HelloInFlight
    case Refused(_) => s.attempt.Opening?
    case HelloSent => s.attempt.Waiting? && s.attempt.id in s.sending
    case HelloUnsent => s.attempt.Waiting? && s.attempt.id in s.sending
    case Retreat => s.attempt.Retreating?
    case BecomeReady(r) => Answered(s) && Answer(s) == Some(r) && s.st.phase == HelloInFlight
    case Rejected => Answered(s) && Answer(s).Some?
    case Error => Answered(s) && Answer(s).None?
    case DropFuture => s.attempt.Waiting? && s.attempt.id !in s.sending
  }

  predicate CallApplies(s: System, e: CallEvent) {
    match e
    case Begin(_) => s.st.phase == Ready
    case BeginOversize(_) => s.st.phase == Ready
    case HandToWriter(id) => id in s.sending && s.sending[id].RequestFrame?
    case HandFailed(id) => id in s.sending && s.sending[id].RequestFrame?
  }

  predicate GiveUpApplies(s: System, e: GiveUpEvent) {
    match e
    case Abandon(id) => id in s.handles && id in s.st.pending
    case AbandonOverflow(id) => id in s.handles && id in s.st.pending
    case AbandonLate(id) => id in s.handles && id !in s.st.pending
  }

  predicate PumpApplies(s: System, e: PumpEvent) {
    match e
    case Prepare(target) => s.st.phase == Ready && target in s.st.cancelBacklog
    case Broken(_) => s.st.phase == Ready && s.st.cancelBacklog != {}
    case Gone(target) => PumpAtCheck(s, target) && !StillWanted(s, target)
    case Check(target) => PumpAtCheck(s, target) && StillWanted(s, target)
    case Restore(target, _) => target in s.pumps
    case SendCancel(target) => target in s.pumps && s.pumps[target].checked
  }

  predicate ReaderApplies(s: System, e: ReaderEvent) {
    match e
    case Respond(id, _) => Track(s.st, id).FoundPending?
    case RespondLate(id, _) => Track(s.st, id).FoundAbandoned?
    case RespondUnknown(id) => Track(s.st, id).Unknown?
    case Tell(id) => id in s.telling
  }

  predicate EndApplies(s: System, e: EndEvent) {
    match e
    case Trouble => true
    case RunFail => s.dueFailures > 0 && s.st.phase != Closed && s.st.phase != Failed
    case RunFailLate => s.dueFailures > 0 && (s.st.phase == Closed || s.st.phase == Failed)
    case CloseStart => !s.closeStarted && s.st.phase != Closed
    case CloseFinish => s.closeStarted
  }

  predicate Applies(s: System, e: Event) {
    match e
    case Hello(h) => HelloApplies(s, h)
    case Calls(c) => CallApplies(s, c)
    case GiveUp(g) => GiveUpApplies(s, g)
    case Pumps(p) => PumpApplies(s, p)
    case Reader(r) => ReaderApplies(s, r)
    case Ends(n) => EndApplies(s, n)
  }

  /** The checks the code makes on the way: limits, features, ids and the answer to hello. */
  predicate Permitted(s: System, e: Event, o: Options)
    requires ValidOptions(o) && Applies(s, e)
  {
    match e
    case Hello(Open(offer)) => ValidOffer(offer)
    case Hello(Insert) => Admitted(s.st, HELLO, true, o)
    case Hello(Refused(consumed)) => consumed ==> Admitted(s.st, HELLO, true, o)
    case Hello(BecomeReady(r)) => ValidResult(s.attempt.offer, r, o.transport)
    case Hello(Rejected) =>
      !(s.st.phase == HelloInFlight && ValidResult(s.attempt.offer, Answer(s).value, o.transport))
    case Calls(Begin(call)) => Admitted(s.st, call, false, o)
    case Calls(BeginOversize(call)) => Admitted(s.st, call, false, o)
    case GiveUp(Abandon(_)) => |s.st.abandoned| < o.maxPending
    case GiveUp(AbandonOverflow(_)) => |s.st.abandoned| >= o.maxPending
    case Pumps(Prepare(_)) => CanPump(s.st, o) && s.st.nextRequest != U64_MAX
    case Pumps(Broken(consumed)) => CanPump(s.st, o) && (consumed <==> s.st.nextRequest != U64_MAX)
    case _ => true
  }

  predicate Possible(s: System, e: Event, o: Options)
    requires ValidOptions(o)
  {
    Applies(s, e) && Permitted(s, e, o)
  }

  /** What one caller was told, in order. */
  function Heard(told: seq<Telling>, id: nat): seq<Outcome> {
    if told == [] then []
    else
      var last := told[|told| - 1];
      Heard(told[..|told| - 1], id) + (if last.id == id then [last.outcome] else [])
  }

  predicate Answered(s: System) {
    s.attempt.Waiting? && s.attempt.id !in s.sending && Heard(s.told, s.attempt.id) != []
  }

  function Answer(s: System): Option<HelloResult>
    requires Answered(s)
  {
    var outcome := Heard(s.told, s.attempt.id)[0];
    if outcome.Value? then outcome.hello else None
  }

  predicate PumpAtCheck(s: System, target: nat) {
    target in s.pumps && !s.pumps[target].checked
  }

  predicate StillWanted(s: System, target: nat)
    requires target in s.pumps
  {
    s.st.phase == Ready && s.pumps[target].request in s.st.pending
  }

  // ----- What an event does -----

  /** Everybody who waits is to be told that the client is over. */
  function TellAll(telling: map<nat, Outcome>, pending: map<nat, Pending>): map<nat, Outcome> {
    telling + (map id | id in pending && pending[id].sender :: ClientOver)
  }

  function BackToAwaiting(st: State): State {
    if st.phase == HelloInFlight then st.(phase := AwaitingHello) else st
  }

  function RemovePending(st: State, id: nat): State {
    if id in st.pending then Untrack(st, id) else st
  }

  function SkipId(st: State, consumed: bool): State {
    if consumed then st.(nextRequest := st.nextRequest + 1) else st
  }

  /** Tracks a request for a caller and queues its frame for the writer. */
  function Issue(s: System, p: Pending, kind: FrameKind): System {
    var id := s.st.nextRequest;
    s.(st := TrackNew(s.st, p), sending := s.sending[id := kind], inserted := s.inserted + {id})
  }

  function Told(p: Pending, reply: Reply): Outcome {
    match reply
    case Success(true, h) => Value(if p.rpc == SystemHello then Some(h) else None)
    case Success(false, _) => BadResult
    case RemoteFailure => RemoteError
  }

  /** A result of the wrong shape also fails the client, once its caller was told. */
  function DueIf(s: System, bad: bool): System { if bad then Due(s) else s }

  predicate Undecodable(reply: Reply) { reply.Success? && !reply.decodes }

  function Due(s: System): System { s.(dueFailures := s.dueFailures + 1) }

  predicate SameHandshake(s: System, t: System) {
    && t.attempt == s.attempt && t.st.phase == s.st.phase
    && t.st.negotiated == s.st.negotiated && t.st.enabled == s.st.enabled
  }

  predicate SameQueues(s: System, t: System) {
    t.frames == s.frames && t.sending == s.sending && t.pumps == s.pumps
  }

  function NextHello(s: System, e: HelloEvent): System
    requires HelloApplies(s, e)
  {
    match e
    case Open(offer) => s.(st := s.st.(phase := HelloInFlight), attempt := Opening(offer))
    case Insert =>
      Issue(s, Pending(false, SystemHello, true), HelloFrame)
        .(attempt := Waiting(s.attempt.offer, s.st.nextRequest))
    case Refused(consumed) => s.(st := SkipId(s.st, consumed), attempt := Retreating(s.attempt.offer))
    case HelloSent =>
      s.(sending := s.sending - {s.attempt.id}, frames := s.frames + [Frame(s.attempt.id, HelloFrame)])
    case HelloUnsent =>
      s.(st := RemovePending(s.st, s.attempt.id), sending := s.sending - {s.attempt.id},
         attempt := Retreating(s.attempt.offer))
    case Retreat => s.(st := BackToAwaiting(s.st), attempt := NoAttempt)
    case BecomeReady(r) =>
      s.(st := s.st.(phase := Ready, enabled := r.enabled, negotiated := Some(Negotiated(s.attempt.offer, r))),
         attempt := NoAttempt)
    case Rejected => Due(s.(attempt := NoAttempt))
    case Error => s.(st := BackToAwaiting(s.st), attempt := NoAttempt)
    case DropFuture => Due(s.(attempt := NoAttempt))
  }

  function NextCall(s: System, e: CallEvent): (t: System)
    requires CallApplies(s, e)
    ensures SameHandshake(s, t)
  {
    match e
    case Begin(call) => Issue(s, Pending(IsApplication(call, false), call.rpc, true), RequestFrame(call))
    case BeginOversize(_) => s.(st := SkipId(s.st, true))
    case HandToWriter(id) =>
      s.(sending := s.sending - {id}, frames := s.frames + [Frame(id, s.sending[id])], handles := s.handles + {id})
    case HandFailed(id) => s.(st := RemovePending(s.st, id), sending := s.sending - {id})
  }

  function NextGiveUp(s: System, e: GiveUpEvent): (t: System)
    requires GiveUpApplies(s, e)
    ensures SameHandshake(s, t)
    ensures SameQueues(s, t)
  {
    match e
    case Abandon(id) => s.(st := Shelve(s.st, id), handles := s.handles - {id})
    case AbandonOverflow(id) => Due(s.(st := Untrack(s.st, id), handles := s.handles - {id}))
    case AbandonLate(id) => s.(handles := s.handles - {id})
  }

  function NextPump(s: System, e: PumpEvent): (t: System)
    requires PumpApplies(s, e)
    ensures SameHandshake(s, t)
  {
    match e
    case Prepare(target) =>
      s.(st := TakeTarget(s.st, target), pumps := s.pumps[target := Pump(s.st.nextRequest, false)],
         inserted := s.inserted + {s.st.nextRequest})
    case Broken(consumed) => Due(s.(st := SkipId(s.st, consumed)))
    case Gone(target) => s.(pumps := s.pumps - {target})
    case Check(target) => s.(pumps := s.pumps[target := s.pumps[target].(checked := true)])
    case Restore(target, writerClosed) =>
      var r := s.(st := PutBack(s.st, s.pumps[target].request, target), pumps := s.pumps - {target});
      if writerClosed then Due(r) else r
    case SendCancel(target) =>
      s.(pumps := s.pumps - {target}, frames := s.frames + [Frame(s.pumps[target].request, AutoCancel(target))])
  }

  function NextReader(s: System, e: ReaderEvent): (t: System)
    requires ReaderApplies(s, e)
    ensures SameHandshake(s, t)
    ensures SameQueues(s, t)
  {
    match e
    case Respond(id, reply) =>
      var p := s.st.pending[id];
      if p.sender then s.(st := Untrack(s.st, id), telling := s.telling[id := Told(p, reply)])
      else DueIf(s.(st := Untrack(s.st, id)), Undecodable(reply))
    case RespondLate(id, reply) => DueIf(s.(st := Unshelve(s.st, id)), Undecodable(reply))
    case RespondUnknown(_) => Due(s)
    case Tell(id) =>
      DueIf(s.(telling := s.telling - {id}, told := s.told + [Telling(id, s.telling[id])]), s.telling[id].BadResult?)
  }

  function NextEnd(s: System, e: EndEvent): (t: System)
    requires EndApplies(s, e)
    ensures SameQueues(s, t)
  {
    match e
    case Trouble => Due(s)
    case RunFail =>
      s.(dueFailures := s.dueFailures - 1, st := Drain(s.st, Failed), telling := TellAll(s.telling, s.st.pending))
    case RunFailLate => s.(dueFailures := s.dueFailures - 1)
    case CloseStart =>
      s.(closeStarted := true, st := Drain(s.st, if s.st.phase == Failed then Failed else Closing),
         telling := TellAll(s.telling, s.st.pending))
    case CloseFinish => s.(st := s.st.(phase := Closed))
  }

  function Next(s: System, e: Event): System
    requires Applies(s, e)
  {
    match e
    case Hello(h) => NextHello(s, h)
    case Calls(c) => NextCall(s, c)
    case GiveUp(g) => NextGiveUp(s, g)
    case Pumps(p) => NextPump(s, p)
    case Reader(r) => NextReader(s, r)
    case Ends(n) => NextEnd(s, n)
  }

  /** The states a run passes through. */
  ghost predicate Run(trace: seq<System>, events: seq<Event>, o: Options)
    requires ValidOptions(o)
  {
    && |trace| == |events| + 1 && trace[0] == START
    && forall i :: 0 <= i < |events| ==> Possible(trace[i], events[i], o) && trace[i + 1] == Next(trace[i], events[i])
  }

  // ----- Where each id is -----

  /** A tracked id was inserted, is in one table only and below the counter; one whose caller is being
      told or was told is in none, and no caller is told twice; nothing is tracked after the end. */
  ghost predicate IdOk(s: System, id: nat) {
    && (id in s.st.pending ==> id in s.inserted && id !in s.st.abandoned && !Over(s.st.phase))
    && (id in s.st.abandoned ==> id in s.inserted && !Over(s.st.phase))
    && (id in s.st.cancelBacklog ==> id in s.st.abandoned)
    && (id in s.telling || Heard(s.told, id) != [] ==> id in s.inserted && id !in s.st.pending && id !in s.st.abandoned)
    && |Heard(s.told, id)| + (if id in s.telling then 1 else 0) <= 1
    && (id in s.inserted ==> id < s.st.nextRequest)
    && (s.closeStarted ==> Over(s.st.phase))
  }

  lemma HelloKeepsIds(s: System, e: HelloEvent, id: nat)
    requires HelloApplies(s, e) && IdOk(s, id) && IdOk(s, s.st.nextRequest)
    ensures IdOk(NextHello(s, e), id)
  {
  }

  lemma CallKeepsIds(s: System, e: CallEvent, id: nat)
    requires CallApplies(s, e) && IdOk(s, id) && IdOk(s, s.st.nextRequest)
    ensures IdOk(NextCall(s, e), id)
  {
  }

  lemma GiveUpKeepsIds(s: System, e: GiveUpEvent, id: nat)
    requires GiveUpApplies(s, e) && IdOk(s, id) && IdOk(s, s.st.nextRequest)
    ensures IdOk(NextGiveUp(s, e), id)
  {
  }

  lemma PumpKeepsIds(s: System, e: PumpEvent, id: nat)
    requires PumpApplies(s, e) && IdOk(s, id) && IdOk(s, s.st.nextRequest)
    ensures IdOk(NextPump(s, e), id)
  {
    hide Heard;
    match e
    case Prepare(_) =>
    case Broken(_) =>
    case Gone(_) =>
    case Check(_) =>
    case Restore(_, _) =>
    case SendCancel(_) =>
  }

  lemma OneMoreTelling(told: seq<Telling>, x: Telling, id: nat)
    ensures Heard(told + [x], id) == Heard(told, id) + (if x.id == id then [x.outcome] else [])
  {
    assert (told + [x])[..|told|] == told;
  }

  lemma ReaderKeepsIds(s: System, e: ReaderEvent, id: nat)
    requires ReaderApplies(s, e) && IdOk(s, id) && IdOk(s, s.st.nextRequest)
    ensures IdOk(NextReader(s, e), id)
  {
    hide Heard, Told, Undecodable, SaturatingPred;
    if e.Tell? {
      OneMoreTelling(s.told, Telling(e.id, s.telling[e.id]), id);
    }
  }

  lemma EndKeepsIds(s: System, e: EndEvent, id: nat)
    requires EndApplies(s, e) && IdOk(s, id) && IdOk(s, s.st.nextRequest)
    ensures IdOk(NextEnd(s, e), id)
  {
    hide Heard;
  }

  // ----- Nothing comes back -----

  function Rank(p: Phase): nat {
    match p
    case AwaitingHello => 0
    case HelloInFlight => 1
    case Ready => 2
    case Closing => 3
    case Failed => 4
    case Closed => 5
  }

  /** One step, seen from one id: only the next id can enter the tables, what callers heard stays, and
      only a waiting caller is told. The phase moves forward, except that a hello attempt may
      fall back; and a failure stays due until it has ended the client. */
  ghost predicate Forward(s: System, t: System, id: nat) {
    && (Rank(s.st.phase) <= Rank(t.st.phase) || (s.st.phase == HelloInFlight && t.st.phase == AwaitingHello))
    && (s.dueFailures > 0 ==> t.dueFailures > 0 || t.st.phase == Failed || t.st.phase == Closed)
    && (id in t.st.pending ==> id in s.st.pending || id == s.st.nextRequest)
    && (id in t.st.abandoned ==> id in s.st.abandoned || id in s.st.pending)
    && (id in s.inserted ==> id in t.inserted)
    && s.told <= t.told
    && (id in t.telling ==> id in s.telling || id in s.st.pending)
  }

  lemma HelloForward(s: System, e: HelloEvent, id: nat)
    requires HelloApplies(s, e) && IdOk(s, id)
    ensures Forward(s, NextHello(s, e), id)
  {
  }

  lemma CallForward(s: System, e: CallEvent, id: nat)
    requires CallApplies(s, e) && IdOk(s, id)
    ensures Forward(s, NextCall(s, e), id)
  {
  }

  lemma GiveUpForward(s: System, e: GiveUpEvent, id: nat)
    requires GiveUpApplies(s, e) && IdOk(s, id)
    ensures Forward(s, NextGiveUp(s, e), id)
  {
  }

  lemma PumpForward(s: System, e: PumpEvent, id: nat)
    requires PumpApplies(s, e) && IdOk(s, id)
    ensures Forward(s, NextPump(s, e), id)
  {
  }

  lemma ReaderForward(s: System, e: ReaderEvent, id: nat)
    requires ReaderApplies(s, e) && IdOk(s, id)
    ensures Forward(s, NextReader(s, e), id)
  {
    hide Heard, Told, Undecodable, SaturatingPred;
  }

  lemma EndForward(s: System, e: EndEvent, id: nat)
    requires EndApplies(s, e) && IdOk(s, id)
    ensures Forward(s, NextEnd(s, e), id)
  {
  }

  // ----- At most one automatic cancel for each request -----

  function CancelsSent(frames: seq<Frame>, target: nat): nat {
    if frames == [] then 0
    else
      var f := frames[|frames| - 1];
      CancelsSent(frames[..|frames| - 1], target) + (if f.kind == AutoCancel(target) then 1 else 0)
  }

  /** The places a cancel for `target` can be: on the backlog, in a pump, or sent. */
  function Stake(s: System, target: nat): nat {
    (if target in s.st.cancelBacklog then 1 else 0)
    + (if target in s.pumps then 1 else 0)
    + CancelsSent(s.frames, target)
  }

  /** Whoever holds the target, its id is out of the pending table for good. The request a pump holds
      is the cancel it was prepared with, as long as that is tracked. */
  ghost predicate CancelOk(s: System, target: nat) {
    && (target in s.pumps ==>
          var r := s.pumps[target].request;
          r in s.inserted && (r in s.st.pending ==> s.st.pending[r] == CANCEL))
    && Stake(s, target) <= 1
    && (Stake(s, target) > 0 ==> target in s.inserted && target !in s.st.pending)
  }

  lemma OneMoreFrame(frames: seq<Frame>, f: Frame, target: nat)
    ensures CancelsSent(frames + [f], target)
         == CancelsSent(frames, target) + (if f.kind == AutoCancel(target) then 1 else 0)
  {
    assert (frames + [f])[..|frames|] == frames;
  }

  lemma HelloKeepsCancels(s: System, e: HelloEvent, target: nat)
    requires HelloApplies(s, e) && IdOk(s, s.st.nextRequest) && CancelOk(s, target)
    ensures CancelOk(NextHello(s, e), target)
  {
    hide CancelsSent;
    if e.HelloSent? {
      OneMoreFrame(s.frames, Frame(s.attempt.id, HelloFrame), target);
    }
  }

  lemma CallKeepsCancels(s: System, e: CallEvent, target: nat)
    requires CallApplies(s, e) && IdOk(s, s.st.nextRequest) && CancelOk(s, target)
    ensures CancelOk(NextCall(s, e), target)
  {
    hide CancelsSent;
    if e.HandToWriter? {
      OneMoreFrame(s.frames, Frame(e.id, s.sending[e.id]), target);
    }
  }

  lemma GiveUpKeepsCancels(s: System, e: GiveUpEvent, target: nat)
    requires GiveUpApplies(s, e) && IdOk(s, target) && CancelOk(s, target)
    ensures CancelOk(NextGiveUp(s, e), target)
  {
    hide CancelsSent;
  }

  lemma PumpKeepsCancels(s: System, e: PumpEvent, target: nat)
    requires PumpApplies(s, e)
    requires IdOk(s, s.st.nextRequest) && CancelOk(s, target)
    ensures CancelOk(NextPump(s, e), target)
  {
    hide CancelsSent, Heard;
    match e
    case Prepare(_) =>
    case Broken(_) =>
    case Gone(_) =>
    case Check(_) =>
    case Restore(_, _) =>
    case SendCancel(sent) =>
      OneMoreFrame(s.frames, Frame(s.pumps[sent].request, AutoCancel(sent)), target);
  }

  lemma ReaderKeepsCancels(s: System, e: ReaderEvent, target: nat)
    requires ReaderApplies(s, e) && CancelOk(s, target)
    ensures CancelOk(NextReader(s, e), target)
  {
    hide CancelsSent;
  }

  lemma EndKeepsCancels(s: System, e: EndEvent, target: nat)
    requires EndApplies(s, e) && CancelOk(s, target)
    ensures CancelOk(NextEnd(s, e), target)
  {
    hide CancelsSent;
  }

  // ----- Limits -----

  lemma HelloLimits(s: System, e: HelloEvent, o: Options)
    requires ValidOptions(o) && HelloApplies(s, e) && Permitted(s, Hello(e), o)
    requires Bounded(s.st, o) && IdOk(s, s.st.nextRequest)
    ensures Bounded(NextHello(s, e).st, o)
  {
    if e.Insert? {
      TrackNewBounded(s.st, Pending(false, SystemHello, true), o);
    } else if e.HelloUnsent? && s.attempt.id in s.st.pending {
      UntrackBounded(s.st, s.attempt.id, o);
    }
  }

  lemma CallLimits(s: System, e: CallEvent, o: Options)
    requires ValidOptions(o) && CallApplies(s, e) && Permitted(s, Calls(e), o)
    requires Bounded(s.st, o) && IdOk(s, s.st.nextRequest)
    ensures Bounded(NextCall(s, e).st, o)
  {
    if e.Begin? {
      TrackNewBounded(s.st, Pending(IsApplication(e.call, false), e.call.rpc, true), o);
    } else if e.HandFailed? && e.id in s.st.pending {
      UntrackBounded(s.st, e.id, o);
    }
  }

  lemma GiveUpLimits(s: System, e: GiveUpEvent, o: Options)
    requires ValidOptions(o) && GiveUpApplies(s, e) && Permitted(s, GiveUp(e), o)
    requires Bounded(s.st, o) && IdOk(s, e.id)
    ensures Bounded(NextGiveUp(s, e).st, o)
  {
    match e
    case Abandon(id) => ShelveBounded(s.st, id, o);
    case AbandonOverflow(id) => UntrackBounded(s.st, id, o);
    case AbandonLate(_) =>
  }

  lemma PumpLimits(s: System, e: PumpEvent, o: Options)
    requires ValidOptions(o) && PumpApplies(s, e) && Permitted(s, Pumps(e), o)
    requires Bounded(s.st, o) && IdOk(s, s.st.nextRequest) && (e.Restore? ==> CancelOk(s, e.target))
    ensures Bounded(NextPump(s, e).st, o)
  {
    if e.Prepare? {
      TrackNewBounded(s.st.(cancelBacklog := s.st.cancelBacklog - {e.target}), CANCEL, o);
    } else if e.Restore? {
      PutBackBounded(s.st, s.pumps[e.target].request, e.target, o);
    }
  }

  lemma ReaderLimits(s: System, e: ReaderEvent, o: Options)
    requires ValidOptions(o) && ReaderApplies(s, e) && Bounded(s.st, o)
    ensures Bounded(NextReader(s, e).st, o)
  {
    hide Told, Undecodable, Heard, Untrack, Unshelve, Bounded;
    match e
    case Respond(id, _) => UntrackBounded(s.st, id, o);
    case RespondLate(id, _) => UnshelveBounded(s.st, id, o);
    case _ =>
  }

  lemma EndLimits(s: System, e: EndEvent, o: Options)
    requires ValidOptions(o) && EndApplies(s, e) && Bounded(s.st, o)
    ensures Bounded(NextEnd(s, e).st, o)
  {
    match e
    case RunFail => DrainBounded(s.st, Failed, o);
    case CloseStart => DrainBounded(s.st, if s.st.phase == Failed then Failed else Closing, o);
    case _ =>
  }

  // ----- Negotiation and the frames it permits -----

  ghost predicate HandshakeOk(s: System, o: Options) {
    && (s.st.phase == AwaitingHello || s.st.phase == HelloInFlight ==> s.st.negotiated.None?)
    && (s.st.phase == Ready ==> s.st.negotiated.Some?)
    && (s.st.negotiated.Some? ==>
          Agreed(s.st.negotiated.value, o) && s.st.enabled == s.st.negotiated.value.result.enabled)
    && (!s.attempt.NoAttempt? ==> ValidOffer(s.attempt.offer) && s.st.phase != AwaitingHello && s.st.phase != Ready)
  }

  ghost predicate Agreed(n: Negotiated, o: Options) {
    ValidOffer(n.offer) && ValidResult(n.offer, n.result, o.transport)
  }

  /** Once something is negotiated it never changes. */
  ghost predicate Fixed(s: System, t: System) {
    s.st.negotiated.Some? ==> t.st.negotiated == s.st.negotiated && t.st.enabled == s.st.enabled
  }

  lemma HelloHandshake(s: System, e: HelloEvent, o: Options)
    requires ValidOptions(o) && HelloApplies(s, e) && Permitted(s, Hello(e), o) && HandshakeOk(s, o)
    ensures HandshakeOk(NextHello(s, e), o) && Fixed(s, NextHello(s, e))
  {
  }

  lemma EndHandshake(s: System, e: EndEvent, o: Options)
    requires EndApplies(s, e) && HandshakeOk(s, o) && (s.closeStarted ==> Over(s.st.phase))
    ensures HandshakeOk(NextEnd(s, e), o) && Fixed(s, NextEnd(s, e))
  {
  }

  /** Before negotiation only hello may be on its way; afterwards only what the enabled features
      permit. */
  ghost predicate KindOk(st: State, kind: FrameKind) {
    match kind
    case HelloFrame => true
    case RequestFrame(call) => st.negotiated.Some? && CheckFeatures(call, st.enabled).Allowed?
    case AutoCancel(_) => st.negotiated.Some? && RequestControl in st.enabled
  }

  /** Every frame sent, about to be sent, or prepared by a pump is permitted in `st`. */
  ghost predicate FramesOk(s: System, st: State) {
    && (forall i :: 0 <= i < |s.frames| ==> KindOk(st, s.frames[i].kind))
    && (forall id :: id in s.sending ==> KindOk(st, s.sending[id]))
    && (forall t :: t in s.pumps ==> KindOk(st, AutoCancel(t)))
  }

  lemma HelloFrames(s: System, e: HelloEvent)
    requires HelloApplies(s, e) && FramesOk(s, s.st)
    ensures FramesOk(NextHello(s, e), s.st)
  {
  }

  lemma CallFrames(s: System, e: CallEvent, o: Options)
    requires ValidOptions(o) && CallApplies(s, e) && Permitted(s, Calls(e), o) && HandshakeOk(s, o)
    requires FramesOk(s, s.st)
    ensures FramesOk(NextCall(s, e), s.st)
  {
    match e
    case Begin(_) =>
    case BeginOversize(_) =>
    case HandToWriter(_) =>
    case HandFailed(_) =>
  }

  lemma PumpFrames(s: System, e: PumpEvent, o: Options)
    requires ValidOptions(o) && PumpApplies(s, e) && Permitted(s, Pumps(e), o) && HandshakeOk(s, o)
    requires FramesOk(s, s.st)
    ensures FramesOk(NextPump(s, e), s.st)
  {
    match e
    case Prepare(_) =>
    case Broken(_) =>
    case Gone(_) =>
    case Check(_) =>
    case Restore(_, _) =>
    case SendCancel(_) =>
  }

  /** Negotiating never makes a frame that was permitted inadmissible. */
  lemma FramesStayOk(s: System, t: System)
    requires FramesOk(t, s.st) && Fixed(s, t)
    ensures FramesOk(t, t.st)
  {
  }

  // ----- Callers -----

  /** The caller itself gives the request up in this event. */
  predicate GivesUp(s: System, e: Event, id: nat) {
    || e == Calls(HandFailed(id))
    || e == GiveUp(Abandon(id))
    || e == GiveUp(AbandonOverflow(id))
    || (e == Hello(HelloUnsent) && s.attempt.Waiting? && s.attempt.id == id)
  }

  predicate Waits(s: System, id: nat) { id in s.st.pending && s.st.pending[id].sender }

  /** Waiting, about to be told, or told. */
  predicate InCare(s: System, id: nat) { Waits(s, id) || id in s.telling || Heard(s.told, id) != [] }

  /** No caller is forgotten, unless it gives its own request up. */
  ghost predicate Served(s: System, t: System, id: nat) {
    InCare(s, id) ==> InCare(t, id)
  }

  lemma HelloTells(s: System, e: HelloEvent, id: nat)
    requires HelloApplies(s, e) && !GivesUp(s, Hello(e), id) && IdOk(s, s.st.nextRequest)
    ensures Served(s, NextHello(s, e), id)
  {
  }

  lemma CallTells(s: System, e: CallEvent, id: nat)
    requires CallApplies(s, e) && !GivesUp(s, Calls(e), id) && IdOk(s, s.st.nextRequest)
    ensures Served(s, NextCall(s, e), id)
  {
  }

  lemma GiveUpTells(s: System, e: GiveUpEvent, id: nat)
    requires GiveUpApplies(s, e) && !GivesUp(s, GiveUp(e), id)
    ensures Served(s, NextGiveUp(s, e), id)
  {
  }

  lemma PumpTells(s: System, e: PumpEvent, id: nat)
    requires PumpApplies(s, e) && (e.Restore? ==> CancelOk(s, e.target)) && IdOk(s, s.st.nextRequest)
    ensures Served(s, NextPump(s, e), id)
  {
  }

  lemma ReaderTells(s: System, e: ReaderEvent, id: nat)
    requires ReaderApplies(s, e)
    ensures Served(s, NextReader(s, e), id)
  {
    hide Heard;
    if e.Tell? {
      OneMoreTelling(s.told, Telling(e.id, s.telling[e.id]), id);
    }
  }

  /** A failure or a close takes everybody out who waits, to be told that the client is over. */
  lemma EndTells(s: System, e: EndEvent, id: nat)
    requires EndApplies(s, e)
    ensures Served(s, NextEnd(s, e), id)
    ensures e.RunFail? || e.CloseStart? ==>
              var t := NextEnd(s, e);
              && t.st.pending == map[] && t.st.abandoned == map[] && Over(t.st.phase)
              && (Waits(s, id) ==> id in t.telling && t.telling[id] == ClientOver)
  {
    hide Heard;
  }

  /** What a caller hears is settled: it is about to be told just this, or was told just this. */
  predicate Destined(s: System, id: nat, outcome: Outcome) {
    || (id in s.telling && s.telling[id] == outcome && Heard(s.told, id) == [])
    || (id !in s.telling && Heard(s.told, id) == [outcome])
  }

  predicate SameTellings(s: System, t: System) { t.telling == s.telling && t.told == s.told }

  lemma HelloSameTellings(s: System, e: HelloEvent)
    requires HelloApplies(s, e)
    ensures SameTellings(s, NextHello(s, e))
  {
  }

  lemma OthersSameTellings(s: System, e: Event)
    requires Applies(s, e) && (e.Calls? || e.GiveUp? || e.Pumps?)
    ensures SameTellings(s, Next(s, e))
  {
  }

  lemma ReaderKeepsDestined(s: System, e: ReaderEvent, id: nat, outcome: Outcome)
    requires ReaderApplies(s, e) && IdOk(s, id) && Destined(s, id, outcome)
    ensures Destined(NextReader(s, e), id, outcome)
  {
    hide Heard, Told, Undecodable;
    if e.Tell? {
      OneMoreTelling(s.told, Telling(e.id, s.telling[e.id]), id);
    }
  }

  lemma EndKeepsDestined(s: System, e: EndEvent, id: nat, outcome: Outcome)
    requires EndApplies(s, e) && IdOk(s, id) && Destined(s, id, outcome)
    ensures Destined(NextEnd(s, e), id, outcome)
  {
    hide Heard;
  }

  lemma StepKeepsDestined(s: System, e: Event, id: nat, outcome: Outcome)
    requires Applies(s, e) && IdOk(s, id) && Destined(s, id, outcome)
    ensures Destined(Next(s, e), id, outcome)
  {
    hide Heard;
    match e
    case Hello(h) => HelloSameTellings(s, h);
    case Reader(r) => ReaderKeepsDestined(s, r, id, outcome);
    case Ends(n) => EndKeepsDestined(s, n, id, outcome);
    case _ => OthersSameTellings(s, e);
  }

  // ----- Every run -----

  ghost predicate Inv(s: System, o: Options)
    requires ValidOptions(o)
  {
    && (forall id :: IdOk(s, id))
    && (forall target :: CancelOk(s, target))
    && Bounded(s.st, o)
    && HandshakeOk(s, o)
    && FramesOk(s, s.st)
  }

  lemma StartInv(o: Options)
    requires ValidOptions(o)
    ensures Inv(START, o)
  {
    assert Applications(map[]) == {};
  }

  /** One step: the invariant, and what the step does to any one id. */
  lemma StepIds(s: System, e: Event, id: nat)
    requires Applies(s, e) && (forall i :: IdOk(s, i)) && (forall i :: CancelOk(s, i))
    ensures IdOk(Next(s, e), id) && CancelOk(Next(s, e), id) && Forward(s, Next(s, e), id)
    ensures !GivesUp(s, e, id) ==> Served(s, Next(s, e), id)
  {
    assert IdOk(s, id) && IdOk(s, s.st.nextRequest) && CancelOk(s, id);
    match e
    case Hello(h) =>
      HelloKeepsIds(s, h, id);
      HelloKeepsCancels(s, h, id);
      HelloForward(s, h, id);
      if !GivesUp(s, e, id) { HelloTells(s, h, id); }
    case Calls(c) =>
      CallKeepsIds(s, c, id);
      CallKeepsCancels(s, c, id);
      CallForward(s, c, id);
      if !GivesUp(s, e, id) { CallTells(s, c, id); }
    case GiveUp(g) =>
      GiveUpKeepsIds(s, g, id);
      GiveUpKeepsCancels(s, g, id);
      GiveUpForward(s, g, id);
      if !GivesUp(s, e, id) { GiveUpTells(s, g, id); }
    case Pumps(p) =>
      PumpKeepsIds(s, p, id);
      PumpKeepsCancels(s, p, id);
      PumpForward(s, p, id);
      if p.Restore? { assert CancelOk(s, p.target); }
      PumpTells(s, p, id);
    case Reader(r) =>
      ReaderKeepsIds(s, r, id);
      ReaderKeepsCancels(s, r, id);
      ReaderForward(s, r, id);
      ReaderTells(s, r, id);
    case Ends(n) =>
      EndKeepsIds(s, n, id);
      EndKeepsCancels(s, n, id);
      EndForward(s, n, id);
      EndTells(s, n, id);
  }

  lemma StepLimits(s: System, e: Event, o: Options)
    requires ValidOptions(o) && Possible(s, e, o) && Inv(s, o)
    ensures Bounded(Next(s, e).st, o)
  {
    assert IdOk(s, s.st.nextRequest);
    match e
    case Hello(h) => HelloLimits(s, h, o);
    case Calls(c) => CallLimits(s, c, o);
    case GiveUp(g) =>
      assert IdOk(s, g.id);
      GiveUpLimits(s, g, o);
    case Pumps(p) =>
      if p.Restore? { assert CancelOk(s, p.target); }
      PumpLimits(s, p, o);
    case Reader(r) => ReaderLimits(s, r, o);
    case Ends(n) => EndLimits(s, n, o);
  }

  lemma StepFrames(s: System, e: Event, o: Options)
    requires ValidOptions(o) && Possible(s, e, o)
    requires HandshakeOk(s, o) && FramesOk(s, s.st) && IdOk(s, 0)
    ensures HandshakeOk(Next(s, e), o) && Fixed(s, Next(s, e)) && FramesOk(Next(s, e), s.st)
  {
    match e
    case Hello(h) =>
      HelloHandshake(s, h, o);
      HelloFrames(s, h);
    case Calls(c) => CallFrames(s, c, o);
    case GiveUp(g) =>
    case Pumps(p) => PumpFrames(s, p, o);
    case Reader(r) =>
    case Ends(n) => EndHandshake(s, n, o);
  }

  lemma StepInv(s: System, e: Event, o: Options)
    requires ValidOptions(o) && Possible(s, e, o) && Inv(s, o)
    ensures Inv(Next(s, e), o) && Fixed(s, Next(s, e))
  {
    var t := Next(s, e);
    forall id
      ensures IdOk(t, id) && CancelOk(t, id)
    {
      StepIds(s, e, id);
    }
    StepLimits(s, e, o);
    assert IdOk(s, 0);
    StepFrames(s, e, o);
    FramesStayOk(s, t);
  }

  /** Every state of every run satisfies the invariant. */
  lemma {:induction false} RunInv(trace: seq<System>, events: seq<Event>, o: Options, i: nat)
    requires ValidOptions(o) && Run(trace, events, o) && i < |trace|
    ensures Inv(trace[i], o)
  {
    if i == 0 {
      StartInv(o);
    } else {
      RunInv(trace, events, o, i - 1);
      StepInv(trace[i - 1], events[i - 1], o);
    }
  }

  /** What one step of a run does to one id, without its event. */
  ghost predicate Moves(s: System, t: System, id: nat) {
    IdOk(s, id) && IdOk(s, s.st.nextRequest) && IdOk(t, id) && Forward(s, t, id)
  }

  lemma RunMoves(trace: seq<System>, events: seq<Event>, o: Options, i: nat, id: nat)
    requires ValidOptions(o) && Run(trace, events, o) && i + 1 < |trace|
    ensures Moves(trace[i], trace[i + 1], id)
    ensures !GivesUp(trace[i], events[i], id) ==> Served(trace[i], trace[i + 1], id)
  {
    RunInv(trace, events, o, i);
    StepIds(trace[i], events[i], id);
    assert IdOk(trace[i], id) && IdOk(trace[i], trace[i].st.nextRequest);
  }

  // ----- The promises of the tracker, for every run -----

  /** Done with: tracked once, and in no table any more. */
  ghost predicate Retired(s: System, id: nat) {
    id in s.inserted && id !in s.st.pending && id !in s.st.abandoned
  }

  /** Every id ever tracked is in exactly one place, one whose caller is being told or was told is
      retired, and once the client is over nothing is tracked. */
  lemma ExactlyOnePlace(trace: seq<System>, events: seq<Event>, o: Options, i: nat, id: nat)
    requires ValidOptions(o) && Run(trace, events, o) && i < |trace|
    ensures var s := trace[i];
            && (id in s.st.pending ==> id in s.inserted && id !in s.st.abandoned)
            && (id in s.st.abandoned ==> id in s.inserted)
            && (id in s.telling || Heard(s.told, id) != [] ==> Retired(s, id))
            && (id in s.inserted ==> id < s.st.nextRequest)
            && (Over(s.st.phase) ==> id !in s.st.pending && id !in s.st.abandoned)
  {
    RunInv(trace, events, o, i);
    assert IdOk(trace[i], id);
  }

  lemma {:induction false} OneTellingCounts(told: seq<Telling>, a: nat)
    requires a < |told|
    ensures |Heard(told, told[a].id)| >= 1
    decreases |told|
  {
    if a < |told| - 1 {
      OneTellingCounts(told[..|told| - 1], a);
    }
  }

  lemma {:induction false} TwoTellingsCount(told: seq<Telling>, a: nat, b: nat)
    requires a < b < |told| && told[a].id == told[b].id
    ensures |Heard(told, told[a].id)| >= 2
    decreases |told|
  {
    var init := told[..|told| - 1];
    if b < |told| - 1 {
      TwoTellingsCount(init, a, b);
    } else {
      OneTellingCounts(init, a);
    }
  }

  /** No caller is ever told twice, whoever tells it and whatever it is told. */
  lemma ToldOnce(trace: seq<System>, events: seq<Event>, o: Options, i: nat, a: nat, b: nat)
    requires ValidOptions(o) && Run(trace, events, o) && i < |trace| && a < b < |trace[i].told|
    ensures trace[i].told[a].id != trace[i].told[b].id
  {
    var s := trace[i];
    RunInv(trace, events, o, i);
    assert IdOk(s, s.told[a].id);
    if s.told[a].id == s.told[b].id {
      TwoTellingsCount(s.told, a, b);
    }
  }

  /** A caller that was told is not about to be told again, and its request is tracked nowhere. */
  lemma ToldIsDone(trace: seq<System>, events: seq<Event>, o: Options, i: nat, a: nat)
    requires ValidOptions(o) && Run(trace, events, o) && i < |trace| && a < |trace[i].told|
    ensures trace[i].told[a].id !in trace[i].telling && Retired(trace[i], trace[i].told[a].id)
  {
    var s := trace[i];
    RunInv(trace, events, o, i);
    assert IdOk(s, s.told[a].id);
    OneTellingCounts(s.told, a);
  }

  lemma {:induction false} FinalAlong(trace: seq<System>, i: nat, j: nat, id: nat)
    requires i <= j < |trace| && forall k :: i <= k < j ==> Moves(trace[k], trace[k + 1], id)
    ensures Retired(trace[i], id) ==> Retired(trace[j], id)
    ensures trace[i].told <= trace[j].told
    decreases j
  {
    if i < j {
      FinalAlong(trace, i, j - 1, id);
      assert Moves(trace[j - 1], trace[j - 1 + 1], id);
    }
  }

  /** Retirement is final, and what callers heard is never taken back. */
  lemma RetiredForGood(trace: seq<System>, events: seq<Event>, o: Options, i: nat, j: nat, id: nat)
    requires ValidOptions(o) && Run(trace, events, o) && i <= j < |trace|
    ensures Retired(trace[i], id) ==> Retired(trace[j], id)
    ensures trace[i].told <= trace[j].told
  {
    forall k | i <= k < j
      ensures Moves(trace[k], trace[k + 1], id)
    {
      RunMoves(trace, events, o, k, id);
    }
    FinalAlong(trace, i, j, id);
  }

  lemma {:induction false} ServedAlong(trace: seq<System>, i: nat, j: nat, id: nat)
    requires i <= j < |trace| && InCare(trace[i], id)
    requires forall k :: i <= k < j ==> Served(trace[k], trace[k + 1], id)
    ensures InCare(trace[j], id)
    decreases j
  {
    if i < j {
      ServedAlong(trace, i, j - 1, id);
      assert Served(trace[j - 1], trace[j - 1 + 1], id);
    }
  }

  function One(b: bool): nat { if b then 1 else 0 }

  /** A caller that waits and does not give its request up is, at any later time, in exactly one of
      three places: still waiting, about to be told, or told. Once the client is over it has been told
      exactly when nobody is about to tell it. */
  lemma CallersAreServed(trace: seq<System>, events: seq<Event>, o: Options, i: nat, j: nat, id: nat)
    requires ValidOptions(o) && Run(trace, events, o) && i <= j < |trace| && Waits(trace[i], id)
    requires forall k :: i <= k < j ==> !GivesUp(trace[k], events[k], id)
    ensures var s := trace[j];
            && One(Waits(s, id)) + One(id in s.telling) + |Heard(s.told, id)| == 1
            && (Over(s.st.phase) ==> (|Heard(s.told, id)| == 1 <==> id !in s.telling))
  {
    forall k | i <= k < j
      ensures Served(trace[k], trace[k + 1], id)
    {
      RunMoves(trace, events, o, k, id);
    }
    ServedAlong(trace, i, j, id);
    RunInv(trace, events, o, j);
    assert IdOk(trace[j], id);
  }

  lemma {:induction false} DestinedAlong(
    trace: seq<System>, events: seq<Event>, o: Options, i: nat, j: nat, id: nat, outcome: Outcome)
    requires ValidOptions(o) && Run(trace, events, o) && i <= j < |trace| && Destined(trace[i], id, outcome)
    ensures Destined(trace[j], id, outcome)
    decreases j
  {
    hide Destined, Next, Inv, Permitted;
    if i < j {
      DestinedAlong(trace, events, o, i, j - 1, id, outcome);
      RunIdOk(trace, events, o, j - 1, id);
      StepKeepsDestined(trace[j - 1], events[j - 1], id, outcome);
    }
  }

  lemma RunIdOk(trace: seq<System>, events: seq<Event>, o: Options, i: nat, id: nat)
    requires ValidOptions(o) && Run(trace, events, o) && i < |trace|
    ensures IdOk(trace[i], id)
  {
    RunInv(trace, events, o, i);
  }

  /** A caller that waits when the client fails or closes hears that the client is over, and nothing else. */
  lemma DrainedHearTheEnd(trace: seq<System>, events: seq<Event>, o: Options, i: nat, j: nat, id: nat)
    requires ValidOptions(o) && Run(trace, events, o) && i < j < |trace| && Waits(trace[i], id)
    requires events[i] == Ends(RunFail) || events[i] == Ends(CloseStart)
    ensures Destined(trace[j], id, ClientOver)
  {
    RunIdOk(trace, events, o, i, id);
    EndTells(trace[i], events[i].n, id);
    DestinedAlong(trace, events, o, i + 1, j, id, ClientOver);
  }

  /** A caller whose id is answered hears what that answer says, and nothing else. */
  lemma AnsweredHearTheAnswer(trace: seq<System>, events: seq<Event>, o: Options, i: nat, j: nat, id: nat, reply: Reply)
    requires ValidOptions(o) && Run(trace, events, o) && i < j < |trace| && Waits(trace[i], id)
    requires events[i] == Reader(Respond(id, reply))
    ensures Destined(trace[j], id, Told(trace[i].st.pending[id], reply))
  {
    RunIdOk(trace, events, o, i, id);
    DestinedAlong(trace, events, o, i + 1, j, id, Told(trace[i].st.pending[id], reply));
  }

  lemma {:induction false} TwoCancelsCount(frames: seq<Frame>, a: nat, b: nat, target: nat)
    requires a < b < |frames| && frames[a].kind == frames[b].kind == AutoCancel(target)
    ensures CancelsSent(frames, target) >= 2
    decreases |frames|
  {
    var init := frames[..|frames| - 1];
    if b < |frames| - 1 {
      TwoCancelsCount(init, a, b, target);
    } else {
      OneCancelCounts(init, a, target);
    }
  }

  lemma {:induction false} OneCancelCounts(frames: seq<Frame>, a: nat, target: nat)
    requires a < |frames| && frames[a].kind == AutoCancel(target)
    ensures CancelsSent(frames, target) >= 1
    decreases |frames|
  {
    if a < |frames| - 1 {
      OneCancelCounts(frames[..|frames| - 1], a, target);
    }
  }

  /** At most one automatic cancel is ever sent for a request. */
  lemma OneCancelEach(trace: seq<System>, events: seq<Event>, o: Options, i: nat, a: nat, b: nat)
    requires ValidOptions(o) && Run(trace, events, o) && i < |trace| && a < b < |trace[i].frames|
    requires trace[i].frames[a].kind.AutoCancel?
    ensures trace[i].frames[b].kind != trace[i].frames[a].kind
  {
    var s := trace[i];
    var target := s.frames[a].kind.target;
    RunInv(trace, events, o, i);
    assert CancelOk(s, target);
    if s.frames[b].kind == s.frames[a].kind {
      TwoCancelsCount(s.frames, a, b, target);
    }
  }

  /** Once it is sent, its target is neither on the backlog nor in a pump, and no longer pending. */
  lemma SentCancelIsDone(trace: seq<System>, events: seq<Event>, o: Options, i: nat, a: nat)
    requires ValidOptions(o) && Run(trace, events, o) && i < |trace| && a < |trace[i].frames|
    requires trace[i].frames[a].kind.AutoCancel?
    ensures var s, target := trace[i], trace[i].frames[a].kind.target;
            target !in s.st.cancelBacklog && target !in s.pumps && target !in s.st.pending
  {
    var s := trace[i];
    var target := s.frames[a].kind.target;
    RunInv(trace, events, o, i);
    assert CancelOk(s, target);
    OneCancelCounts(s.frames, a, target);
  }

  /** Counters and tables stay within their limits, and the backlog never holds a stale target. */
  lemma LimitsHold(trace: seq<System>, events: seq<Event>, o: Options, i: nat)
    requires ValidOptions(o) && Run(trace, events, o) && i < |trace|
    ensures var s := trace[i].st;
            && |s.pending| <= o.maxPending && |s.abandoned| <= o.maxPending
            && s.applicationPending == |Applications(s.pending)| <= MaxApplication(o)
            && s.cancelBacklog <= s.abandoned.Keys
  {
    RunInv(trace, events, o, i);
    forall t | t in trace[i].st.cancelBacklog
      ensures t in trace[i].st.abandoned
    {
      assert IdOk(trace[i], t);
    }
  }

  /** Every frame ever handed to the writer is hello, or a request whose features were negotiated:
      offered by this client and permitted at the selected minor. */
  lemma FramesWithinOffer(trace: seq<System>, events: seq<Event>, o: Options, i: nat, k: nat)
    requires ValidOptions(o) && Run(trace, events, o) && i < |trace| && k < |trace[i].frames|
    requires !trace[i].frames[k].kind.HelloFrame?
    ensures var kind := trace[i].frames[k].kind;
            var needed := if kind.RequestFrame? then RequiredFeatures(kind.call) else {RequestControl};
            && trace[i].st.negotiated.Some?
            && var n := trace[i].st.negotiated.value;
            forall f :: f in needed ==>
              f in n.offer.required + n.offer.optional && MinimumMinor(f) <= n.result.selected.minor <= SUPPORTED.minor
  {
    RunInv(trace, events, o, i);
    var s := trace[i];
    var n := s.st.negotiated.value;
    match s.frames[k].kind
    case RequestFrame(call) => AllowedCallsStayWithinOffer(n.offer, n.result, o.transport, call);
    case AutoCancel(_) =>
  }

  /** Until the client is ready nothing but hello is handed to the writer. */
  lemma OnlyHelloBeforeReady(trace: seq<System>, events: seq<Event>, o: Options, i: nat, k: nat)
    requires ValidOptions(o) && Run(trace, events, o) && i < |trace| && k < |trace[i].frames|
    requires trace[i].st.phase == AwaitingHello || trace[i].st.phase == HelloInFlight
    ensures trace[i].frames[k].kind.HelloFrame?
  {
    RunInv(trace, events, o, i);
    assert KindOk(trace[i].st, trace[i].frames[k].kind);
  }

  /** The phase never moves backwards except from a hello attempt to waiting for one. */
  lemma PhaseOrder(trace: seq<System>, events: seq<Event>, o: Options, i: nat)
    requires ValidOptions(o) && Run(trace, events, o) && i + 1 < |trace|
    ensures var p, q := trace[i].st.phase, trace[i + 1].st.phase;
            Rank(p) <= Rank(q) || (p == HelloInFlight && q == AwaitingHello)
  {
    RunMoves(trace, events, o, i, 0);
  }

  /** What was negotiated stays: no later state of a run has another feature set. */
  lemma {:induction false} FeaturesFixed(trace: seq<System>, events: seq<Event>, o: Options, i: nat, j: nat)
    requires ValidOptions(o) && Run(trace, events, o) && i <= j < |trace|
    requires trace[i].st.negotiated.Some?
    ensures trace[j].st.negotiated == trace[i].st.negotiated && trace[j].st.enabled == trace[i].st.enabled
    decreases j
  {
    hide Inv, Next, Possible;
    if i < j {
      FeaturesFixed(trace, events, o, i, j - 1);
      RunInv(trace, events, o, j - 1);
      StepInv(trace[j - 1], events[j - 1], o);
    }
  }

  lemma {:induction false} DueAlong(trace: seq<System>, i: nat, j: nat)
    requires i <= j < |trace| && forall k :: i <= k < j ==> Moves(trace[k], trace[k + 1], 0)
    requires trace[i].dueFailures > 0
    ensures trace[j].dueFailures > 0 || trace[j].st.phase == Failed || trace[j].st.phase == Closed
    decreases j
  {
    if i < j {
      DueAlong(trace, i, j - 1);
      assert Moves(trace[j - 1], trace[j - 1 + 1], 0);
    }
  }

  /** A response to an id that is not tracked, be it a second one or one to an unknown id, makes a
      failure due in an open client; from then on the failure is due or the client has failed. */
  lemma StrayResponseFails(trace: seq<System>, events: seq<Event>, o: Options, i: nat, j: nat, id: nat)
    requires ValidOptions(o) && Run(trace, events, o) && i < j < |trace|
    requires events[i] == Reader(RespondUnknown(id))
    ensures trace[j].dueFailures > 0 || trace[j].st.phase == Failed || trace[j].st.phase == Closed
  {
    forall k | i + 1 <= k < j
      ensures Moves(trace[k], trace[k + 1], 0)
    {
      RunMoves(trace, events, o, k, 0);
    }
    DueAlong(trace, i + 1, j);
  }

  /** No other event is possible for such a response while the client is open. */
  lemma StrayResponseIsUnknown(trace: seq<System>, events: seq<Event>, o: Options, i: nat, id: nat)
    requires ValidOptions(o) && Run(trace, events, o) && i < |trace|
    requires id !in trace[i].inserted || Retired(trace[i], id)
    requires trace[i].st.phase != Closing && trace[i].st.phase != Closed
    ensures Track(trace[i].st, id).Unknown?
  {
    RunInv(trace, events, o, i);
    assert IdOk(trace[i], id);
  }
}
