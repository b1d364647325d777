/**
 Who may use one Android device at a time.

 A device has a fair read/write gate and a fair semaphore with four capture slots. An observation takes
 a slot and then the read side; an Action takes the write side and then, for each of its two snapshots, a
 slot; connecting, disconnecting and health checks take the write side only. The step system below
 interleaves any number of such operations, including ones that fail or are cancelled while they wait.
 */
module DeviceGate {
  const CAPTURE_SLOTS: nat := 4

  datatype Kind = Observer | Action | Lifecycle

  datatype Stage =
    | Idle | Done
    // an observation
    | WantSlot | Slotted | WantRead | Reading | Leaving
    // connect, disconnect, health
    | WantWrite | Managing
    // an Action, from holding the gate on
    | Checking | WantBefore | Before | Mutating | WantAfter | After | Closing

  datatype Op = Op(kind: Kind, stage: Stage)

  datatype State = State(
    ops: seq<Op>,
    slots: int,           // free permits
    readers: int,
    writer: bool,
    slotQueue: seq<nat>,  // first come, first served
    gateQueue: seq<nat>)

  datatype Event =
    | Start(id: nat)
    | GrantSlot
    | GrantGate
    | Advance(id: nat)    // the operation itself goes on
    | Fail(id: nat)       // the operation returns early with an error
    | Cancel(id: nat)     // an operation stops waiting
    | Adb(id: nat)        // an ADB command, or a change of the lifecycle record

  predicate AwaitsSlot(g: Stage) { g.WantSlot? || g.WantBefore? || g.WantAfter? }
  predicate AwaitsGate(g: Stage) { g.WantRead? || g.WantWrite? }
  predicate Runs(g: Stage) { !g.Idle? && !g.Done? && !AwaitsSlot(g) && !AwaitsGate(g) }
  predicate UsesDevice(g: Stage) { g.Reading? || g.Managing? || g.Before? || g.Mutating? || g.After? }

  predicate StageFits(op: Op) {
    match op.stage
    case Idle | Done => true
    case WantSlot | Slotted | WantRead | Reading | Leaving => op.kind.Observer?
    case WantWrite => !op.kind.Observer?
    case Managing => op.kind.Lifecycle?
    case Checking | WantBefore | Before | Mutating | WantAfter | After | Closing => op.kind.Action?
  }

  // ----- What an operation does at each of its steps -----

  datatype Edit = Keep | Push | Leave
  datatype GateEdit = KeepGate | TakeWrite | GiveWrite

  /** The stage an operation moves to, and what it takes or releases on the way. */
  datatype Effect = Effect(to: Stage, slots: int, readers: int, gate: GateEdit, slotQueue: Edit, gateQueue: Edit)

  predicate Can(op: Op, e: Event) {
    var g := op.stage;
    match e
    case Start(_) => g.Idle?
    case GrantSlot => AwaitsSlot(g)
    case GrantGate => AwaitsGate(g)
    case Advance(_) => Runs(g)
    case Fail(_) => g.Slotted? || g.Checking? || g.Before? || g.Mutating? || g.After?
    case Cancel(_) => AwaitsSlot(g) || AwaitsGate(g)
    case Adb(_) => UsesDevice(g)
  }

  function OnStart(op: Op): Effect {
    if op.kind.Observer? then Effect(WantSlot, 0, 0, KeepGate, Push, Keep)
    else Effect(WantWrite, 0, 0, KeepGate, Keep, Push)
  }

  function OnGrantGate(op: Op): Effect {
    if op.stage.WantRead? then Effect(Reading, 0, 1, KeepGate, Keep, Leave)
    else Effect(if op.kind.Action? then Checking else Managing, 0, 0, TakeWrite, Keep, Leave)
  }

  function OnGrantSlot(op: Op): Effect {
    Effect(if op.stage.WantSlot? then Slotted else if op.stage.WantBefore? then Before else After,
           -1, 0, KeepGate, Leave, Keep)
  }

  function OnAdvance(op: Op): Effect
    requires Runs(op.stage)
  {
    match op.stage
    case Slotted => Effect(WantRead, 0, 0, KeepGate, Keep, Push)
    case Reading => Effect(Leaving, 0, -1, KeepGate, Keep, Keep)
    case Leaving => Effect(Done, 1, 0, KeepGate, Keep, Keep)
    case Managing => Effect(Done, 0, 0, GiveWrite, Keep, Keep)
    case Checking => Effect(WantBefore, 0, 0, KeepGate, Push, Keep)
    case Before => Effect(Mutating, 1, 0, KeepGate, Keep, Keep)
    case Mutating => Effect(WantAfter, 0, 0, KeepGate, Push, Keep)
    case After => Effect(Closing, 1, 0, KeepGate, Keep, Keep)
    case Closing => Effect(Done, 0, 0, GiveWrite, Keep, Keep)
  }

  function OnFail(op: Op): Effect {
    Effect(if op.stage.Slotted? then Leaving else Closing,
           if op.stage.Before? || op.stage.After? then 1 else 0, 0, KeepGate, Keep, Keep)
  }

  function OnCancel(op: Op): Effect
    requires AwaitsSlot(op.stage) || AwaitsGate(op.stage)
  {
    match op.stage
    case WantSlot => Effect(Done, 0, 0, KeepGate, Leave, Keep)
    case WantRead => Effect(Leaving, 0, 0, KeepGate, Keep, Leave)
    case WantWrite => Effect(Done, 0, 0, KeepGate, Keep, Leave)
    case WantBefore | WantAfter => Effect(Closing, 0, 0, KeepGate, Leave, Keep)
  }

  function Does(op: Op, e: Event): Effect
    requires Can(op, e)
  {
    match e
    case Start(_) => OnStart(op)
    case GrantSlot => OnGrantSlot(op)
    case GrantGate => OnGrantGate(op)
    case Advance(_) => OnAdvance(op)
    case Fail(_) => OnFail(op)
    case Cancel(_) => OnCancel(op)
    case Adb(_) => Effect(op.stage, 0, 0, KeepGate, Keep, Keep)
  }

  // ----- The device -----

  /** Grants go to the head of the queue. */
  function Mover(s: State, e: Event): nat {
    match e
    case GrantSlot => if s.slotQueue == [] then |s.ops| else s.slotQueue[0]
    case GrantGate => if s.gateQueue == [] then |s.ops| else s.gateQueue[0]
    case Start(id) => id
    case Advance(id) => id
    case Fail(id) => id
    case Cancel(id) => id
    case Adb(id) => id
  }

  predicate Possible(s: State, e: Event) {
    var id := Mover(s, e);
    && id < |s.ops| && Can(s.ops[id], e)
    && (e.GrantSlot? ==> s.slots > 0)
    && (e.GrantGate? ==> !s.writer && (s.ops[id].stage.WantWrite? ==> s.readers == 0))
  }

  function Without(queue: seq<nat>, id: nat): seq<nat> {
    if queue == [] then [] else if queue[0] == id then queue[1..] else [queue[0]] + Without(queue[1..], id)
  }

  function Edited(queue: seq<nat>, edit: Edit, id: nat): seq<nat> {
    match edit
    case Keep => queue
    case Push => queue + [id]
    case Leave => Without(queue, id)
  }

  function Apply(s: State, id: nat, f: Effect): State
    requires id < |s.ops|
  {
    State(s.ops[id := s.ops[id].(stage := f.to)], s.slots + f.slots, s.readers + f.readers,
          if f.gate.KeepGate? then s.writer else f.gate.TakeWrite?,
          Edited(s.slotQueue, f.slotQueue, id), Edited(s.gateQueue, f.gateQueue, id))
  }

  function Next(s: State, e: Event): State
    requires Possible(s, e)
  {
    var id := Mover(s, e);
    Apply(s, id, Does(s.ops[id], e))
  }

  predicate Fresh(s: State) {
    && (forall op :: op in s.ops ==> op.stage.Idle?)
    && s.slots == CAPTURE_SLOTS && s.readers == 0 && !s.writer && s.slotQueue == [] && s.gateQueue == []
  }

  ghost predicate Run(trace: seq<State>, events: seq<Event>) {
    && |trace| == |events| + 1 && Fresh(trace[0])
    && forall i :: 0 <= i < |events| ==> Possible(trace[i], events[i]) && trace[i + 1] == Next(trace[i], events[i])
  }

  // ----- Counting operations -----

  datatype Mark = HoldsSlot | Captures | Reads | Writes | Waits | IsObserver

  predicate Has(op: Op, m: Mark) {
    var g := op.stage;
    match m
    case HoldsSlot => g.Slotted? || g.WantRead? || g.Reading? || g.Leaving? || g.Before? || g.After?
    case Captures => g.Reading? || g.Before? || g.After?
    case Reads => g.Reading?
    case Writes =>
      g.Managing? || g.Checking? || g.WantBefore? || g.Before? || g.Mutating? || g.WantAfter? || g.After? || g.Closing?
    case Waits => g.WantRead?
    case IsObserver => op.kind.Observer?
  }

  function One(b: bool): nat { if b then 1 else 0 }

  function Count(ops: seq<Op>, m: Mark): nat {
    if ops == [] then 0 else One(Has(ops[0], m)) + Count(ops[1..], m)
  }

  lemma {:induction false} CountUpdate(ops: seq<Op>, id: nat, op: Op, m: Mark)
    requires id < |ops|
    ensures Count(ops[id := op], m) + One(Has(ops[id], m)) == Count(ops, m) + One(Has(op, m))
  {
    if id == 0 {
      assert ops[id := op][1..] == ops[1..];
    } else {
      assert ops[id := op][1..] == ops[1..][id - 1 := op];
      CountUpdate(ops[1..], id - 1, op, m);
    }
  }

  lemma {:induction false} CountPositive(ops: seq<Op>, i: nat, m: Mark)
    requires i < |ops| && Has(ops[i], m)
    ensures Count(ops, m) >= 1
  {
    if i > 0 {
      CountPositive(ops[1..], i - 1, m);
    }
  }

  lemma {:induction false} CountTwo(ops: seq<Op>, i: nat, j: nat, m: Mark)
    requires i < j < |ops| && Has(ops[i], m) && Has(ops[j], m)
    ensures Count(ops, m) >= 2
  {
    if i == 0 {
      CountPositive(ops[1..], j - 1, m);
    } else {
      CountTwo(ops[1..], i - 1, j - 1, m);
    }
  }

  lemma {:induction false} CountNone(ops: seq<Op>, m: Mark)
    requires forall op :: op in ops ==> !Has(op, m)
    ensures Count(ops, m) == 0
  {
    if ops != [] {
      CountNone(ops[1..], m);
    }
  }

  ghost predicate Within(ops: seq<Op>, m: Mark, n: Mark) {
    forall i :: 0 <= i < |ops| && Has(ops[i], m) ==> Has(ops[i], n)
  }

  lemma {:induction false} CountWithin(ops: seq<Op>, m: Mark, n: Mark)
    requires Within(ops, m, n)
    ensures Count(ops, m) <= Count(ops, n)
  {
    if ops != [] {
      CountWithin(ops[1..], m, n);
    }
  }

  lemma {:induction false} CountSame(ops: seq<Op>, m: Mark, n: Mark, i: nat)
    requires Within(ops, m, n) && Count(ops, m) == Count(ops, n) && i < |ops| && Has(ops[i], n)
    ensures Has(ops[i], m)
  {
    CountWithin(ops[1..], m, n);
    if i > 0 {
      CountSame(ops[1..], m, n, i - 1);
    }
  }

  // ----- Invariants -----

  ghost predicate SlotsOk(s: State) {
    s.slots >= 0 && s.slots + Count(s.ops, HoldsSlot) == CAPTURE_SLOTS
  }

  /** Any number of readers or one writer. */
  ghost predicate GateOk(s: State) {
    && s.readers == Count(s.ops, Reads) && One(s.writer) == Count(s.ops, Writes)
    && (s.writer ==> s.readers == 0)
  }

  ghost predicate KindsOk(s: State) {
    forall i :: 0 <= i < |s.ops| ==> StageFits(s.ops[i])
  }

  ghost predicate NoRepeat(queue: seq<nat>) {
    forall i, j :: 0 <= i < j < |queue| ==> queue[i] != queue[j]
  }

  ghost predicate SlotPlace(s: State, id: nat) {
    id in s.slotQueue <==> id < |s.ops| && AwaitsSlot(s.ops[id].stage)
  }

  ghost predicate GatePlace(s: State, id: nat) {
    id in s.gateQueue <==> id < |s.ops| && AwaitsGate(s.ops[id].stage)
  }

  /** Each queue holds exactly the operations waiting for it, once each. */
  ghost predicate QueuesOk(s: State) {
    && NoRepeat(s.slotQueue) && NoRepeat(s.gateQueue)
    && (forall id :: SlotPlace(s, id)) && (forall id :: GatePlace(s, id))
  }

  ghost predicate Inv(s: State) {
    SlotsOk(s) && GateOk(s) && KindsOk(s) && QueuesOk(s)
  }

  lemma {:induction false} WithoutMembers(queue: seq<nat>, id: nat)
    requires NoRepeat(queue)
    ensures forall x :: x in Without(queue, id) <==> x in queue && x != id
  {
    if queue != [] {
      WithoutMembers(queue[1..], id);
      assert queue == [queue[0]] + queue[1..];
    }
  }

  lemma {:induction false} WithoutNoRepeat(queue: seq<nat>, id: nat)
    requires NoRepeat(queue)
    ensures NoRepeat(Without(queue, id))
  {
    if queue != [] && queue[0] != id {
      WithoutNoRepeat(queue[1..], id);
      WithoutMembers(queue[1..], id);
      var rest := Without(queue[1..], id);
      assert queue[0] !in rest;
      assert forall i :: 0 < i < |Without(queue, id)| ==> Without(queue, id)[i] == rest[i - 1];
    }
  }

  /** Place after an edit of a queue. */
  predicate EditFits(edit: Edit, before: bool, now: bool) {
    match edit
    case Keep => before == now
    case Push => !before && now
    case Leave => before && !now
  }

  /** An effect takes and releases what the stages on both sides say. */
  predicate Balanced(op: Op, f: Effect) {
    var to := op.(stage := f.to);
    && One(Has(to, HoldsSlot)) == One(Has(op, HoldsSlot)) - f.slots
    && One(Has(to, Reads)) == One(Has(op, Reads)) + f.readers
    && EditFits(match f.gate { case KeepGate => Keep case TakeWrite => Push case GiveWrite => Leave },
                Has(op, Writes), Has(to, Writes))
    && EditFits(f.slotQueue, AwaitsSlot(op.stage), AwaitsSlot(f.to))
    && EditFits(f.gateQueue, AwaitsGate(op.stage), AwaitsGate(f.to))
    && StageFits(to)
  }

  lemma AdvanceBalanced(op: Op)
    requires Runs(op.stage) && StageFits(op)
    ensures Balanced(op, OnAdvance(op))
  {
  }

  lemma CancelBalanced(op: Op)
    requires (AwaitsSlot(op.stage) || AwaitsGate(op.stage)) && StageFits(op)
    ensures Balanced(op, OnCancel(op))
  {
  }

  lemma StepsBalanced(op: Op, e: Event)
    requires Can(op, e) && StageFits(op)
    ensures Balanced(op, Does(op, e))
  {
    if e.Advance? {
      AdvanceBalanced(op);
    } else if e.Cancel? {
      CancelBalanced(op);
    }
  }

  lemma OnlyGrantsTake(op: Op, e: Event)
    requires Can(op, e)
    ensures Does(op, e).slots < 0 ==> e.GrantSlot?
    ensures Does(op, e).gate.TakeWrite? ==> e.GrantGate? && op.stage.WantWrite?
    ensures Does(op, e).readers > 0 ==> e.GrantGate?
  {
  }

  lemma SlotsKept(s: State, id: nat, f: Effect)
    requires SlotsOk(s) && id < |s.ops| && Balanced(s.ops[id], f)
    requires f.slots < 0 ==> s.slots > 0
    ensures SlotsOk(Apply(s, id, f))
  {
    CountUpdate(s.ops, id, s.ops[id].(stage := f.to), HoldsSlot);
  }

  lemma GateKept(s: State, id: nat, f: Effect)
    requires GateOk(s) && id < |s.ops| && Balanced(s.ops[id], f)
    requires f.gate.TakeWrite? ==> !s.writer && s.readers == 0
    requires f.readers > 0 ==> !s.writer
    ensures GateOk(Apply(s, id, f))
  {
    CountUpdate(s.ops, id, s.ops[id].(stage := f.to), Reads);
    CountUpdate(s.ops, id, s.ops[id].(stage := f.to), Writes);
    if Has(s.ops[id], Writes) {
      CountPositive(s.ops, id, Writes);
    }
  }

  lemma EditKept(queue: seq<nat>, edit: Edit, id: nat, before: bool, now: bool, x: nat)
    requires NoRepeat(queue) && EditFits(edit, before, now) && (id in queue <==> before)
    ensures NoRepeat(Edited(queue, edit, id))
    ensures x in Edited(queue, edit, id) <==> if x == id then now else x in queue
  {
    WithoutMembers(queue, id);
    WithoutNoRepeat(queue, id);
  }

  lemma QueuesKept(s: State, id: nat, f: Effect, x: nat)
    requires QueuesOk(s) && id < |s.ops| && Balanced(s.ops[id], f)
    ensures NoRepeat(Apply(s, id, f).slotQueue) && NoRepeat(Apply(s, id, f).gateQueue)
    ensures SlotPlace(Apply(s, id, f), x) && GatePlace(Apply(s, id, f), x)
  {
    assert SlotPlace(s, id) && GatePlace(s, id) && SlotPlace(s, x) && GatePlace(s, x);
    EditKept(s.slotQueue, f.slotQueue, id, AwaitsSlot(s.ops[id].stage), AwaitsSlot(f.to), x);
    EditKept(s.gateQueue, f.gateQueue, id, AwaitsGate(s.ops[id].stage), AwaitsGate(f.to), x);
  }

  lemma AllQueuesKept(s: State, id: nat, f: Effect)
    requires QueuesOk(s) && id < |s.ops| && Balanced(s.ops[id], f)
    ensures QueuesOk(Apply(s, id, f))
  {
    QueuesKept(s, id, f, 0);
    forall x: nat ensures SlotPlace(Apply(s, id, f), x) && GatePlace(Apply(s, id, f), x) {
      QueuesKept(s, id, f, x);
    }
  }

  lemma ApplyInv(s: State, id: nat, f: Effect)
    requires Inv(s) && id < |s.ops| && Balanced(s.ops[id], f)
    requires f.slots < 0 ==> s.slots > 0
    requires f.gate.TakeWrite? ==> !s.writer && s.readers == 0
    requires f.readers > 0 ==> !s.writer
    ensures Inv(Apply(s, id, f))
  {
    SlotsKept(s, id, f);
    GateKept(s, id, f);
    AllQueuesKept(s, id, f);
  }

  lemma StepInv(s: State, e: Event)
    requires Possible(s, e) && Inv(s)
    ensures Inv(Next(s, e))
  {
    var id := Mover(s, e);
    StepsBalanced(s.ops[id], e);
    OnlyGrantsTake(s.ops[id], e);
    ApplyInv(s, id, Does(s.ops[id], e));
  }

  lemma FreshInv(s: State)
    requires Fresh(s)
    ensures Inv(s)
  {
    CountNone(s.ops, HoldsSlot);
    CountNone(s.ops, Reads);
    CountNone(s.ops, Writes);
  }

  lemma {:induction false} RunInv(trace: seq<State>, events: seq<Event>, i: nat)
    requires Run(trace, events) && i < |trace|
    ensures Inv(trace[i])
  {
    if i == 0 {
      FreshInv(trace[0]);
    } else {
      RunInv(trace, events, i - 1);
      StepInv(trace[i - 1], events[i - 1]);
    }
  }

  // ----- Mutual exclusion -----

  /** At most four captures are in progress on a device. */
  lemma CapturesBounded(trace: seq<State>, events: seq<Event>, i: nat)
    requires Run(trace, events) && i < |trace|
    ensures Count(trace[i].ops, HoldsSlot) <= CAPTURE_SLOTS
    ensures Count(trace[i].ops, Captures) <= CAPTURE_SLOTS
  {
    RunInv(trace, events, i);
    CountWithin(trace[i].ops, Captures, HoldsSlot);
  }

  /** An operation that holds the write side is the only one that uses the device. */
  lemma WriterIsAlone(s: State, a: nat, b: nat)
    requires Inv(s) && a < |s.ops| && b < |s.ops| && Has(s.ops[a], Writes) && UsesDevice(s.ops[b].stage)
    ensures a == b
  {
    CountPositive(s.ops, a, Writes);
    if Has(s.ops[b], Reads) {
      CountPositive(s.ops, b, Reads);
    } else if a < b {
      CountTwo(s.ops, a, b, Writes);
    } else if b < a {
      CountTwo(s.ops, b, a, Writes);
    }
  }

  const FINISHED: nat := 9

  /** How far an operation has come. */
  function Rank(g: Stage): (n: nat)
    ensures n <= FINISHED
  {
    match g
    case Idle => 0
    case WantSlot | WantWrite => 1
    case Slotted | Managing | Checking => 2
    case WantRead | WantBefore => 3
    case Reading | Before => 4
    case Leaving | Mutating => 5
    case WantAfter => 6
    case After => 7
    case Closing => 8
    case Done => FINISHED
  }

  lemma StepsAdvance(op: Op, e: Event)
    requires Can(op, e) && StageFits(op)
    ensures Rank(op.stage) + One(!e.Adb?) <= Rank(Does(op, e).to)
  {
  }

  lemma ActionAdvances(s: State, e: Event, a: nat)
    requires Possible(s, e) && KindsOk(s) && a < |s.ops| && s.ops[a].kind.Action?
    ensures |Next(s, e).ops| == |s.ops| && Next(s, e).ops[a].kind.Action?
    ensures Rank(s.ops[a].stage) <= Rank(Next(s, e).ops[a].stage)
  {
    StepsAdvance(s.ops[Mover(s, e)], e);
  }

  lemma {:induction false} ActionOnlyAdvances(trace: seq<State>, events: seq<Event>, i: nat, j: nat, a: nat)
    requires Run(trace, events) && i <= j < |trace| && a < |trace[i].ops| && trace[i].ops[a].kind.Action?
    ensures |trace[j].ops| == |trace[i].ops| && trace[j].ops[a].kind.Action?
    ensures Rank(trace[i].ops[a].stage) <= Rank(trace[j].ops[a].stage)
    decreases j
  {
    hide Next, SlotsOk, GateOk, QueuesOk;
    if i < j {
      ActionOnlyAdvances(trace, events, i, j - 1, a);
      RunInv(trace, events, j - 1);
      ActionAdvances(trace[j - 1], events[j - 1], a);
    }
  }

  /**
   Between an Action's first snapshot and its second no other operation on the device issues an ADB
   command or changes the lifecycle record.
   */
  lemma NothingBetweenSnapshots(trace: seq<State>, events: seq<Event>, i: nat, k: nat, j: nat, a: nat, b: nat)
    requires Run(trace, events) && i <= k <= j < |events| && a < |trace[i].ops|
    requires events[i] == Adb(a) && trace[i].ops[a].stage.Before?
    requires events[j] == Adb(a) && a < |trace[j].ops| && trace[j].ops[a].stage.After?
    requires events[k] == Adb(b)
    ensures a == b
  {
    RunInv(trace, events, i);
    RunInv(trace, events, k);
    ActionOnlyAdvances(trace, events, i, k, a);
    ActionOnlyAdvances(trace, events, k, j, a);
    WriterIsAlone(trace[k], a, b);
  }

  // ----- Deadlock -----

  predicate Inside(g: Stage) { g.WantBefore? || g.WantAfter? }

  /** Some operation has begun and, unless one gives up, none of them can ever go on. */
  ghost predicate Stuck(s: State) {
    && (exists id :: 0 <= id < |s.ops| && !s.ops[id].stage.Idle? && !s.ops[id].stage.Done?)
    && forall e :: Possible(s, e) ==> e.Start? || e.Cancel?
  }

  /** An Action inside the gate waits for a slot; all four slots belong to observations waiting for the gate. */
  ghost predicate Deadlocked(s: State) {
    && (exists a :: 0 <= a < |s.ops| && Inside(s.ops[a].stage))
    && Count(s.ops, Waits) == CAPTURE_SLOTS
  }

  lemma SlotHoldersWait(s: State, i: nat)
    requires SlotsOk(s) && Count(s.ops, Waits) == CAPTURE_SLOTS && i < |s.ops| && Has(s.ops[i], HoldsSlot)
    ensures s.ops[i].stage.WantRead? && s.slots == 0
  {
    CountWithin(s.ops, Waits, HoldsSlot);
    CountSame(s.ops, Waits, HoldsSlot, i);
  }

  lemma DeadlockBlocks(s: State, a: nat, e: Event)
    requires Inv(s) && Count(s.ops, Waits) == CAPTURE_SLOTS && a < |s.ops| && Inside(s.ops[a].stage)
    requires Possible(s, e)
    ensures e.Start? || e.Cancel?
  {
    var id := Mover(s, e);
    CountWithin(s.ops, Waits, HoldsSlot);
    CountPositive(s.ops, a, Writes);
    if Has(s.ops[id], HoldsSlot) {
      SlotHoldersWait(s, id);
    } else if Has(s.ops[id], Writes) {
      if a < id {
        CountTwo(s.ops, a, id, Writes);
      } else if id < a {
        CountTwo(s.ops, id, a, Writes);
      }
    }
  }

  /** With nobody able to go on, a waiting head means that what it waits for is taken. */
  lemma StuckQueues(s: State)
    requires Inv(s) && Stuck(s)
    ensures s.slotQueue != [] ==> s.slots == 0
    ensures s.gateQueue != [] ==> s.writer || s.readers > 0
  {
    if s.slotQueue != [] {
      assert SlotPlace(s, s.slotQueue[0]);
      assert !Possible(s, GrantSlot);
    }
    if s.gateQueue != [] {
      assert GatePlace(s, s.gateQueue[0]);
      assert !Possible(s, GrantGate);
    }
  }

  lemma NobodyRuns(s: State, i: nat)
    requires Stuck(s) && i < |s.ops|
    ensures !Runs(s.ops[i].stage)
  {
    assert !Possible(s, Advance(i));
  }

  lemma {:induction false} FindMark(ops: seq<Op>, m: Mark) returns (i: nat)
    requires Count(ops, m) > 0
    ensures i < |ops| && Has(ops[i], m)
  {
    if Has(ops[0], m) {
      i := 0;
    } else {
      i := FindMark(ops[1..], m);
      i := i + 1;
    }
  }

  /** No reader is left reading, so only a writer can hold the gate, and it waits for a slot inside. */
  lemma StuckWriterInside(s: State) returns (a: nat)
    requires Inv(s) && Stuck(s) && s.writer
    ensures a < |s.ops| && Inside(s.ops[a].stage)
  {
    a := FindMark(s.ops, Writes);
    NobodyRuns(s, a);
  }

  lemma NoReaderWhenStuck(s: State)
    requires Inv(s) && Stuck(s)
    ensures s.readers == 0
  {
    if s.readers > 0 {
      var r := FindMark(s.ops, Reads);
      NobodyRuns(s, r);
    }
  }

  lemma StuckHasWriter(s: State)
    requires Inv(s) && Stuck(s)
    ensures s.writer
  {
    NoReaderWhenStuck(s);
    StuckQueues(s);
    var id :| 0 <= id < |s.ops| && !s.ops[id].stage.Idle? && !s.ops[id].stage.Done?;
    NobodyRuns(s, id);
    assert SlotPlace(s, id) && GatePlace(s, id);
    if s.slotQueue != [] {
      var h := FindMark(s.ops, HoldsSlot);
      NobodyRuns(s, h);
      assert GatePlace(s, h);
    }
  }

  /** In a reachable state the device is stuck exactly when it is deadlocked in this one way. */
  lemma StuckIffDeadlocked(trace: seq<State>, events: seq<Event>, i: nat)
    requires Run(trace, events) && i < |trace|
    ensures Stuck(trace[i]) <==> Deadlocked(trace[i])
  {
    RunInv(trace, events, i);
    var s := trace[i];
    if Stuck(s) {
      StuckHasWriter(s);
      var a := StuckWriterInside(s);
      assert SlotPlace(s, a);
      StuckQueues(s);
      forall k | 0 <= k < |s.ops| && Has(s.ops[k], HoldsSlot) ensures Has(s.ops[k], Waits) {
        NobodyRuns(s, k);
      }
      CountWithin(s.ops, HoldsSlot, Waits);
      CountWithin(s.ops, Waits, HoldsSlot);
    }
    if Deadlocked(s) {
      var a :| 0 <= a < |s.ops| && Inside(s.ops[a].stage);
      forall e | Possible(s, e) ensures e.Start? || e.Cancel? {
        DeadlockBlocks(s, a, e);
      }
    }
  }

  lemma WriterIsOne(s: State, a: nat, b: nat)
    requires GateOk(s) && a < |s.ops| && b < |s.ops| && Has(s.ops[a], Writes) && Has(s.ops[b], Writes)
    ensures a == b
  {
    if a < b {
      CountTwo(s.ops, a, b, Writes);
    } else if b < a {
      CountTwo(s.ops, b, a, Writes);
    }
  }

  /** The five operations of the deadlock. */
  predicate Member(g: Stage) { Inside(g) || g.WantRead? }

  lemma OutsidersDoNotMatter(s: State, e: Event)
    requires Inv(s) && Deadlocked(s) && Possible(s, e) && (e.Start? || e.Cancel?) && !Member(s.ops[e.id].stage)
    ensures Deadlocked(Next(s, e))
  {
    var a :| 0 <= a < |s.ops| && Inside(s.ops[a].stage);
    var t := Next(s, e);
    CountUpdate(s.ops, e.id, t.ops[e.id], Waits);
    assert t.ops[a] == s.ops[a];
  }

  lemma MemberBreaksDeadlock(s: State, id: nat)
    requires Inv(s) && Deadlocked(s) && Possible(s, Cancel(id)) && Member(s.ops[id].stage)
    ensures !Deadlocked(Next(s, Cancel(id)))
  {
    var t := Next(s, Cancel(id));
    CountUpdate(s.ops, id, t.ops[id], Waits);
    if Inside(s.ops[id].stage) {
      forall b | 0 <= b < |t.ops| ensures !Inside(t.ops[b].stage) {
        if b != id && Inside(s.ops[b].stage) {
          WriterIsOne(s, id, b);
        }
      }
    }
  }

  /** The deadlock outlives any arrivals, and ends exactly when one of its five members gives up. */
  lemma DeadlockLasts(s: State, e: Event)
    requires Inv(s) && Deadlocked(s) && Possible(s, e)
    ensures e.Start? || e.Cancel?
    ensures Deadlocked(Next(s, e)) <==> e.Start? || !Member(s.ops[e.id].stage)
  {
    var a :| 0 <= a < |s.ops| && Inside(s.ops[a].stage);
    DeadlockBlocks(s, a, e);
    if e.Cancel? && Member(s.ops[e.id].stage) {
      MemberBreaksDeadlock(s, e.id);
    } else {
      OutsidersDoNotMatter(s, e);
    }
  }

  // ----- When a deadlock is possible -----

  ghost predicate SameKinds(ops: seq<Op>, other: seq<Op>) {
    |ops| == |other| && forall i :: 0 <= i < |ops| ==> ops[i].kind == other[i].kind
  }

  lemma {:induction false} KindsFixed(trace: seq<State>, events: seq<Event>, i: nat)
    requires Run(trace, events) && i < |trace|
    ensures SameKinds(trace[i].ops, trace[0].ops)
  {
    if i > 0 {
      KindsFixed(trace, events, i - 1);
      assert SameKinds(trace[i].ops, trace[i - 1].ops);
    }
  }

  lemma {:induction false} SameCount(ops: seq<Op>, other: seq<Op>)
    requires SameKinds(ops, other)
    ensures Count(ops, IsObserver) == Count(other, IsObserver)
  {
    if ops != [] {
      SameCount(ops[1..], other[1..]);
    }
  }

  /** A population in which a deadlock is possible. */
  ghost predicate FourAndOne(ops: seq<Op>) {
    Count(ops, IsObserver) >= CAPTURE_SLOTS && exists a :: 0 <= a < |ops| && ops[a].kind.Action?
  }

  lemma DeadlockHasFive(s: State)
    requires KindsOk(s) && Deadlocked(s)
    ensures FourAndOne(s.ops)
  {
    CountWithin(s.ops, Waits, IsObserver);
    var a :| 0 <= a < |s.ops| && Inside(s.ops[a].stage);
    assert StageFits(s.ops[a]);
  }

  lemma DeadlockNeedsFive(trace: seq<State>, events: seq<Event>, i: nat)
    requires Run(trace, events) && i < |trace| && Deadlocked(trace[i])
    ensures FourAndOne(trace[0].ops)
  {
    RunInv(trace, events, i);
    DeadlockHasFive(trace[i]);
    KindsFixed(trace, events, i);
    SameCount(trace[i].ops, trace[0].ops);
    var a :| 0 <= a < |trace[i].ops| && trace[i].ops[a].kind.Action?;
    assert trace[0].ops[a].kind.Action?;
  }

  lemma Extend(trace: seq<State>, events: seq<Event>, e: Event)
    requires Run(trace, events) && Possible(trace[|events|], e)
    ensures Run(trace + [Next(trace[|events|], e)], events + [e])
  {
  }

  /** An observation that arrives while slots are free ends up holding one and waiting for the gate. */
  function Parked(s: State, id: nat): State
    requires id < |s.ops|
  {
    State(s.ops[id := s.ops[id].(stage := WantRead)], s.slots - 1, s.readers, s.writer, s.slotQueue, s.gateQueue + [id])
  }

  predicate ParkReady(s: State, id: nat) {
    s.slotQueue == [] && s.slots > 0 && id < |s.ops| && s.ops[id] == Op(Observer, Idle)
  }

  lemma Park(trace: seq<State>, events: seq<Event>, id: nat) returns (trace': seq<State>, events': seq<Event>)
    requires Run(trace, events) && ParkReady(trace[|events|], id)
    ensures Run(trace', events') && trace'[0] == trace[0]
    ensures trace'[|events'|] == Parked(trace[|events|], id)
  {
    var s := trace[|events|];
    var s1 := Next(s, Start(id));
    assert s1.slotQueue == [id];
    Extend(trace, events, Start(id));
    var s2 := Next(s1, GrantSlot);
    assert s2.slotQueue == [];
    Extend(trace + [s1], events + [Start(id)], GrantSlot);
    var s3 := Next(s2, Advance(id));
    Extend(trace + [s1] + [s2], events + [Start(id)] + [GrantSlot], Advance(id));
    trace' := trace + [s1] + [s2] + [s3];
    events' := events + [Start(id)] + [GrantSlot] + [Advance(id)];
  }

  ghost predicate AllReady(s: State, a: nat, ids: seq<nat>) {
    && s.slotQueue == [] && s.slots >= |ids| && a < |s.ops| && s.ops[a] == Op(Action, Checking) && NoRepeat(ids)
    && forall i :: 0 <= i < |ids| ==> ids[i] < |s.ops| && s.ops[ids[i]] == Op(Observer, Idle)
  }

  lemma {:induction false} ParkAll(trace: seq<State>, events: seq<Event>, a: nat, ids: seq<nat>)
    returns (trace': seq<State>, events': seq<Event>)
    requires Run(trace, events) && AllReady(trace[|events|], a, ids)
    ensures Run(trace', events') && trace'[0] == trace[0] && AllReady(trace'[|events'|], a, [])
    ensures Count(trace'[|events'|].ops, Waits) == Count(trace[|events|].ops, Waits) + |ids|
    decreases |ids|
  {
    if ids == [] {
      trace', events' := trace, events;
    } else {
      var s := trace[|events|];
      trace', events' := Park(trace, events, ids[0]);
      CountUpdate(s.ops, ids[0], s.ops[ids[0]].(stage := WantRead), Waits);
      assert AllReady(trace'[|events'|], a, ids[1..]);
      trace', events' := ParkAll(trace', events', a, ids[1..]);
    }
  }

  lemma {:induction false} PickObservers(ops: seq<Op>, from: nat, n: nat) returns (ids: seq<nat>)
    requires from <= |ops| && Count(ops[from..], IsObserver) >= n
    ensures |ids| == n && NoRepeat(ids)
    ensures forall i :: 0 <= i < |ids| ==> from <= ids[i] < |ops| && ops[ids[i]].kind.Observer?
    decreases |ops| - from
  {
    if n == 0 {
      ids := [];
    } else {
      assert ops[from..][1..] == ops[from + 1..];
      if ops[from].kind.Observer? {
        ids := PickObservers(ops, from + 1, n - 1);
        ids := [from] + ids;
      } else {
        ids := PickObservers(ops, from + 1, n);
      }
    }
  }

  /** The Action enters the gate before any observation arrives. */
  lemma EnterGate(s: State, a: nat) returns (trace: seq<State>, events: seq<Event>)
    requires Fresh(s) && a < |s.ops| && s.ops[a].kind.Action?
    ensures Run(trace, events) && trace[0] == s
    ensures trace[|events|] == s.(ops := s.ops[a := Op(Action, Checking)], writer := true)
  {
    var s1 := Next(s, Start(a));
    assert s1.gateQueue == [a] && s1.slotQueue == [];
    var s2 := Next(s1, GrantGate);
    assert s2.gateQueue == [];
    assert Run([s], []);
    Extend([s], [], Start(a));
    Extend([s] + [s1], [] + [Start(a)], GrantGate);
    trace := [s] + [s1] + [s2];
    events := [] + [Start(a)] + [GrantGate];
  }

  lemma DeadlockReached(s: State) returns (trace: seq<State>, events: seq<Event>)
    requires Fresh(s) && FourAndOne(s.ops)
    ensures Run(trace, events) && trace[0] == s && Deadlocked(trace[|events|])
  {
    var a :| 0 <= a < |s.ops| && s.ops[a].kind.Action?;
    assert s.ops[0..] == s.ops;
    var ids := PickObservers(s.ops, 0, CAPTURE_SLOTS);
    trace, events := EnterGate(s, a);
    CountNone(s.ops, Waits);
    CountUpdate(s.ops, a, Op(Action, Checking), Waits);
    trace, events := ParkAll(trace, events, a, ids);
    var t := trace[|events|];
    var u := Next(t, Advance(a));
    CountUpdate(t.ops, a, u.ops[a], Waits);
    Extend(trace, events, Advance(a));
    trace, events := trace + [u], events + [Advance(a)];
    assert Inside(u.ops[a].stage);
  }

  /** A device can deadlock if and only if it is given four observations and one Action. */
  lemma DeadlockPossibleIff(s: State)
    requires Fresh(s)
    ensures FourAndOne(s.ops) <==>
      exists trace, events :: Run(trace, events) && trace[0] == s && Deadlocked(trace[|events|])
  {
    if FourAndOne(s.ops) {
      var trace, events := DeadlockReached(s);
    }
    forall trace, events | Run(trace, events) && trace[0] == s && Deadlocked(trace[|events|])
      ensures FourAndOne(s.ops)
    {
      DeadlockNeedsFive(trace, events, |events|);
    }
  }

  // ----- Completion -----

  function TotalRank(ops: seq<Op>): nat {
    if ops == [] then 0 else Rank(ops[0].stage) + TotalRank(ops[1..])
  }

  lemma {:induction false} TotalUpdate(ops: seq<Op>, id: nat, op: Op)
    requires id < |ops|
    ensures TotalRank(ops[id := op]) + Rank(ops[id].stage) == TotalRank(ops) + Rank(op.stage)
  {
    if id == 0 {
      assert ops[id := op][1..] == ops[1..];
    } else {
      assert ops[id := op][1..] == ops[1..][id - 1 := op];
      TotalUpdate(ops[1..], id - 1, op);
    }
  }

  lemma {:induction false} TotalBounded(ops: seq<Op>)
    ensures TotalRank(ops) <= FINISHED * |ops|
  {
    if ops != [] {
      TotalBounded(ops[1..]);
    }
  }

  /** How many of the first n events are steps rather than commands. */
  function Steps(events: seq<Event>, n: nat): nat
    requires n <= |events|
  {
    if n == 0 then 0 else Steps(events, n - 1) + One(!events[n - 1].Adb?)
  }

  lemma {:induction false} StepsAddUp(trace: seq<State>, events: seq<Event>, n: nat)
    requires Run(trace, events) && n <= |events|
    ensures |trace[n].ops| == |trace[0].ops| && Steps(events, n) <= TotalRank(trace[n].ops)
  {
    if n > 0 {
      StepsAddUp(trace, events, n - 1);
      var s, e := trace[n - 1], events[n - 1];
      RunInv(trace, events, n - 1);
      StepsAdvance(s.ops[Mover(s, e)], e);
      TotalUpdate(s.ops, Mover(s, e), trace[n].ops[Mover(s, e)]);
    }
  }

  /** However the operations interleave, they take no more than nine steps each. */
  lemma RunsAreShort(trace: seq<State>, events: seq<Event>)
    requires Run(trace, events)
    ensures Steps(events, |events|) <= FINISHED * |trace[0].ops|
  {
    StepsAddUp(trace, events, |events|);
    TotalBounded(trace[|events|].ops);
  }

  /** Nothing is left to do but to let further operations arrive or give up. */
  ghost predicate Quiet(s: State) {
    forall e :: Possible(s, e) ==> e.Start? || e.Cancel?
  }

  /**
   With fewer than four observations or no Action, a run that has gone on for as long as it can has
   finished every operation that began.
   */
  lemma QuietMeansFinished(trace: seq<State>, events: seq<Event>, id: nat)
    requires Run(trace, events) && !FourAndOne(trace[0].ops)
    requires Quiet(trace[|events|]) && id < |trace[|events|].ops|
    ensures trace[|events|].ops[id].stage.Idle? || trace[|events|].ops[id].stage.Done?
  {
    StuckIffDeadlocked(trace, events, |events|);
    if Deadlocked(trace[|events|]) {
      DeadlockNeedsFive(trace, events, |events|);
    }
  }
}
