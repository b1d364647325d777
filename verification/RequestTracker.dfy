/**
 The control-plane request tracker.

 `State` is the data behind the client's mutex; the functions on it are the regions of code that run
 while the mutex is held, and `Inner` is the object whose methods do that work in place. Between two
 such regions any other thread may run, so the promises of the tracker are proved for `System`: the
 mutex state together with every operation that is half way through, stepped in any order.
 */
module RequestTracker {
  import opened Bytes
  import opened Negotiation

  datatype Phase = AwaitingHello | HelloInFlight | Ready | Closing | Failed | Closed

  /** Closing has begun or the client has failed: nothing is tracked any more. */
  predicate Over(p: Phase) { p == Closing || p == Failed || p == Closed }

  datatype Pending = Pending(application: bool, rpc: Method, sender: bool)

  datatype Negotiated = Negotiated(offer: Offer, result: HelloResult)

  datatype State = State(
    phase: Phase,
    pending: map<nat, Pending>,
    abandoned: map<nat, Method>,
    cancelBacklog: set<nat>,
    applicationPending: nat,
    nextRequest: nat,
    enabled: set<Feature>,
    negotiated: Option<Negotiated>)

  datatype Options = Options(maxPending: nat, transport: Transport)

  const U64_MAX: nat := 0xFFFF_FFFF_FFFF_FFFF

  const INITIAL := State(AwaitingHello, map[], map[], {}, 0, 1, {}, None)

  predicate ValidOptions(o: Options) { o.maxPending >= 2 }

  function Min(a: nat, b: nat): nat { if a < b then a else b }
  function Max(a: nat, b: nat): nat { if a < b then b else a }

  /** Room left for application requests once cancellation has its reserve. */
  function MaxApplication(o: Options): (n: nat)
    requires ValidOptions(o)
    ensures 1 <= n < o.maxPending
  {
    o.maxPending - Min(16, Max(1, o.maxPending / 4))
  }

  function SaturatingPred(n: nat): nat { if n == 0 then 0 else n - 1 }

  // ----- Changes made under the mutex -----

  /** Drops everything tracked: the end of the client, by failure or by closing. */
  function Drain(s: State, phase: Phase): State {
    s.(phase := phase, pending := map[], abandoned := map[], cancelBacklog := {}, applicationPending := 0)
  }

  /** Tracks a request under the next id. */
  function TrackNew(s: State, p: Pending): State {
    s.(pending := s.pending[s.nextRequest := p], nextRequest := s.nextRequest + 1,
       applicationPending := s.applicationPending + (if p.application then 1 else 0))
  }

  function Untrack(s: State, id: nat): State
    requires id in s.pending
  {
    s.(pending := s.pending - {id},
       applicationPending := if s.pending[id].application then SaturatingPred(s.applicationPending)
                             else s.applicationPending)
  }

  /** Whether giving up on a request makes the client cancel it remotely. */
  predicate SchedulesCancel(s: State, id: nat)
    requires id in s.pending
  {
    s.phase == Ready && s.pending[id].rpc != RequestCancel && RequestControl in s.enabled
  }

  /** Keeps a request its caller gave up on for its late response. */
  function Shelve(s: State, id: nat): State
    requires id in s.pending
  {
    Untrack(s, id).(
      abandoned := s.abandoned[id := s.pending[id].rpc],
      cancelBacklog := if SchedulesCancel(s, id) then s.cancelBacklog + {id} else s.cancelBacklog)
  }

  function Unshelve(s: State, id: nat): State {
    s.(abandoned := s.abandoned - {id}, cancelBacklog := s.cancelBacklog - {id})
  }

  /** A backlog that has lost stale targets only; one without stale targets has lost nothing. */
  predicate Swept(s: State, backlog: set<nat>) {
    && backlog <= s.cancelBacklog
    && (forall t :: t in s.cancelBacklog && t in s.abandoned ==> t in backlog)
    && (s.cancelBacklog <= s.abandoned.Keys ==> backlog == s.cancelBacklog)
  }

  /** Ids are compared as the texts they are on the wire, which end in the number. */
  predicate Precedes(a: nat, b: nat) { NotAfter(Decimal(a), Decimal(b)) }

  predicate IsFirst(target: nat, ids: set<nat>) {
    target in ids && forall t :: t in ids ==> Precedes(target, t)
  }

  lemma {:induction false} SomeIsFirst(ids: set<nat>) returns (first: nat)
    requires ids != {}
    ensures IsFirst(first, ids)
    decreases ids
  {
    var id :| id in ids;
    var rest := ids - {id};
    assert forall t :: t in ids ==> t == id || t in rest;
    TextsCompare(Decimal(id), Decimal(id));
    if rest == {} {
      first := id;
    } else {
      var other := SomeIsFirst(rest);
      TextsCompare(Decimal(id), Decimal(other));
      first := if Precedes(id, other) then id else other;
      forall t | t in ids ensures Precedes(first, t) {
        if t in rest && first == id {
          TextsChain(Decimal(id), Decimal(other), Decimal(t));
        }
      }
    }
  }

  const CANCEL := Pending(false, RequestCancel, false)

  /** Takes `target` off the backlog and tracks the cancel request made for it. */
  function TakeTarget(s: State, target: nat): State {
    TrackNew(s.(cancelBacklog := s.cancelBacklog - {target}), CANCEL)
  }

  function PutBack(s: State, request: nat, target: nat): State {
    s.(pending := s.pending - {request},
       cancelBacklog := if s.phase == Ready && target in s.abandoned then s.cancelBacklog + {target}
                        else s.cancelBacklog)
  }

  // ----- Decisions made under the mutex -----

  /** How a response finds its request. */
  datatype Tracked = Ignored | FoundPending(p: Pending) | FoundAbandoned | Unknown

  function Track(s: State, id: nat): Tracked {
    if s.phase == Closing || s.phase == Closed then Ignored
    else if id in s.pending then FoundPending(s.pending[id])
    else if id in s.abandoned then FoundAbandoned
    else Unknown
  }

  predicate CanPump(s: State, o: Options) {
    s.phase == Ready && RequestControl in s.enabled && |s.pending| < o.maxPending
  }

  predicate IsApplication(call: Call, bootstrap: bool) {
    !bootstrap && call.rpc != RequestCancel
  }

  /** Whether a request is given an id; `system.hello` is the one bootstrap request. */
  predicate Admitted(s: State, call: Call, bootstrap: bool, o: Options)
    requires ValidOptions(o)
  {
    && bootstrap == (call.rpc.GetChannel() == Bootstrap)
    && s.phase == (if bootstrap then HelloInFlight else Ready)
    && (!bootstrap ==> CheckFeatures(call, s.enabled).Allowed?)
    && |s.pending| < o.maxPending
    && (IsApplication(call, bootstrap) ==> s.applicationPending < MaxApplication(o))
    && s.nextRequest != U64_MAX
  }

  // ----- Counters -----

  function Applications(pending: map<nat, Pending>): set<nat> {
    set id | id in pending && pending[id].application
  }

  /** The application counter is exact, and every table is within its limit. */
  ghost predicate Bounded(s: State, o: Options)
    requires ValidOptions(o)
  {
    && s.applicationPending == |Applications(s.pending)|
    && s.applicationPending <= MaxApplication(o)
    && |s.pending| <= o.maxPending
    && |s.abandoned| <= o.maxPending
  }

  lemma RemoveShrinks<T>(table: map<nat, T>, id: nat)
    ensures |table - {id}| == |table| - (if id in table then 1 else 0)
  {
    assert (table - {id}).Keys == table.Keys - {id};
  }

  lemma InsertGrows<T>(table: map<nat, T>, id: nat, p: T)
    requires id !in table
    ensures |table[id := p]| == |table| + 1
  {
    assert table[id := p].Keys == table.Keys + {id};
  }

  lemma InsertCounts(pending: map<nat, Pending>, id: nat, p: Pending)
    requires id !in pending
    ensures |Applications(pending[id := p])| == |Applications(pending)| + (if p.application then 1 else 0)
  {
    var before, after := Applications(pending), Applications(pending[id := p]);
    if p.application {
      assert after == before + {id} && id !in before;
    } else {
      assert after == before;
    }
  }

  lemma RemoveCounts(pending: map<nat, Pending>, id: nat)
    requires id in pending
    ensures |Applications(pending - {id})| == |Applications(pending)| - (if pending[id].application then 1 else 0)
  {
    var rest := pending - {id};
    assert pending == rest[id := pending[id]];
    InsertCounts(rest, id, pending[id]);
  }

  lemma DrainBounded(s: State, phase: Phase, o: Options)
    requires ValidOptions(o)
    ensures Bounded(Drain(s, phase), o)
  {
    assert Applications(map[]) == {};
  }

  lemma TrackNewBounded(s: State, p: Pending, o: Options)
    requires ValidOptions(o) && Bounded(s, o) && s.nextRequest !in s.pending
    requires |s.pending| < o.maxPending && (p.application ==> s.applicationPending < MaxApplication(o))
    ensures Bounded(TrackNew(s, p), o)
  {
    InsertGrows(s.pending, s.nextRequest, p);
    InsertCounts(s.pending, s.nextRequest, p);
  }

  /** Removing a request gives back exactly the room it took: the counter is not zero then, so the
      saturating subtraction never saturates. */
  lemma UntrackBounded(s: State, id: nat, o: Options)
    requires ValidOptions(o) && Bounded(s, o) && id in s.pending
    ensures Bounded(Untrack(s, id), o)
    ensures s.pending[id].application ==> s.applicationPending > 0
  {
    RemoveShrinks(s.pending, id);
    RemoveCounts(s.pending, id);
  }

  lemma ShelveBounded(s: State, id: nat, o: Options)
    requires ValidOptions(o) && Bounded(s, o) && id in s.pending && id !in s.abandoned && |s.abandoned| < o.maxPending
    ensures Bounded(Shelve(s, id), o)
  {
    UntrackBounded(s, id, o);
    InsertGrows(s.abandoned, id, s.pending[id].rpc);
  }

  lemma UnshelveBounded(s: State, id: nat, o: Options)
    requires ValidOptions(o) && Bounded(s, o)
    ensures Bounded(Unshelve(s, id), o)
  {
    RemoveShrinks(s.abandoned, id);
  }

  lemma PutBackBounded(s: State, request: nat, target: nat, o: Options)
    requires ValidOptions(o) && Bounded(s, o) && (request in s.pending ==> !s.pending[request].application)
    ensures Bounded(PutBack(s, request, target), o)
  {
    if request in s.pending {
      UntrackBounded(s, request, o);
    } else {
      assert s.pending - {request} == s.pending;
    }
  }

  // ----- The object that does the work in place -----

  datatype CancelPumpStep = Send(request: nat, target: nat) | Stop | FailClient

  class Inner {
    var phase: Phase
    var pending: map<nat, Pending>
    var abandoned: map<nat, Method>
    var cancelBacklog: set<nat>
    var applicationPending: nat
    var nextRequest: nat
    var enabled: set<Feature>
    var negotiated: Option<Negotiated>
    const options: Options

    ghost function View(): State
      reads this
    {
      State(phase, pending, abandoned, cancelBacklog, applicationPending, nextRequest, enabled, negotiated)
    }

    constructor (options: Options)
      ensures View() == INITIAL && this.options == options
    {
      this.options := options;
      phase, pending, abandoned, cancelBacklog := AwaitingHello, map[], map[], {};
      applicationPending, nextRequest, enabled, negotiated := 0, 1, {}, None;
    }

    /** Fails the client once; the requests whose callers have to be told are returned. */
    method Fail() returns (drained: map<nat, Pending>)
      modifies this
      ensures View() == if old(phase) == Closed || old(phase) == Failed then old(View()) else Drain(old(View()), Failed)
      ensures drained == if old(phase) == Closed || old(phase) == Failed then map[] else old(pending)
      ensures Over(phase) && (old(phase) != Closed && old(phase) != Failed ==> pending == map[] && abandoned == map[])
    {
      if phase == Closed || phase == Failed {
        return map[];
      }
      phase := Failed;
      applicationPending := 0;
      abandoned := map[];
      cancelBacklog := {};
      drained := pending;
      pending := map[];
    }

    method Remove(id: nat)
      modifies this
      ensures View() == if id in old(pending) then Untrack(old(View()), id) else old(View())
      ensures id !in pending
    {
      if id in pending {
        var p := pending[id];
        pending := pending - {id};
        if p.application {
          applicationPending := SaturatingPred(applicationPending);
        }
      }
    }

    method AbandonRequest(id: nat) returns (overflow: bool)
      modifies this
      ensures overflow <==> id in old(pending) && |old(abandoned)| >= options.maxPending
      ensures View() == if id !in old(pending) then old(View())
                        else if overflow then Untrack(old(View()), id) else Shelve(old(View()), id)
      ensures id !in pending && (id in old(pending) && !overflow ==> id in abandoned)
    {
      if id !in pending {
        return false;
      }
      var p := pending[id];
      pending := pending - {id};
      if p.application {
        applicationPending := SaturatingPred(applicationPending);
      }
      if |abandoned| >= options.maxPending {
        return true;
      }
      var schedule := phase == Ready && p.rpc != RequestCancel && RequestControl in enabled;
      abandoned := abandoned[id := p.rpc];
      if schedule {
        cancelBacklog := cancelBacklog + {id};
      }
      return false;
    }

    /** The first entry of the backlog that is still waiting for its late response; stale entries
        met on the way are dropped. Every reachable backlog holds live entries only, and then nothing
        is dropped. */
    method NextCancelTarget() returns (target: Option<nat>)
      modifies this`cancelBacklog
      ensures Swept(old(View()), cancelBacklog)
      ensures target.Some? ==> target.value in abandoned && IsFirst(target.value, cancelBacklog)
      ensures target.None? ==> cancelBacklog == {}
    {
      while cancelBacklog != {}
        invariant cancelBacklog <= old(cancelBacklog)
        invariant forall t :: t in old(cancelBacklog) && t in abandoned ==> t in cancelBacklog
        decreases cancelBacklog
      {
        ghost var first := SomeIsFirst(cancelBacklog);
        var t :| t in cancelBacklog && IsFirst(t, cancelBacklog);
        if t in abandoned {
          return Some(t);
        }
        cancelBacklog := cancelBacklog - {t};
      }
      return None;
    }

    /** The first region of a pump step: a target that gets prepared is off the backlog before the
        mutex is released. `swept` is the backlog once the search for a target is over. */
    method PrepareCancel(fits: bool) returns (step: CancelPumpStep, ghost swept: set<nat>)
      modifies this
      ensures Swept(old(View()), swept)
      ensures CanPump(old(View()), options) ==>
        (step.Stop? <==> forall t :: t in old(cancelBacklog) ==> t !in old(abandoned))
      ensures !CanPump(old(View()), options) ==> step.Stop?
      ensures var before := old(View()).(cancelBacklog := swept);
        match step
        case Stop => View() == before
        case Send(request, target) =>
          && fits && request == old(nextRequest) != U64_MAX && IsFirst(target, swept) && target in old(abandoned)
          && View() == TakeTarget(before, target)
        case FailClient =>
          if old(nextRequest) == U64_MAX then View() == before
          else !fits && View() == before.(nextRequest := old(nextRequest) + 1)
    {
      swept := cancelBacklog;
      if phase != Ready || RequestControl !in enabled || |pending| >= options.maxPending {
        return Stop, swept;
      }
      var candidate := NextCancelTarget();
      swept := cancelBacklog;
      if candidate == None {
        return Stop, swept;
      }
      var target := candidate.value;
      var request := nextRequest;
      if nextRequest == U64_MAX {
        return FailClient, swept;
      }
      nextRequest := nextRequest + 1;
      if !fits {
        return FailClient, swept;
      }
      cancelBacklog := cancelBacklog - {target};
      pending := pending[request := Pending(false, RequestCancel, false)];
      return Send(request, target), swept;
    }

    method RestoreCancelTarget(request: nat, target: nat)
      modifies this
      ensures View() == PutBack(old(View()), request, target)
      ensures request !in pending && (target in cancelBacklog && target !in old(cancelBacklog) ==> target in abandoned)
    {
      pending := pending - {request};
      if phase == Ready && target in abandoned {
        cancelBacklog := cancelBacklog + {target};
      }
    }

    method AcceptResponse(id: nat) returns (tracked: Tracked)
      modifies this
      ensures tracked == Track(old(View()), id)
      ensures View() == match tracked
                        case FoundPending(_) => Untrack(old(View()), id)
                        case FoundAbandoned => Unshelve(old(View()), id)
                        case _ => old(View())
      ensures tracked.FoundPending? ==> id !in pending
      ensures tracked.FoundAbandoned? || tracked.Unknown? ==> id !in pending && id !in abandoned
    {
      if phase == Closing || phase == Closed {
        return Ignored;
      }
      if id in pending {
        var p := pending[id];
        pending := pending - {id};
        if p.application {
          applicationPending := SaturatingPred(applicationPending);
        }
        return FoundPending(p);
      } else if id in abandoned {
        abandoned := abandoned - {id};
        cancelBacklog := cancelBacklog - {id};
        return FoundAbandoned;
      } else {
        return Unknown;
      }
    }

    /** The region of `begin_internal`; `None` stands for its error returns. */
    method Begin(call: Call, bootstrap: bool, fits: bool) returns (id: Option<nat>)
      requires ValidOptions(options)
      modifies this
      ensures id.Some? <==> Admitted(old(View()), call, bootstrap, options) && fits
      ensures id.Some? ==> id.value == old(nextRequest) && id.value in pending
      ensures View() == if id.Some? then TrackNew(old(View()), Pending(IsApplication(call, bootstrap), call.rpc, true))
                        else if Admitted(old(View()), call, bootstrap, options)
                        then old(View()).(nextRequest := old(nextRequest) + 1) else old(View())
    {
      if bootstrap != (call.rpc.GetChannel() == Bootstrap) {
        return None;
      }
      if phase != (if bootstrap then HelloInFlight else Ready) {
        return None;
      }
      if !bootstrap && !CheckFeatures(call, enabled).Allowed? {
        return None;
      }
      var cancellationReserve := Min(16, Max(1, options.maxPending / 4));
      var maxApplication := options.maxPending - cancellationReserve;
      var application := !bootstrap && call.rpc != RequestCancel;
      if |pending| >= options.maxPending {
        return None;
      }
      if application && applicationPending >= maxApplication {
        return None;
      }
      var sequence := nextRequest;
      if nextRequest == U64_MAX {
        return None;
      }
      nextRequest := nextRequest + 1;
      if !fits {
        return None;
      }
      pending := pending[sequence := Pending(application, call.rpc, true)];
      if application {
        applicationPending := applicationPending + 1;
      }
      return Some(sequence);
    }

    method StartClose() returns (drained: map<nat, Pending>)
      modifies this
      ensures View() == Drain(old(View()), if old(phase) == Failed then Failed else Closing) && drained == old(pending)
      ensures Over(phase) && pending == map[] && abandoned == map[]
    {
      if phase != Failed {
        phase := Closing;
      }
      applicationPending := 0;
      abandoned := map[];
      cancelBacklog := {};
      drained := pending;
      pending := map[];
    }
  }
}
