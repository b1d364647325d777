/**
 The live visualizer's pump: it follows one session's events over streams that may break, resumes after
 the last event its model confirmed, and gives up after a bounded number of attempts.

 What the outside does is left open: whether a stream opens, which of the log's events arrive and under
 which cursor, how a stream ends, whether the model has room, and when the controller is stopped. All
 that is assumed is that an event that arrives is the log's event with its sequence.
 */
module VisualizerPump {
  import opened Bytes

  const MAX_SAFE_INTEGER: nat := 9_007_199_254_740_991

  datatype Event = Event(sequence: nat, body: nat, ended: bool)

  datatype Cursor = Cursor(session: nat, epoch: nat, sequence: nat)

  datatype Error =
    | Aborted | CapacityExceeded | CursorMismatch | TimelineError
    | Retryable   // a slow consumer, a shutdown or a lost stream while the client is ready
    | Permanent

  datatype Item = Item(event: Event, cursor: Cursor)

  datatype Arrival = Arrived(item: Item) | Ended(sessionEnded: bool) | Broke(error: Error)

  datatype Phase = Idle | Connecting | Streaming | BackingOff | SessionEnded | ViewerCapacityExceeded | Failed

  datatype Status = Active | Complete | Full | Broken

  datatype Limits = Limits(maxResumeAttempts: nat, initialDelay: nat, maxDelay: nat)

  predicate ValidLimits(l: Limits) {
    && l.maxResumeAttempts <= 16 && 1 <= l.initialDelay <= 10_000
    && 1 <= l.maxDelay <= 30_000 && l.initialDelay <= l.maxDelay
  }

  /** A log numbers its events from one. */
  ghost predicate IsLog(log: seq<Event>) {
    forall i :: 0 <= i < |log| ==> log[i].sequence == i + 1
  }

  function At(c: Option<Cursor>): nat {
    if c.Some? then c.value.sequence else 0
  }

  // ----- Waiting between attempts -----

  function Power(n: nat): (p: nat)
    ensures p >= 1
  {
    if n == 0 then 1 else 2 * Power(n - 1)
  }

  function Backoff(l: Limits, attempt: nat): nat
    requires attempt >= 1
  {
    var d := l.initialDelay * Power(attempt - 1);
    if d < l.maxDelay then d else l.maxDelay
  }

  /** Waits start at the initial delay, never shrink, and never exceed the maximum. */
  lemma BackoffWithin(l: Limits, attempt: nat)
    requires ValidLimits(l) && attempt >= 1
    ensures l.initialDelay <= Backoff(l, attempt) <= Backoff(l, attempt + 1) <= l.maxDelay
    ensures Backoff(l, 1) == l.initialDelay
  {
    var p := Power(attempt - 1);
    assert l.initialDelay * p >= l.initialDelay;
    assert Power(attempt) == 2 * p;
    assert l.initialDelay * (2 * p) == 2 * (l.initialDelay * p);
  }

  // ----- The model -----

  datatype Committed = Ok | Refused(error: Error)

  /** The visualizer's event list. A committed event counts only once it is confirmed. */
  class LiveTimeline {
    var entries: seq<Event>
    var pending: Option<Event>
    var status: Status

    /** What is confirmed is the log's beginning, and what is pending is the log's next event. */
    ghost predicate Follows(log: seq<Event>)
      reads this
    {
      && |entries| <= |log| && entries == log[..|entries|]
      && (pending.Some? ==> |entries| < |log| && pending.value == log[|entries|])
    }

    constructor ()
      ensures entries == [] && pending == None && status == Active
    {
      entries, pending, status := [], None, Active;
    }

    /** Reserves an event. Its fingerprint stands for its content; lifecycle and capacity checks may fail. */
    method Commit(event: Event) returns (r: Committed)
      requires forall i :: 0 <= i < |entries| ==> entries[i].sequence == i + 1
      modifies this
      ensures entries == old(entries)
      ensures r.Ok? ==> pending == Some(event) && status == old(status) == Active
      ensures r.Ok? ==> old(pending) == Some(event) || (old(pending).None? && event.sequence == |entries| + 1)
      ensures r.Refused? ==> pending == old(pending) && r.error != Retryable
    {
      if status != Active {
        return Refused(TimelineError);
      }
      if pending.Some? {
        if pending == Some(event) {
          return Ok;
        }
        return Refused(TimelineError);
      }
      var confirmedSequence := if entries == [] then 0 else entries[|entries| - 1].sequence;
      if event.sequence != confirmedSequence + 1 {
        return Refused(TimelineError);
      }
      var lifecycleValid: bool, fits: bool := *, *;
      if !lifecycleValid {
        return Refused(TimelineError);
      }
      if !fits {
        status := Full;
        return Refused(CapacityExceeded);
      }
      pending := Some(event);
      return Ok;
    }

    method Confirm()
      requires pending.Some?
      modifies this
      ensures entries == old(entries) + [old(pending).value] && pending == None
      ensures status == if old(pending).value.ended then Complete else old(status)
    {
      entries := entries + [pending.value];
      if pending.value.ended {
        status := Complete;
      }
      pending := None;
    }

    method Fail()
      modifies this
      ensures entries == old(entries) && (pending == old(pending) || pending == None)
    {
      if status == Active {
        pending := None;
        status := Broken;
      }
    }
  }

  // ----- The controller -----

  class Controller {
    const limits: Limits
    const session: nat
    const model: LiveTimeline
    var confirmedCursor: Option<Cursor>
    var streamEpoch: Option<nat>
    var phase: Phase
    var resumeAttempt: nat
    var revision: nat
    ghost var opens: seq<Option<Cursor>>  // the cursor each stream was opened after
    ghost var waits: seq<nat>

    /** The resumable cursor is exactly the end of what the model has confirmed. */
    ghost predicate Valid(log: seq<Event>)
      reads this, model
    {
      && ValidLimits(limits) && IsLog(log) && model.Follows(log)
      && At(confirmedCursor) == |model.entries|
      && (confirmedCursor.Some? ==>
            confirmedCursor.value.session == session && streamEpoch == Some(confirmedCursor.value.epoch))
    }

    /** Limits out of range are refused. */
    static method Create(limits: Limits, session: nat) returns (c: Option<Controller>)
      ensures c.Some? <==> ValidLimits(limits)
      ensures c.Some? ==> fresh(c.value) && fresh(c.value.model) && c.value.limits == limits
      ensures c.Some? ==> forall log :: IsLog(log) ==> c.value.Valid(log)
    {
      if !ValidLimits(limits) {
        return None;
      }
      var controller := new Controller(limits, session);
      return Some(controller);
    }

    constructor (limits: Limits, session: nat)
      requires ValidLimits(limits)
      ensures fresh(model) && opens == [] && waits == [] && resumeAttempt == 0
      ensures forall log :: IsLog(log) ==> Valid(log)
      ensures model.entries == [] && model.pending == None && this.limits == limits && this.session == session
    {
      this.limits, this.session := limits, session;
      model := new LiveTimeline();
      confirmedCursor, streamEpoch, phase, resumeAttempt, revision := None, None, Idle, 0, 0;
      opens, waits := [], [];
    }

    method Publish()
      modifies this`revision, this`phase, model
      ensures model.entries == old(model.entries)
      ensures model.pending == old(model.pending) || model.pending == None
    {
      if revision >= MAX_SAFE_INTEGER {
        model.Fail();
        phase := Failed;
        return;
      }
      revision := revision + 1;
    }

    method SetPhase(next: Phase)
      modifies this`revision, this`phase, model
      ensures model.entries == old(model.entries)
      ensures model.pending == old(model.pending) || model.pending == None
    {
      if phase == next {
        return;
      }
      phase := next;
      Publish();
    }

    /** Commits to the model, confirms on the stream, then confirms the model and moves the cursor. */
    method Accept(item: Item, log: seq<Event>) returns (error: Option<Error>)
      requires Valid(log) && item.event in log
      modifies this`confirmedCursor, this`streamEpoch, this`phase, this`revision, model
      ensures Valid(log)
      ensures if error.None? then model.entries == old(model.entries) + [item.event]
              else model.entries == old(model.entries) && confirmedCursor == old(confirmedCursor)
    {
      var input := item.cursor;
      if input.sequence > MAX_SAFE_INTEGER || input.sequence < 1 || input.sequence != item.event.sequence
         || input.session != session || (streamEpoch.Some? && input.epoch != streamEpoch.value) {
        return Some(CursorMismatch);
      }
      var committed := model.Commit(item.event);
      if committed.Refused? {
        return Some(committed.error);
      }
      var cursor: Cursor, thrown: Option<Error> := *, *;
      if thrown.Some? {
        return thrown;
      }
      if cursor != input {
        return Some(CursorMismatch);
      }
      model.Confirm();
      streamEpoch := Some(cursor.epoch);
      confirmedCursor := Some(cursor);
      Publish();
      return None;
    }

    /** The next thing a stream does; an event it brings is one of the log's. */
    method NextArrival(log: seq<Event>) returns (a: Arrival)
      ensures a.Arrived? ==> a.item.event in log
    {
      a := *;
      if a.Arrived? && a.item.event !in log {
        a := Ended(false);
      }
    }

    /** Accepts what one stream brings, until it ends, breaks or brings something unacceptable. */
    method Follow(log: seq<Event>) returns (end: Arrival)
      requires Valid(log)
      modifies this`confirmedCursor, this`streamEpoch, this`phase, this`revision, this`resumeAttempt, model
      ensures Valid(log) && !end.Arrived? && old(model.entries) <= model.entries
      ensures resumeAttempt == if old(model.entries) == model.entries then old(resumeAttempt) else 0
    {
      while true
        invariant Valid(log) && old(model.entries) <= model.entries
        invariant resumeAttempt == if old(model.entries) == model.entries then old(resumeAttempt) else 0
        decreases |log| - |model.entries|
      {
        var arrival := NextArrival(log);
        if !arrival.Arrived? {
          return arrival;
        }
        var error := Accept(arrival.item, log);
        if error.Some? {
          return Broke(error.value);
        }
        resumeAttempt := 0;
      }
    }

    /** Opens one stream after the confirmed cursor and follows it to its end. */
    method Attempt(log: seq<Event>) returns (end: Arrival)
      requires Valid(log)
      modifies this, model
      ensures Valid(log) && !end.Arrived? && old(model.entries) <= model.entries
      ensures opens == old(opens) + [old(confirmedCursor)] && waits == old(waits)
      ensures resumeAttempt == if old(model.entries) == model.entries then old(resumeAttempt) else 0
    {
      opens := opens + [confirmedCursor];
      var success: bool, error: Error := *, *;
      if !success {
        return Broke(error);
      }
      SetPhase(Streaming);
      end := Follow(log);
    }

    /** What becomes of the pump when a stream is over: `again` after a wait, or a final phase. */
    method Settle(end: Arrival, log: seq<Event>) returns (again: bool)
      requires Valid(log) && !end.Arrived?
      modifies this`phase, this`revision, this`resumeAttempt, this`waits, model
      ensures Valid(log) && model.entries == old(model.entries)
      ensures if again then old(resumeAttempt) < limits.maxResumeAttempts && resumeAttempt == old(resumeAttempt) + 1
                            && waits == old(waits) + [Backoff(limits, resumeAttempt)]
              else waits == old(waits)
      ensures end == Ended(true) ==> !again
    {
      if end == Ended(true) {
        SetPhase(SessionEnded);
        return false;
      }
      var ready: bool := *;
      var error := if end.Broke? then end.error else if ready then Retryable else Permanent;
      if error.Aborted? {
        return false;
      }
      if error.CapacityExceeded? {
        SetPhase(ViewerCapacityExceeded);
        return false;
      }
      if !error.Retryable? || resumeAttempt >= limits.maxResumeAttempts {
        model.Fail();
        SetPhase(Failed);
        return false;
      }
      resumeAttempt := resumeAttempt + 1;
      SetPhase(BackingOff);
      waits := waits + [Backoff(limits, resumeAttempt)];
      return true;
    }

    /**
     The retry loop. Each accepted event makes the log's rest shorter, and each failure without one uses up
     an attempt, so the loop ends.
     */
    method Run(log: seq<Event>)
      requires Valid(log) && resumeAttempt == 0 && opens == [] && waits == []
      modifies this, model
      ensures Valid(log) && old(model.entries) <= model.entries
      ensures |opens| <= 1 + limits.maxResumeAttempts * (|log| + 1) && |opens| <= |waits| + 1
      ensures Paced(limits, waits) && Ascending(opens, |model.entries|)
    {
      hide Paced, Ascending, Backoff, IsLog;
      EmptyRun(limits, |model.entries|);
      var aborted: bool := *;
      while !aborted
        invariant Valid(log) && old(model.entries) <= model.entries && resumeAttempt <= limits.maxResumeAttempts
        invariant InBudget(limits.maxResumeAttempts, |opens|, resumeAttempt, |model.entries|)
        invariant |opens| == |waits| && Paced(limits, waits) && Ascending(opens, |model.entries|)
        decreases !aborted, |log| - |model.entries|, limits.maxResumeAttempts - resumeAttempt
      {
        ghost var n, attempt, confirmed := |opens|, resumeAttempt, |model.entries|;
        AscendsOn(opens, |model.entries|, confirmedCursor);
        var end := Attempt(log);
        AscendsStill(opens, confirmed, |model.entries|);
        Budget(limits.maxResumeAttempts, n, attempt, confirmed, |model.entries|, |log|);
        aborted := *;
        if aborted {
          break;
        }
        ghost var before := waits;
        var again := Settle(end, log);
        if !again {
          return;
        }
        PacedOn(limits, before, resumeAttempt);
        aborted := *;
        if !aborted {
          SetPhase(Connecting);
        }
      }
    }
  }

  // ----- Accounts -----

  ghost predicate Paced(l: Limits, waits: seq<nat>) {
    forall k :: 0 <= k < |waits| ==> l.initialDelay <= waits[k] <= l.maxDelay
  }

  /** Each stream was opened after a cursor no earlier than the one before, and none ahead of the model. */
  ghost predicate Ascending(opens: seq<Option<Cursor>>, confirmed: nat) {
    && (forall k :: 0 <= k < |opens| ==> At(opens[k]) <= confirmed)
    && (forall j, k :: 0 <= j < k < |opens| ==> At(opens[j]) <= At(opens[k]))
  }

  lemma EmptyRun(l: Limits, confirmed: nat)
    ensures Paced(l, []) && Ascending([], confirmed)
  {
  }

  lemma AscendsOn(opens: seq<Option<Cursor>>, confirmed: nat, cursor: Option<Cursor>)
    requires Ascending(opens, confirmed) && At(cursor) == confirmed
    ensures Ascending(opens + [cursor], confirmed)
  {
  }

  lemma AscendsStill(opens: seq<Option<Cursor>>, confirmed: nat, now: nat)
    requires Ascending(opens, confirmed) && confirmed <= now
    ensures Ascending(opens, now)
  {
  }

  lemma PacedOn(l: Limits, waits: seq<nat>, attempt: nat)
    requires ValidLimits(l) && Paced(l, waits) && attempt >= 1
    ensures Paced(l, waits + [Backoff(l, attempt)])
  {
    BackoffWithin(l, attempt);
  }

  /** Before each open, the opens so far and the attempts left are paid for by the confirmed events. */
  predicate InBudget(max: nat, opens: nat, attempt: nat, confirmed: nat) {
    attempt <= max && opens + (max - attempt) <= max * (confirmed + 1)
  }

  /** The attempts one confirmed event buys pay for the opens since the event before it. */
  lemma Budget(max: nat, opens: nat, attempt: nat, confirmed: nat, now: nat, total: nat)
    requires InBudget(max, opens, attempt, confirmed) && confirmed <= now <= total
    ensures opens + 1 <= 1 + max * (total + 1)
    ensures now == confirmed && attempt < max ==> InBudget(max, opens + 1, attempt + 1, now)
    ensures now > confirmed && 0 < max ==> InBudget(max, opens + 1, 1, now)
  {
    Grows(max, confirmed + 1, total + 1);
    if now > confirmed {
      Grows(max, confirmed + 2, now + 1);
      assert max * (confirmed + 2) == max * (confirmed + 1) + max;
    }
  }

  lemma Grows(max: nat, a: nat, b: nat)
    requires a <= b
    ensures max * a <= max * b
  {
    assert max * b == max * a + max * (b - a);
  }
}
