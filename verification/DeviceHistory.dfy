/**
 Whole histories of one Android device.

 Operations on the write side of the gate run one at a time and change the device as their contracts in
 `DeviceLifecycle` say; observations overlap each other command by command. `history` keeps what
 happened in order, so that later claims are about every possible history.
 */
module DeviceHistory {
  import opened DeviceLifecycle

  datatype Kind = Connecting | Checking | Disconnecting | Acting | Observing

  datatype Mark =
    | Begin(kind: Kind)
    | Issued(op: nat, lost: bool)  // `op` is the position of the operation's `Begin`
    | Connected(proof: seq<Entry>)
    | Disconnected

  datatype World = World(config: Config, device: Device, history: seq<Mark>, observers: set<nat>)

  datatype Event =
    | Connect(after: Device, added: seq<Entry>, ok: bool)
    | Health(after: Device, added: seq<Entry>, ok: bool)
    | Disconnect(after: Device, ok: bool)
    | Execute(after: Device, added: seq<Entry>, screenshot: bool, ok: bool)
    | ObserveStart
    | ObserveCommand(id: nat, entry: Entry)
    | ObserveEnd(id: nat)

  predicate Start(w: World) {
    !w.device.connected && w.history == [] && w.observers == {}
  }

  predicate Possible(w: World, e: Event) {
    match e
    case Connect(t, added, ok) => w.observers == {} && ConnectSpec(w.config, w.device, t, added, ok)
    case Health(t, added, ok) => w.observers == {} && HealthSpec(w.device, t, added, ok)
    case Disconnect(t, ok) => w.observers == {} && DisconnectSpec(w.device, t, ok)
    case Execute(t, added, screenshot, ok) =>
      w.observers == {} && UseSpec(w.device, t, added, ActionScript(screenshot), ok)
    case ObserveStart => true
    case ObserveCommand(id, _) => id in w.observers
    case ObserveEnd(id) => id in w.observers
  }

  function Marks(op: nat, added: seq<Entry>): seq<Mark> {
    seq(|added|, i requires 0 <= i < |added| => Issued(op, Lost(added[i])))
  }

  function Writer(w: World, kind: Kind, after: Device, added: seq<Entry>, end: seq<Mark>): World {
    w.(device := after, history := w.history + [Begin(kind)] + Marks(|w.history|, added) + end)
  }

  function Next(w: World, e: Event): World
    requires Possible(w, e)
  {
    match e
    case Connect(t, added, ok) =>
      Writer(w, Connecting, t, added, if ok && !Visible(w.device) then [Connected(added)] else [])
    case Health(t, added, _) => Writer(w, Checking, t, added, [])
    case Disconnect(t, ok) => Writer(w, Disconnecting, t, [], if ok then [Disconnected] else [])
    case Execute(t, added, _, _) => Writer(w, Acting, t, added, [])
    case ObserveStart =>
      w.(history := w.history + [Begin(Observing)],
         observers := if Visible(w.device) then w.observers + {|w.history|} else w.observers)
    case ObserveCommand(id, entry) =>
      w.(history := w.history + [Issued(id, Lost(entry))],
         device := w.device.(invalidated := w.device.invalidated || Lost(entry)))
    case ObserveEnd(id) => w.(observers := w.observers - {id})
  }

  ghost predicate Run(trace: seq<World>, events: seq<Event>) {
    && |trace| == |events| + 1 && Start(trace[0])
    && forall i :: 0 <= i < |events| ==> Possible(trace[i], events[i]) && trace[i + 1] == Next(trace[i], events[i])
  }

  /** What ends a connection. */
  predicate Breaks(m: Mark) { m.Disconnected? || (m.Issued? && m.lost) }

  ghost predicate AliveSince(h: seq<Mark>, m: nat) {
    m < |h| && h[m].Connected? && forall n :: m < n < |h| ==> !Breaks(h[n])
  }

  /** A successful connect, and nothing since that ends the connection. */
  ghost predicate Alive(h: seq<Mark>) {
    exists m :: AliveSince(h, m)
  }

  /**
   A command belongs to an operation that began on a live connection or is connecting; a successful
   connect has the answers that prove it.
   */
  ghost predicate Licensed(h: seq<Mark>, k: nat) {
    k < |h| ==>
      && (h[k].Issued? ==>
            h[k].op < k && h[h[k].op].Begin? && (h[h[k].op].kind.Connecting? || Alive(h[..h[k].op])))
      && (h[k].Connected? ==> Proven(h[k].proof))
  }

  ghost predicate ObserverOk(w: World, id: nat) {
    id in w.observers ==> id < |w.history| && w.history[id] == Begin(Observing) && Alive(w.history[..id])
  }

  ghost predicate Inv(w: World) {
    && (Visible(w.device) ==> Alive(w.history))
    && (forall k :: Licensed(w.history, k))
    && (forall id :: ObserverOk(w, id))
  }

  lemma StaysAlive(h: seq<Mark>, more: seq<Mark>)
    requires Alive(h) && forall i :: 0 <= i < |more| ==> !Breaks(more[i])
    ensures Alive(h + more)
  {
    var m :| AliveSince(h, m);
    assert AliveSince(h + more, m);
  }

  lemma BecomesAlive(h: seq<Mark>, proof: seq<Entry>)
    ensures Alive(h + [Connected(proof)])
  {
    assert AliveSince(h + [Connected(proof)], |h|);
  }

  lemma StaysLicensed(h: seq<Mark>, more: seq<Mark>, k: nat)
    requires Licensed(h, k) && k < |h|
    ensures Licensed(h + more, k)
  {
    if h[k].Issued? && h[k].op < k {
      assert (h + more)[..h[k].op] == h[..h[k].op];
    }
  }

  lemma StaysObserver(w: World, more: seq<Mark>, id: nat)
    requires ObserverOk(w, id)
    ensures ObserverOk(w.(history := w.history + more), id)
  {
    if id in w.observers {
      assert (w.history + more)[..id] == w.history[..id];
    }
  }

  /** The commands of a write-side operation are licensed when it began alive, or when it is connecting. */
  lemma WriterLicensed(w: World, kind: Kind, after: Device, added: seq<Entry>, end: seq<Mark>, k: nat)
    requires Inv(w) && (added == [] || kind.Connecting? || Alive(w.history))
    requires end == [] || (end == [Connected(added)] && Proven(added)) || end == [Disconnected]
    ensures Licensed(Writer(w, kind, after, added, end).history, k)
  {
    var h := w.history;
    var t := Writer(w, kind, after, added, end).history;
    assert Licensed(h, k);
    assert t == h + ([Begin(kind)] + Marks(|h|, added) + end);
    assert t[..|h|] == h;
    if k < |h| {
      StaysLicensed(h, [Begin(kind)] + Marks(|h|, added) + end, k);
    }
  }

  lemma WriterInv(w: World, kind: Kind, after: Device, added: seq<Entry>, end: seq<Mark>)
    requires Inv(w) && w.observers == {} && (added == [] || kind.Connecting? || Alive(w.history))
    requires end == [] || (end == [Connected(added)] && Proven(added)) || end == [Disconnected]
    requires Visible(after) ==> end == [Connected(added)] || (Visible(w.device) && end == [] && !AnyLost(added))
    ensures Inv(Writer(w, kind, after, added, end))
  {
    var t := Writer(w, kind, after, added, end);
    forall k: nat ensures Licensed(t.history, k) {
      WriterLicensed(w, kind, after, added, end, k);
    }
    if Visible(after) {
      var more := [Begin(kind)] + Marks(|w.history|, added);
      if end == [Connected(added)] {
        BecomesAlive(w.history + [Begin(kind)] + Marks(|w.history|, added), added);
      } else {
        assert forall i :: 0 <= i < |added| ==> added[i] in added;
        StaysAlive(w.history, more);
        assert t.history == w.history + more;
      }
    }
  }

  lemma ObserverInv(w: World, more: Mark, t: World)
    requires Inv(w) && t.history == w.history + [more] && !more.Connected?
    requires t.observers <= w.observers + (if more == Begin(Observing) && Visible(w.device) then {|w.history|} else {})
    requires more.Issued? ==> more.op in w.observers
    requires Visible(t.device) ==> Visible(w.device) && !Breaks(more)
    ensures Inv(t)
  {
    forall k: nat ensures Licensed(t.history, k) {
      assert Licensed(w.history, k);
      if k < |w.history| {
        StaysLicensed(w.history, [more], k);
      } else if k == |w.history| && more.Issued? {
        assert ObserverOk(w, more.op);
        assert t.history[..more.op] == w.history[..more.op];
      }
    }
    forall id ensures ObserverOk(t, id) {
      assert ObserverOk(w, id);
      if id in w.observers {
        StaysObserver(w, [more], id);
      } else {
        assert t.history[..|w.history|] == w.history;
      }
    }
    if Visible(t.device) {
      StaysAlive(w.history, [more]);
    }
  }

  lemma StepInv(w: World, e: Event)
    requires Possible(w, e) && Inv(w)
    ensures Inv(Next(w, e))
  {
    match e
    case Connect(t, added, ok) =>
      WriterInv(w, Connecting, t, added, if ok && !Visible(w.device) then [Connected(added)] else []);
    case Health(t, added, _) => WriterInv(w, Checking, t, added, []);
    case Disconnect(t, ok) => WriterInv(w, Disconnecting, t, [], if ok then [Disconnected] else []);
    case Execute(t, added, _, _) => WriterInv(w, Acting, t, added, []);
    case ObserveStart => ObserverInv(w, Begin(Observing), Next(w, e));
    case ObserveCommand(id, entry) => ObserverInv(w, Issued(id, Lost(entry)), Next(w, e));
    case ObserveEnd(id) =>
      forall i ensures ObserverOk(Next(w, e), i) {
        assert ObserverOk(w, i);
      }
  }

  lemma {:induction false} RunInv(trace: seq<World>, events: seq<Event>, i: nat)
    requires Run(trace, events) && i < |trace|
    ensures Inv(trace[i])
  {
    if i > 0 {
      RunInv(trace, events, i - 1);
      StepInv(trace[i - 1], events[i - 1]);
    }
  }

  /**
   A visibly connected device was connected successfully (ready, booted, with a release that is not blank)
   after its last disconnect or lost transport.
   */
  lemma VisibleMeansConnected(trace: seq<World>, events: seq<Event>, i: nat)
    requires Run(trace, events) && i < |trace| && Visible(trace[i].device)
    ensures exists m: nat :: AliveSince(trace[i].history, m) && Proven(trace[i].history[m].proof)
  {
    RunInv(trace, events, i);
    var m: nat :| AliveSince(trace[i].history, m);
    assert Licensed(trace[i].history, m);
  }

  /**
   After the transport was lost or the device disconnected, an operation that begins issues no command,
   unless it is a connect or comes after a successful one.
   */
  lemma NoCommandUntilConnected(trace: seq<World>, events: seq<Event>, i: nat, broken: nat, k: nat)
    requires Run(trace, events) && i < |trace| && broken < k < |trace[i].history|
    requires var h := trace[i].history;
      Breaks(h[broken]) && h[k].Issued? && broken < h[k].op < k && h[h[k].op].Begin? && !h[h[k].op].kind.Connecting?
    ensures exists m :: broken < m < trace[i].history[k].op && trace[i].history[m].Connected?
  {
    RunInv(trace, events, i);
    var h := trace[i].history;
    assert Licensed(h, k);
    var m :| AliveSince(h[..h[k].op], m);
    assert h[..h[k].op][broken] == h[broken];
  }
}
