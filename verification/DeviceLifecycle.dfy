/**
 The lifecycle of one Android device: when it counts as connected, and which ADB commands each
 operation may issue.

 What a command answers, and whether the caller's deadline or cancellation cuts an operation short, is
 left open: every method is proved for all of them. `log` records each command with its answer.
 */
module DeviceLifecycle {
  import opened Bytes

  datatype AdbState =
    | Ready | Offline | Unauthorized | Authorizing | Recovery | Sideload | Bootloader | NoPermissions
    | Unknown(name: string)

  datatype Error =
    | ProcessFailed(stderr: string) | Missing | OfflineExhausted | NotAuthorized | PermissionDenied
    | UnsupportedState | InvalidValue | InvalidUtf8 | BootingExhausted | NotConnected | Interrupted | OtherError

  datatype Result<T> = Ok(value: T) | Err(error: Error)

  datatype Property = BootCompleted | ReleaseVersion | Manufacturer | Model

  datatype Command =
    | GetState | Reconnect | WaitForDevice | GetProperty(property: Property)
    | Screenshot | WindowSize | WindowDensity | Mutation

  /** Standard output (none when it is not UTF-8), or the failure of the command. */
  datatype Outcome = Output(text: Option<string>) | Failed(error: Error)

  datatype Entry = Entry(command: Command, outcome: Outcome)

  datatype Description = Description(release: string, manufacturer: string, model: string)

  datatype Config = Config(reconnectAttempts: nat, bootChecks: nat)

  const MAX_RECONNECT_ATTEMPTS: nat := 8
  const MAX_BOOT_CHECKS: nat := 240

  predicate ValidConfig(c: Config) {
    c.reconnectAttempts <= MAX_RECONNECT_ATTEMPTS && 1 <= c.bootChecks <= MAX_BOOT_CHECKS
  }

  // ----- Classification -----

  function Lower(s: string): string {
    seq(|s|, i requires 0 <= i < |s| => if 'A' <= s[i] <= 'Z' then ((s[i] as int) + 32) as char else s[i])
  }

  predicate Contains(s: string, part: string) {
    part <= s || (s != [] && Contains(s[1..], part))
  }

  function Classify(e: Error): Error {
    if !e.ProcessFailed? then e
    else
      var text := Lower(e.stderr);
      if Contains(text, "unauthorized") then NotAuthorized
      else if Contains(text, "no permissions") || Contains(text, "permission denied") then PermissionDenied
      else if Contains(text, "not found") || Contains(text, "no devices") then Missing
      else if Contains(text, "offline") then OfflineExhausted
      else e
  }

  predicate TransientMissing(e: Error) { e.Missing? || e.OfflineExhausted? }

  predicate LosesTransport(e: Error) {
    e.Missing? || e.OfflineExhausted? || e.NotAuthorized? || e.PermissionDenied?
  }

  /** The command failed for want of a connection. */
  predicate Lost(x: Entry) { x.outcome.Failed? && LosesTransport(Classify(x.outcome.error)) }

  predicate White(c: char) {
    var n := c as int;
    || 9 <= n <= 13 || n == 32 || n == 0x85 || n == 0xA0 || n == 0x1680 || 0x2000 <= n <= 0x200A
    || n == 0x2028 || n == 0x2029 || n == 0x202F || n == 0x205F || n == 0x3000
  }

  function Trim(s: string): string {
    if s == [] then []
    else if White(s[0]) then Trim(s[1..])
    else if White(s[|s| - 1]) then Trim(s[..|s| - 1])
    else s
  }

  function ParseState(value: string): AdbState {
    if value == "device" then Ready
    else if value == "offline" then Offline
    else if value == "unauthorized" then Unauthorized
    else if value == "authorizing" then Authorizing
    else if value == "recovery" then Recovery
    else if value == "sideload" then Sideload
    else if value == "bootloader" then Bootloader
    else Unknown(value)
  }

  function RequireReady(state: AdbState): Result<()> {
    match state
    case Ready => Ok(())
    case Offline => Err(OfflineExhausted)
    case Unauthorized | Authorizing => Err(NotAuthorized)
    case NoPermissions => Err(PermissionDenied)
    case _ => Err(UnsupportedState)
  }

  function ParseBoot(value: string): Result<bool> {
    if value == "1" then Ok(true) else if value == "0" || value == "" then Ok(false) else Err(InvalidValue)
  }

  /** What `adb get-state` tells. */
  function StateFrom(o: Outcome): Result<AdbState> {
    match o
    case Failed(e) => (
      match Classify(e)
      case OfflineExhausted => Ok(Offline)
      case NotAuthorized => Ok(Unauthorized)
      case PermissionDenied => Ok(NoPermissions)
      case other => Err(other)
    )
    case Output(None) => Err(InvalidUtf8)
    case Output(Some(t)) => if Trim(t) == "" then Err(InvalidValue) else Ok(ParseState(Trim(t)))
  }

  function PropertyFrom(o: Outcome): Result<string> {
    match o
    case Failed(e) => Err(Classify(e))
    case Output(None) => Err(InvalidUtf8)
    case Output(Some(t)) => Ok(Trim(t))
  }

  // ----- What the operations promise -----

  datatype Device = Device(
    adb: AdbState, name: string, release: Option<string>, connected: bool, invalidated: bool)

  /** What callers see: `connected` unless a command has since lost the transport. */
  predicate Visible(d: Device) { d.connected && !d.invalidated }

  predicate AnyLost(added: seq<Entry>) { exists x :: x in added && Lost(x) }

  predicate SaysReady(x: Entry) { x.command.GetState? && StateFrom(x.outcome) == Ok(Ready) }

  predicate SaysBooted(x: Entry) {
    x.command == GetProperty(BootCompleted) && PropertyFrom(x.outcome) == Ok("1")
  }

  predicate SaysRelease(x: Entry) {
    x.command == GetProperty(ReleaseVersion) && PropertyFrom(x.outcome).Ok? && PropertyFrom(x.outcome).value != ""
  }

  predicate DescribedBy(log: seq<Entry>) {
    var n := |log|;
    && n >= 3 && SaysRelease(log[n - 3])
    && log[n - 2].command == GetProperty(Manufacturer) && PropertyFrom(log[n - 2].outcome).Ok?
    && log[n - 1].command == GetProperty(Model) && PropertyFrom(log[n - 1].outcome).Ok?
  }

  /** From the last state report on: Ready, boot polled until completed, a release that is not blank. */
  predicate ProvenFrom(added: seq<Entry>, i: nat) {
    var n := |added|;
    && i + 4 < n && SaysReady(added[i])
    && (forall j :: i < j <= n - 4 ==> added[j].command == GetProperty(BootCompleted))
    && SaysBooted(added[n - 4]) && DescribedBy(added)
  }

  predicate Proven(added: seq<Entry>) { exists i: nat :: i < |added| && ProvenFrom(added, i) }

  lemma ProofAssembles(states: seq<Entry>, boots: seq<Entry>, described: seq<Entry>)
    requires states != [] && SaysReady(states[|states| - 1])
    requires boots != [] && SaysBooted(boots[|boots| - 1]) && |described| == 3 && DescribedBy(described)
    requires forall x :: x in boots ==> x.command == GetProperty(BootCompleted)
    ensures Proven(states + boots + described)
  {
    var added := states + boots + described;
    var i := |states| - 1;
    assert added[i] == states[i] && added[|added| - 4] == boots[|boots| - 1];
    assert forall j :: i < j <= |added| - 4 ==> added[j] == boots[j - i - 1];
    assert forall j :: 0 <= j < 3 ==> added[|added| - 3 + j] == described[j];
    assert ProvenFrom(added, i);
  }

  /** Manufacturer and model, those that are not blank, or the old name when both are. */
  function NameFrom(previous: string, manufacturer: string, model: string): string {
    if manufacturer == "" && model == "" then previous
    else if manufacturer == "" then model
    else if model == "" then manufacturer
    else manufacturer + " " + model
  }

  /** The name and the release that the last three answers give a device. */
  predicate NamedBy(previous: string, t: Device, added: seq<Entry>) {
    var n := |added|;
    && DescribedBy(added) && t.release == Some(PropertyFrom(added[n - 3].outcome).value)
    && t.name == NameFrom(previous, PropertyFrom(added[n - 2].outcome).value, PropertyFrom(added[n - 1].outcome).value)
  }

  /** What a state report makes the device record; a device missing for a moment counts as offline. */
  function Reading(c: Config, x: Entry): Option<AdbState> {
    if !x.command.GetState? then None
    else
      match StateFrom(x.outcome)
      case Ok(state) => Some(state)
      case Err(e) => if c.reconnectAttempts > 0 && TransientMissing(e) then Some(Offline) else None
  }

  function Recorded(c: Config, adb: AdbState, added: seq<Entry>): AdbState {
    if added == [] then adb
    else
      var last := Reading(c, added[|added| - 1]);
      if last.Some? then last.value else Recorded(c, adb, added[..|added| - 1])
  }

  /** The last report is recorded, unless the attempt was cut short in front of recording it. */
  predicate RecordsReports(c: Config, before: AdbState, after: AdbState, added: seq<Entry>, cut: bool) {
    || after == Recorded(c, before, added)
    || (cut && added != [] && after == Recorded(c, before, added[..|added| - 1]))
  }

  lemma OneMoreEntry(c: Config, adb: AdbState, added: seq<Entry>, x: Entry)
    ensures Recorded(c, adb, added + [x]) ==
      if Reading(c, x).Some? then Reading(c, x).value else Recorded(c, adb, added)
    ensures (added + [x])[..|added|] == added
  {
  }

  lemma FirstReport(c: Config, adb: AdbState, x: Entry)
    ensures Recorded(c, adb, [x]) == if Reading(c, x).Some? then Reading(c, x).value else adb
    ensures RecordsReports(c, adb, adb, [x], true)
    ensures Reading(c, x).None? ==> RecordsReports(c, adb, adb, [x], false)
    ensures Reading(c, x).Some? ==> RecordsReports(c, adb, Reading(c, x).value, [x], false)
  {
    OneMoreEntry(c, adb, [], x);
    assert [] + [x] == [x];
  }

  lemma {:induction false} RecordedJoins(c: Config, adb: AdbState, a: seq<Entry>, b: seq<Entry>)
    ensures Recorded(c, adb, a + b) == Recorded(c, Recorded(c, adb, a), b)
  {
    if b == [] {
      assert a + b == a;
    } else {
      var init, last := b[..|b| - 1], b[|b| - 1];
      assert a + b == a + init + [last];
      OneMoreEntry(c, adb, a + init, last);
      RecordedJoins(c, adb, a, init);
    }
  }

  lemma ReportsJoin(c: Config, before: AdbState, a: seq<Entry>, after: AdbState, b: seq<Entry>, cut: bool)
    requires RecordsReports(c, Recorded(c, before, a), after, b, cut)
    ensures RecordsReports(c, before, after, a + b, cut)
  {
    RecordedJoins(c, before, a, b);
    if b != [] {
      RecordedJoins(c, before, a, b[..|b| - 1]);
      assert (a + b)[..|a + b| - 1] == a + b[..|b| - 1];
    }
  }

  lemma {:induction false} NothingReported(c: Config, adb: AdbState, added: seq<Entry>)
    requires forall x :: x in added ==> !x.command.GetState?
    ensures Recorded(c, adb, added) == adb
  {
    if added != [] {
      NothingReported(c, adb, added[..|added| - 1]);
    }
  }

  lemma QuietEnd(c: Config, adb: AdbState, a: seq<Entry>, b: seq<Entry>)
    requires forall x :: x in b ==> !x.command.GetState?
    ensures Recorded(c, adb, a + b) == Recorded(c, adb, a)
  {
    RecordedJoins(c, adb, a, b);
    NothingReported(c, Recorded(c, adb, a), b);
  }

  lemma NameAssembles(before: seq<Entry>, described: seq<Entry>, previous: string, t: Device)
    requires |described| == 3 && NamedBy(previous, t, described)
    ensures NamedBy(previous, t, before + described)
  {
    var added := before + described;
    assert forall j :: 0 <= j < 3 ==> added[|added| - 3 + j] == described[j];
  }

  predicate ConnectSpec(c: Config, d: Device, t: Device, added: seq<Entry>, ok: bool) {
    && |added| <= 1 + 3 * c.reconnectAttempts + c.bootChecks + 3
    && (Visible(d) ==> added == [] && t == d)
    && (ok ==> Visible(t))
    && (ok && !Visible(d) ==> t.adb.Ready? && Proven(added) && NamedBy(d.name, t, added))
    && (!ok ==> t.name == d.name && t.release == d.release)
    && (!ok && !Visible(d) ==> !Visible(t))
    && RecordsReports(c, d.adb, t.adb, added, !ok)
  }

  predicate HealthSpec(d: Device, t: Device, added: seq<Entry>, ok: bool) {
    && |added| <= 2 && t.name == d.name && t.release == d.release
    && (!Visible(d) ==> added == [] && !Visible(t))
    && (AnyLost(added) ==> !Visible(t))
    && (ok && Visible(d) ==>
          && added != [] && StateFrom(added[0].outcome) == Ok(t.adb)
          && (Visible(t) <==> |added| == 2 && SaysReady(added[0]) && SaysBooted(added[1])))
    && (!(ok && Visible(d)) ==> t.adb == d.adb)
  }

  predicate DisconnectSpec(d: Device, t: Device, ok: bool) {
    t == if ok then d.(connected := false, invalidated := false) else d
  }

  function CaptureScript(screenshot: bool): seq<Command> {
    if screenshot then [Screenshot, WindowSize, WindowDensity] else [WindowSize, WindowDensity]
  }

  function ActionScript(screenshot: bool): seq<Command> {
    CaptureScript(screenshot) + [Mutation] + CaptureScript(screenshot)
  }

  predicate Follows(added: seq<Entry>, script: seq<Command>) {
    |added| <= |script| && forall i :: 0 <= i < |added| ==> added[i].command == script[i]
  }

  /** Only the last command can have failed, and none on success. */
  predicate FailureIsLast(added: seq<Entry>, ok: bool) {
    forall i :: 0 <= i < |added| && added[i].outcome.Failed? ==> !ok && i == |added| - 1
  }

  /**
   Observations and Actions: no command unless visibly connected; commands follow the script, all of it on
   success; a command that fails, be it for want of a connection or not, is the last one.
   */
  predicate UseSpec(d: Device, t: Device, added: seq<Entry>, script: seq<Command>, ok: bool) {
    && Follows(added, script) && (ok ==> |added| == |script|) && FailureIsLast(added, ok)
    && (!Visible(d) ==> added == [])
    && t.adb == d.adb && t.connected == d.connected && t.name == d.name && t.release == d.release
    && (d.invalidated || AnyLost(added) ==> t.invalidated)
  }

  lemma ScriptsJoin(before: seq<Entry>, mutation: Entry, after: seq<Entry>, screenshot: bool, ok: bool)
    requires Follows(before, CaptureScript(screenshot)) && |before| == |CaptureScript(screenshot)|
    requires Follows(after, CaptureScript(screenshot))
    requires FailureIsLast(before, true) && FailureIsLast(after, ok) && mutation.command.Mutation?
    ensures Follows(before + [mutation], ActionScript(screenshot)) && FailureIsLast(before + [mutation], false)
    ensures Follows(before + [mutation] + after, ActionScript(screenshot))
    ensures !mutation.outcome.Failed? ==> FailureIsLast(before + [mutation] + after, ok)
    ensures |after| == |CaptureScript(screenshot)| ==> |before + [mutation] + after| == |ActionScript(screenshot)|
  {
  }

  lemma CaptureComesFirst(added: seq<Entry>, screenshot: bool)
    requires Follows(added, CaptureScript(screenshot))
    ensures Follows(added, ActionScript(screenshot))
  {
  }

  lemma LostAppends(added: seq<Entry>, more: seq<Entry>)
    ensures AnyLost(added + more) <==> AnyLost(added) || AnyLost(more)
  {
  }

  // ----- The object -----

  class AndroidDevice {
    const config: Config
    var adbState: AdbState
    var name: string
    var release: Option<string>
    var connected: bool
    var invalidated: bool
    ghost var log: seq<Entry>

    ghost function View(): Device
      reads this
    {
      Device(adbState, name, release, connected, invalidated)
    }

    /** Every device starts disconnected. */
    constructor (config: Config, state: AdbState, name: string)
      requires ValidConfig(config)
      ensures View() == Device(state, name, None, false, false) && this.config == config && log == []
    {
      this.config := config;
      adbState, this.name, release := state, name, None;
      connected, invalidated, log := false, false, [];
    }

    static method Open(config: Config, state: AdbState, name: string) returns (r: Result<AndroidDevice>)
      ensures r.Ok? <==> ValidConfig(config)
      ensures r.Ok? ==> fresh(r.value) && r.value.config == config && !Visible(r.value.View()) && r.value.log == []
    {
      if !ValidConfig(config) {
        return Err(InvalidValue);
      }
      var d := new AndroidDevice(config, state, name);
      return Ok(d);
    }

    /** Whether the caller's deadline and cancellation let the operation go on. */
    method Active() returns (active: bool)
    {
      active := *;
    }

    method Issue(command: Command) returns (outcome: Outcome)
      modifies this`log
      ensures log == old(log) + [Entry(command, outcome)]
    {
      outcome := *;
      log := log + [Entry(command, outcome)];
    }

    /** Issues a command and marks the transport lost when its failure says so. */
    method IssueClassified(command: Command) returns (outcome: Outcome)
      modifies this`log, this`invalidated
      ensures log == old(log) + [Entry(command, outcome)]
      ensures invalidated == (old(invalidated) || Lost(Entry(command, outcome)))
    {
      outcome := Issue(command);
      if outcome.Failed? && LosesTransport(Classify(outcome.error)) {
        invalidated := true;
      }
    }

    method Disconnect() returns (r: Result<()>)
      modifies this
      ensures DisconnectSpec(old(View()), View(), r.Ok?) && log == old(log)
    {
      var active := Active();
      if !active {
        return Err(Interrupted);
      }
      connected := false;
      invalidated := false;
      return Ok(());
    }

    method Health() returns (r: Result<bool>, ghost added: seq<Entry>)
      modifies this
      ensures log == old(log) + added && HealthSpec(old(View()), View(), added, r.Ok?)
      ensures r.Ok? ==> r.value == Visible(View())
    {
      added := [];
      var active := Active();
      if !active {
        return Err(Interrupted), added;
      }
      if !connected || invalidated {
        connected := false;
        return Ok(false), added;
      }
      var answer := IssueClassified(GetState);
      added := [Entry(GetState, answer)];
      var state := StateFrom(answer);
      if state.Err? {
        active := Active();
        if !active {
          return Err(Interrupted), added;
        }
        connected := false;
        return Err(state.error), added;
      }
      var booted := false;
      if state.value.Ready? {
        answer := IssueClassified(GetProperty(BootCompleted));
        added := added + [Entry(GetProperty(BootCompleted), answer)];
        var value := PropertyFrom(answer);
        var boot := if value.Ok? then ParseBoot(value.value) else Err(value.error);
        if boot.Err? {
          active := Active();
          if !active {
            return Err(Interrupted), added;
          }
          connected := false;
          return Err(boot.error), added;
        }
        booted := boot.value;
      }
      active := Active();
      if !active {
        return Err(Interrupted), added;
      }
      adbState := state.value;
      connected := state.value.Ready? && booted;
      return Ok(connected), added;
    }

    /** Up to three commands a round until the device answers with something other than offline. */
    method ReconnectLoop() returns (r: Result<AdbState>, ghost added: seq<Entry>)
      requires adbState.Offline?
      modifies this
      ensures log == old(log) + added && |added| <= 3 * config.reconnectAttempts
      ensures connected == old(connected) && name == old(name) && release == old(release)
      ensures r == Ok(Ready) ==> added != [] && SaysReady(added[|added| - 1])
      ensures RecordsReports(config, old(adbState), adbState, added, r.Err?) && (r.Ok? ==> adbState == r.value)
    {
      hide Classify, StateFrom, Recorded;
      assert adbState == Recorded(config, old(adbState), []) by { NothingReported(config, adbState, []); }
      added := [];
      var attempt := 0;
      while attempt < config.reconnectAttempts
        invariant attempt <= config.reconnectAttempts
        invariant log == old(log) + added && |added| == 3 * attempt
        invariant connected == old(connected) && name == old(name) && release == old(release)
        invariant adbState == Recorded(config, old(adbState), added) && adbState.Offline?
      {
        var answer := Issue(Reconnect);
        OneMoreEntry(config, old(adbState), added, Entry(Reconnect, answer));
        added := added + [Entry(Reconnect, answer)];
        if answer.Failed? && !TransientMissing(Classify(answer.error)) {
          return Err(Classify(answer.error)), added;
        }
        answer := Issue(WaitForDevice);
        OneMoreEntry(config, old(adbState), added, Entry(WaitForDevice, answer));
        added := added + [Entry(WaitForDevice, answer)];
        if answer.Failed? && !TransientMissing(Classify(answer.error)) {
          return Err(Classify(answer.error)), added;
        }
        answer := IssueClassified(GetState);
        OneMoreEntry(config, old(adbState), added, Entry(GetState, answer));
        added := added + [Entry(GetState, answer)];
        var read := StateFrom(answer);
        if read.Err? && !TransientMissing(read.error) {
          return Err(read.error), added;
        }
        var state := if read.Ok? then read.value else Offline;
        var active := Active();
        if !active {
          return Err(Interrupted), added;
        }
        adbState := state;
        if !state.Offline? {
          return Ok(state), added;
        }
        if attempt + 1 < config.reconnectAttempts {
          active := Active();
          if !active {
            return Err(Interrupted), added;
          }
        }
        attempt := attempt + 1;
      }
      return Ok(Offline), added;
    }

    method FirstState() returns (r: Result<AdbState>, ghost added: seq<Entry>)
      modifies this
      ensures log == old(log) + added && |added| <= 1 + 3 * config.reconnectAttempts
      ensures connected == old(connected) && name == old(name) && release == old(release)
      ensures r == Ok(Ready) ==> added != [] && SaysReady(added[|added| - 1])
      ensures RecordsReports(config, old(adbState), adbState, added, r.Err?) && (r.Ok? ==> adbState == r.value)
    {
      hide Classify, StateFrom, Recorded, RecordsReports;
      var answer := IssueClassified(GetState);
      added := [Entry(GetState, answer)];
      FirstReport(config, adbState, Entry(GetState, answer));
      var read := StateFrom(answer);
      if read.Err? && !(config.reconnectAttempts > 0 && TransientMissing(read.error)) {
        return Err(read.error), added;
      }
      var state := if read.Ok? then read.value else Offline;
      var active := Active();
      if !active {
        return Err(Interrupted), added;
      }
      adbState := state;
      if !state.Offline? {
        return Ok(state), added;
      }
      ghost var more;
      r, more := ReconnectLoop();
      ReportsJoin(config, old(adbState), added, adbState, more, r.Err?);
      added := added + more;
    }

    /** Polls until boot has completed; every command is that one property read. */
    method BootLoop() returns (r: Result<bool>, ghost added: seq<Entry>)
      modifies this`log, this`invalidated
      ensures log == old(log) + added && |added| <= config.bootChecks
      ensures forall x :: x in added ==> x.command == GetProperty(BootCompleted)
      ensures r == Ok(true) ==> added != [] && SaysBooted(added[|added| - 1])
    {
      added := [];
      var attempt := 0;
      while attempt < config.bootChecks
        invariant attempt <= config.bootChecks && log == old(log) + added && |added| == attempt
        invariant forall x :: x in added ==> x.command == GetProperty(BootCompleted)
      {
        var answer := IssueClassified(GetProperty(BootCompleted));
        added := added + [Entry(GetProperty(BootCompleted), answer)];
        var value := PropertyFrom(answer);
        if value.Err? {
          return Err(value.error), added;
        }
        var boot := ParseBoot(value.value);
        if boot.Err? {
          return Err(boot.error), added;
        }
        if boot.value {
          return Ok(true), added;
        }
        if attempt + 1 < config.bootChecks {
          var active := Active();
          if !active {
            return Err(Interrupted), added;
          }
        }
        attempt := attempt + 1;
      }
      return Ok(false), added;
    }

    /** The release must not be blank; the other two properties may be. */
    method Describe() returns (r: Result<Description>, ghost added: seq<Entry>)
      modifies this`log, this`invalidated
      ensures log == old(log) + added && |added| <= 3
      ensures forall x :: x in added ==> !x.command.GetState?
      ensures r.Ok? ==>
        && |added| == 3 && DescribedBy(added) && PropertyFrom(added[0].outcome) == Ok(r.value.release)
        && PropertyFrom(added[1].outcome) == Ok(r.value.manufacturer)
        && PropertyFrom(added[2].outcome) == Ok(r.value.model)
    {
      hide PropertyFrom;
      var answer := IssueClassified(GetProperty(ReleaseVersion));
      added := [Entry(GetProperty(ReleaseVersion), answer)];
      var release := PropertyFrom(answer);
      if release.Err? {
        return Err(release.error), added;
      }
      if release.value == "" {
        return Err(InvalidValue), added;
      }
      answer := IssueClassified(GetProperty(Manufacturer));
      added := added + [Entry(GetProperty(Manufacturer), answer)];
      var manufacturer := PropertyFrom(answer);
      if manufacturer.Err? {
        return Err(manufacturer.error), added;
      }
      answer := IssueClassified(GetProperty(Model));
      added := added + [Entry(GetProperty(Model), answer)];
      var model := PropertyFrom(answer);
      if model.Err? {
        return Err(model.error), added;
      }
      return Ok(Description(release.value, manufacturer.value, model.value)), added;
    }

    method Connect() returns (r: Result<()>, ghost added: seq<Entry>)
      modifies this
      ensures log == old(log) + added && ConnectSpec(config, old(View()), View(), added, r.Ok?)
    {
      hide Proven, NamedBy;
      NothingReported(config, adbState, []);
      added := [];
      var active := Active();
      if !active {
        return Err(Interrupted), added;
      }
      if connected && !invalidated {
        return Ok(()), added;
      }
      connected := false;
      r, added := ConnectAnew();
    }

    method ConnectAnew() returns (r: Result<()>, ghost added: seq<Entry>)
      requires !connected
      modifies this
      ensures log == old(log) + added && ConnectSpec(config, old(View()), View(), added, r.Ok?)
    {
      hide SaysReady, SaysBooted, DescribedBy, Proven, Recorded, Reading, PropertyFrom, NameFrom;
      ghost var states, boots, described;
      var state;
      state, states := FirstState();
      added := states;
      if state.Err? {
        return Err(state.error), added;
      }
      if RequireReady(state.value).Err? {
        return Err(RequireReady(state.value).error), added;
      }
      var boot;
      boot, boots := BootLoop();
      added := states + boots;
      QuietEnd(config, old(adbState), states, boots);
      if boot.Err? {
        return Err(boot.error), added;
      }
      if !boot.value {
        var active := Active();
        if !active {
          return Err(Interrupted), added;
        }
        adbState, connected := Ready, false;
        return Err(BootingExhausted), added;
      }
      var description;
      description, described := Describe();
      added := states + boots + described;
      QuietEnd(config, old(adbState), states + boots, described);
      if description.Err? {
        return Err(description.error), added;
      }
      var active := Active();
      if !active {
        return Err(Interrupted), added;
      }
      name := NameFrom(name, description.value.manufacturer, description.value.model);
      adbState := Ready;
      release := Some(description.value.release);
      invalidated := false;
      connected := true;
      ProofAssembles(states, boots, described);
      NameAssembles(states + boots, described, old(name), View());
      return Ok(()), added;
    }

    /** While an observation runs, other observations on the device may lose the transport. */
    method Interfere()
      modifies this`invalidated
      ensures old(invalidated) ==> invalidated
    {
      var lost: bool := *;
      if lost {
        invalidated := true;
      }
    }

    /** A capture, or only the display's geometry when the screenshot is omitted. */
    method Capture(screenshot: bool, shared: bool) returns (r: Result<()>, ghost added: seq<Entry>)
      modifies this`log, this`invalidated
      ensures log == old(log) + added
      ensures UseSpec(old(View()), View(), added, CaptureScript(screenshot), r.Ok?)
      ensures !shared && invalidated ==> old(invalidated) || AnyLost(added)
    {
      hide Classify, CaptureScript;
      added := [];
      if !connected || invalidated {
        return Err(NotConnected), added;
      }
      var commands := CaptureScript(screenshot);
      var i := 0;
      while i < |commands|
        invariant i <= |commands| && log == old(log) + added && |added| == i
        invariant Follows(added, commands) && FailureIsLast(added, true)
        invariant !shared ==> !invalidated
      {
        if shared {
          Interfere();
        }
        var answer := IssueClassified(commands[i]);
        LostAppends(added, [Entry(commands[i], answer)]);
        added := added + [Entry(commands[i], answer)];
        if answer.Failed? {
          return Err(Classify(answer.error)), added;
        }
        var active := Active();
        if !active {
          return Err(Interrupted), added;
        }
        i := i + 1;
      }
      var usable: bool := *;
      return (if usable then Ok(()) else Err(OtherError)), added;
    }

    method Observe(screenshot: bool) returns (r: Result<()>, ghost added: seq<Entry>)
      modifies this`log, this`invalidated
      ensures log == old(log) + added
      ensures UseSpec(old(View()), View(), added, CaptureScript(screenshot), r.Ok?)
    {
      added := [];
      var active := Active();
      if !active {
        return Err(Interrupted), added;
      }
      r, added := Capture(screenshot, true);
    }

    method Execute(screenshot: bool) returns (r: Result<()>, ghost added: seq<Entry>)
      modifies this`log, this`invalidated
      ensures log == old(log) + added
      ensures UseSpec(old(View()), View(), added, ActionScript(screenshot), r.Ok?)
      ensures invalidated ==> old(invalidated) || AnyLost(added)
    {
      hide Classify, CaptureScript, ActionScript;
      added := [];
      var active := Active();
      if !active {
        return Err(Interrupted), added;
      }
      if !connected || invalidated {
        return Err(NotConnected), added;
      }
      var parsed: bool := *;
      if !parsed {
        return Err(InvalidValue), added;
      }
      ghost var before, after;
      r, before := Capture(screenshot, false);
      added := before;
      CaptureComesFirst(before, screenshot);
      if r.Err? {
        return;
      }
      active := Active();
      if !active {
        return Err(Interrupted), added;
      }
      var answer := IssueClassified(Mutation);
      ghost var mutation := Entry(Mutation, answer);
      added := before + [mutation];
      LostAppends(before, [mutation]);
      ScriptsJoin(before, mutation, [], screenshot, true);
      if answer.Failed? {
        return Err(Classify(answer.error)), added;
      }
      active := Active();
      if !active {
        return Err(Interrupted), added;
      }
      r, after := Capture(screenshot, false);
      added := added + after;
      LostAppends(before + [mutation], after);
      ScriptsJoin(before, mutation, after, screenshot, r.Ok?);
    }
  }
}
