/** Protocol features: what each request needs, and what a `system.hello` exchange may enable. */
module Negotiation {
  import opened Bytes

  datatype Feature =
    | ActionProtected | DeviceRouting | SemanticActions | EventsSnapshot | EventsStream
    | MediaStream | UiSnapshot | RequestControl | ExportPage | VerdictRecord
    | OtherFeature(name: string)

  datatype Channel = Bootstrap | Control | EventWebSocket

  datatype Method =
    | SystemHello | SystemDescribe | DevicesList | DeviceSelect | DeviceConnect | DeviceDisconnect
    | DeviceCapabilities | DeviceObserve | DeviceExecute | RequestCancel | SessionStart | SessionCurrent
    | SessionEnd | SessionsList | SessionExport | EventsList | EventsClear | EventsStreamOpen
    | EventsSubscribe | MediaStreamStart | MediaStreamCapture | MediaStreamEnd | UiSnapshotGet | RecordVerdict
  {
    function GetChannel(): Channel {
      match this
      case SystemHello => Bootstrap
      case EventsSubscribe => EventWebSocket
      case _ => Control
    }

    function RequiredFeature(): Option<Feature> {
      match this
      case DevicesList | DeviceSelect => Some(DeviceRouting)
      case RequestCancel => Some(RequestControl)
      case SessionsList | SessionExport | EventsList | EventsClear => Some(EventsSnapshot)
      case EventsStreamOpen | EventsSubscribe => Some(EventsStream)
      case MediaStreamStart | MediaStreamCapture | MediaStreamEnd => Some(MediaStream)
      case UiSnapshotGet => Some(UiSnapshot)
      case RecordVerdict => Some(VerdictRecord)
      case _ => None
    }

    predicate SupportsTimeout() {
      match this
      case DeviceConnect | DeviceDisconnect | DeviceCapabilities | DeviceObserve | DeviceExecute => true
      case MediaStreamCapture => true
      case _ => false
    }
  }

  /** A request as the feature check sees it: the method, whether a request timeout is asked for,
      and which optional members its parameter object has. */
  datatype Call = Call(
    rpc: Method, timeout: bool,
    actionTimeout: bool,   // "actionTimeoutMs"
    page: bool,            // "afterSequence" or "limit"
    semanticName: bool)    // "name" is one of the semantic action names

  datatype FeatureCheck = Allowed | NotNegotiated(feature: Feature) | TimeoutUnsupported

  /** The check made before a request is queued. */
  function CheckFeatures(call: Call, enabled: set<Feature>): (r: FeatureCheck)
    ensures r.Allowed? <==> RequiredFeatures(call) <= enabled && (call.timeout ==> call.rpc.SupportsTimeout())
    ensures r.NotNegotiated? ==> r.feature in RequiredFeatures(call) && r.feature !in enabled
  {
    var m := call.rpc;
    if m.RequiredFeature().Some? && m.RequiredFeature().value !in enabled then
      NotNegotiated(m.RequiredFeature().value)
    else if call.timeout && !m.SupportsTimeout() then TimeoutUnsupported
    else if (call.timeout || (m == DeviceExecute && call.actionTimeout)) && RequestControl !in enabled then
      NotNegotiated(RequestControl)
    else if m == SessionExport && call.page && ExportPage !in enabled then NotNegotiated(ExportPage)
    else if m == DeviceExecute && call.semanticName && SemanticActions !in enabled then
      NotNegotiated(SemanticActions)
    else Allowed
  }

  /** Everything a request relies on. */
  function RequiredFeatures(call: Call): set<Feature> {
    (if call.rpc.RequiredFeature().Some? then {call.rpc.RequiredFeature().value} else {})
    + (if call.timeout || (call.rpc == DeviceExecute && call.actionTimeout) then {RequestControl} else {})
    + (if call.rpc == SessionExport && call.page then {ExportPage} else {})
    + (if call.rpc == DeviceExecute && call.semanticName then {SemanticActions} else {})
  }

  // ----- The hello exchange -----

  datatype Version = Version(major: nat, minor: nat)
  datatype Range = Range(major: nat, minMinor: nat, maxMinor: nat)
  datatype Transport = Stdio | Tcp

  const SUPPORTED := Version(1, 5)

  datatype Offer = Offer(ranges: seq<Range>, required: set<Feature>, optional: set<Feature>)
  datatype HelloResult = HelloResult(selected: Version, enabled: set<Feature>, transport: string, framing: string)

  function MinimumMinor(f: Feature): nat {
    match f
    case RequestControl => 1
    case DeviceRouting | ActionProtected => 2
    case EventsStream => 3
    case MediaStream | ExportPage => 4
    case UiSnapshot | SemanticActions | VerdictRecord => 5
    case _ => 0
  }

  predicate ValidOffer(offer: Offer) {
    && offer.ranges != []
    && forall r :: r in offer.ranges ==>
         r.minMinor <= r.maxMinor && r.major == SUPPORTED.major && r.maxMinor <= SUPPORTED.minor
  }

  predicate Covers(r: Range, v: Version) {
    r.major == v.major && r.minMinor <= v.minor <= r.maxMinor
  }

  function WireName(t: Transport): string {
    match t case Stdio => "stdio" case Tcp => "tcp"
  }

  predicate ValidResult(offer: Offer, result: HelloResult, expected: Transport) {
    && (exists r :: r in offer.ranges && Covers(r, result.selected))
    && result.selected.major == SUPPORTED.major && result.selected.minor <= SUPPORTED.minor
    && offer.required <= result.enabled
    && result.enabled <= offer.required + offer.optional
    && (forall f :: f in result.enabled ==> MinimumMinor(f) <= result.selected.minor)
    && (ExportPage in result.enabled ==> EventsSnapshot in result.enabled)
    && (SemanticActions in result.enabled ==> UiSnapshot in result.enabled)
    && result.transport == WireName(expected) && result.framing == "ndjson"
  }

  /** A request that passes the feature check on an accepted negotiation uses only features the
      client offered and the selected protocol minor permits. */
  lemma AllowedCallsStayWithinOffer(offer: Offer, result: HelloResult, expected: Transport, call: Call)
    requires ValidResult(offer, result, expected) && CheckFeatures(call, result.enabled).Allowed?
    ensures forall f :: f in RequiredFeatures(call) ==>
              f in offer.required + offer.optional && MinimumMinor(f) <= result.selected.minor <= SUPPORTED.minor
  {
    assert RequiredFeatures(call) <= result.enabled;
  }
}
