/**
 The journal record on disk (service/src/state_record.rs; crates/varmlen-protocol/src/lib.rs for the request in it).
 */
module Records {
  import opened Wrappers
  import opened Json
  import opened Text
  import opened Bytes
  import opened Protocol

  const MAGIC: seq<Byte> := [0x56, 0x52, 0x4d, 0x4c, 0x4e, 0x53, 0x54, 0x31]
  const HEADER_BYTES := 12
  const MAX_STATE_BYTES := 0x10_0000
  const MAX_CONFIG_BYTES := 384 * 1024
  const FORMAT_VERSION := 2
  const LIMIT_64 := 0x1_0000_0000_0000_0000
  const PORT_LIMIT := 0x1_0000
  const DEFAULT_XRAY_VERSION := "26.3.27"

  datatype RecordError = InvalidRecord | TooLarge | BadHeader | BadLength | BadPayload | NoVersion

  datatype Record = Record(formatVersion: nat, state: DesiredState)

  /** `trim_start_matches('v')`. */
  function WithoutV(s: string): string {
    if s != "" && s[0] == 'v' then WithoutV(s[1..]) else s
  }

  predicate TagChar(c: char) {
    'a' <= c <= 'z' || 'A' <= c <= 'Z' || '0' <= c <= '9' || c == '.' || c == '-' || c == '_'
  }

  predicate ValidCoreTag(tag: string) {
    var bare := WithoutV(tag);
    0 < |bare| <= 64 && forall i | 0 <= i < |bare| :: TagChar(bare[i])
  }

  predicate ValidSelectorField(text: string) {
    Trim(text) != "" && Utf8Length(text) <= 4096 && '\0' !in text
  }

  /** How long the text of a configuration is, which is a tree here. */
  type Sizes = Json -> nat

  /** What the service demands of a request. */
  predicate ValidRequest(request: ConnectRequest, size: Sizes) {
    && ValidCoreTag(request.xrayVersion)
    && 0 < size(request.xrayConfig) <= MAX_CONFIG_BYTES
    && 0 < size(request.validationConfig) <= MAX_CONFIG_BYTES
    && 0 < |request.serverEndpoints| <= 64
    && (forall i | 0 <= i < |request.serverEndpoints| :: request.serverEndpoints[i].port != 0)
    && |request.excludedApps| <= 256
    && forall i | 0 <= i < |request.excludedApps| ::
         ValidSelectorField(request.excludedApps[i].canonicalPath)
           && ValidSelectorField(request.excludedApps[i].basename)
  }

  predicate ValidRecord(record: Record, size: Sizes) {
    && record.formatVersion == FORMAT_VERSION
    && match record.state.phase
       case WantConnecting(candidate, previous, _) =>
         ValidRequest(candidate, size) && (previous.Some? ==> ValidRequest(previous.value, size))
       case WantConnected(request) => ValidRequest(request, size)
       case WantBlocked(reason) => Utf8Length(reason) <= 4096
       case _ => true
  }

  function EndpointJson(endpoint: Endpoint): Json {
    Str(endpoint.address + ":" + Decimal(endpoint.port))
  }

  function EndpointsJson(endpoints: seq<Endpoint>): (r: seq<Json>)
    ensures |r| == |endpoints|
  {
    seq(|endpoints|, i requires 0 <= i < |endpoints| => EndpointJson(endpoints[i]))
  }

  function SelectorJson(selector: AppSelector): Json {
    Obj(map["canonical_path" := Str(selector.canonicalPath), "basename" := Str(selector.basename)])
  }

  function SelectorsJson(selectors: seq<AppSelector>): (r: seq<Json>)
    ensures |r| == |selectors|
  {
    seq(|selectors|, i requires 0 <= i < |selectors| => SelectorJson(selectors[i]))
  }

  /** A request as JSON; a configuration text is represented by the tree it parses to. */
  function RequestJson(request: ConnectRequest): Json {
    Obj(map["xray_version" := Str(request.xrayVersion),
            "xray_config" := request.xrayConfig,
            "validation_config" := request.validationConfig,
            "server_endpoints" := Arr(EndpointsJson(request.serverEndpoints)),
            "excluded_apps" := Arr(SelectorsJson(request.excludedApps)),
            "apps_selective" := Bool(request.appsSelective),
            "killswitch" := Bool(request.killswitch),
            "allow_lan" := Bool(request.allowLan)])
  }

  function PhaseJson(phase: DesiredPhase): Json {
    Obj(match phase
        case WantDisconnected => map["state" := Str("disconnected")]
        case WantConnecting(candidate, previous, requested) =>
          map["state" := Str("connecting"),
              "candidate" := RequestJson(candidate),
              "previous" := if previous.Some? then RequestJson(previous.value) else Null,
              "requested_kill_switch" := Bool(requested)]
        case WantConnected(request) => map["state" := Str("connected"), "request" := RequestJson(request)]
        case WantDisconnecting(keepBlocked) => map["state" := Str("disconnecting"), "keep_blocked" := Bool(keepBlocked)]
        case WantBlocked(reason) => map["state" := Str("blocked"), "reason" := Str(reason)])
  }

  function RecordJson(record: Record): Json {
    Obj(map["format_version" := Number(record.formatVersion),
            "operation_id" := Number(record.state.operationId),
            "phase" := PhaseJson(record.state.phase)])
  }

  /** A number that fits an unsigned integer below `limit`. */
  function Unsigned(value: Option<Json>, limit: nat): (r: Option<nat>)
    ensures r.Some? ==> r.value < limit
  {
    match value
    case Some(Number(n)) => if 0 <= n < limit then Some(n) else None
    case _ => None
  }

  function Flag(value: Option<Json>): Option<bool> {
    match value case Some(Bool(flag)) => Some(flag) case _ => None
  }

  /** Split a socket address at its last colon. */
  function EndpointOf(text: string): Option<Endpoint> {
    if text == "" then None
    else if text[|text| - 1] == ':' then Some(Endpoint(text[..|text| - 1], 0))
    else if !('0' <= text[|text| - 1] <= '9') then None
    else match EndpointOf(text[..|text| - 1])
      case None => None
      case Some(endpoint) => Some(endpoint.(port := 10 * endpoint.port + (text[|text| - 1] - '0') as nat))
  }

  function EndpointsOf(items: seq<Json>): Option<seq<Endpoint>> {
    if items == [] then Some([])
    else if !items[0].Str? then None
    else match (EndpointOf(items[0].text), EndpointsOf(items[1..]))
      case (Some(endpoint), Some(rest)) => if endpoint.port < PORT_LIMIT then Some([endpoint] + rest) else None
      case _ => None
  }

  function SelectorsOf(items: seq<Json>): Option<seq<AppSelector>> {
    if items == [] then Some([])
    else match (items[0].GetStr("canonical_path"), items[0].GetStr("basename"), SelectorsOf(items[1..]))
      case (Some(path), Some(name), Some(rest)) => Some([AppSelector(path, name)] + rest)
      case _ => None
  }

  /** A missing field has its default, a field of the wrong type is an error. */
  function RequestOf(value: Json): Option<ConnectRequest> {
    var version := if value.Get("xray_version").None? then Some(DEFAULT_XRAY_VERSION) else value.GetStr("xray_version");
    var selective := if value.Get("apps_selective").None? then Some(false) else Flag(value.Get("apps_selective"));
    var endpoints := match value.GetArr("server_endpoints") case Some(items) => EndpointsOf(items) case None => None;
    var apps := match value.GetArr("excluded_apps") case Some(items) => SelectorsOf(items) case None => None;
    var killswitch, allowLan := Flag(value.Get("killswitch")), Flag(value.Get("allow_lan"));
    if version.Some? && selective.Some? && endpoints.Some? && apps.Some? && killswitch.Some? && allowLan.Some?
       && value.Get("xray_config").Some? && value.Get("validation_config").Some?
    then Some(ConnectRequest(version.value, value.Get("xray_config").value, value.Get("validation_config").value,
                             endpoints.value, apps.value, selective.value, killswitch.value, allowLan.value))
    else None
  }

  function RequestIn(value: Option<Json>): Option<ConnectRequest> {
    if value.Some? then RequestOf(value.value) else None
  }

  function PhaseOf(value: Json): Option<DesiredPhase> {
    var state := value.GetStr("state");
    if state == Some("disconnected") then Some(WantDisconnected)
    else if state == Some("connecting") then
      var candidate, requested := RequestIn(value.Get("candidate")), Flag(value.Get("requested_kill_switch"));
      var absent := value.Get("previous").None? || value.Get("previous") == Some(Null);
      if candidate.None? || requested.None? || (!absent && RequestIn(value.Get("previous")).None?) then None
      else
        var previous := if absent then None else RequestIn(value.Get("previous"));
        Some(WantConnecting(candidate.value, previous, requested.value))
    else if state == Some("connected") then
      match RequestIn(value.Get("request")) case Some(request) => Some(WantConnected(request)) case None => None
    else if state == Some("disconnecting") then
      match Flag(value.Get("keep_blocked")) case Some(keep) => Some(WantDisconnecting(keep)) case None => None
    else if state == Some("blocked") then
      match value.GetStr("reason") case Some(reason) => Some(WantBlocked(reason)) case None => None
    else None
  }

  function RecordOf(value: Json): Option<Record> {
    match (Unsigned(value.Get("format_version"), 0x1_0000), Unsigned(value.Get("operation_id"), LIMIT_64),
           value.Get("phase"))
    case (Some(version), Some(operationId), Some(phase)) =>
      (match PhaseOf(phase) case Some(p) => Some(Record(version, DesiredState(operationId, p))) case None => None)
    case _ => None
  }

  /** A record of the first format: a connection, and nothing else. */
  function LegacyOf(value: Json): Option<Record> {
    match (Unsigned(value.Get("operation_id"), LIMIT_64), RequestIn(value.Get("request")))
    case (Some(operationId), Some(request)) =>
      Some(Record(FORMAT_VERSION, DesiredState(operationId, WantConnected(request))))
    case _ => None
  }

  function Framed(payload: seq<Byte>): seq<Byte>
    requires |payload| <= MAX_STATE_BYTES
  {
    MAGIC + LittleEndian(|payload|) + payload
  }

  /** `text` is the JSON text of the record. */
  function Encode(record: Record, text: seq<Byte>, size: Sizes): Result<seq<Byte>, RecordError> {
    if !ValidRecord(record, size) then Err(InvalidRecord)
    else if |text| > MAX_STATE_BYTES then Err(TooLarge)
    else Ok(Framed(text))
  }

  /** The payload of an encoded record, if its header is in order. */
  function Payload(encoded: seq<Byte>): Result<seq<Byte>, RecordError> {
    if |encoded| < HEADER_BYTES || encoded[..8] != MAGIC then Err(BadHeader)
    else
      var length := FromLittleEndian(encoded[8..12]);
      if length > MAX_STATE_BYTES || |encoded| != HEADER_BYTES + length then Err(BadLength)
      else Ok(encoded[12..])
  }

  /** `parsed` is what the JSON parser makes of the payload. */
  function Decode(encoded: seq<Byte>, parsed: Option<Json>, size: Sizes): Result<Record, RecordError> {
    match Payload(encoded)
    case Err(error) => Err(error)
    case Ok(_) =>
      if parsed.None? then Err(BadPayload)
      else if Unsigned(parsed.value.Get("format_version"), LIMIT_64).None? then Err(NoVersion)
      else
        var record := if parsed.value.Get("format_version") == Some(Number(1)) then LegacyOf(parsed.value)
          else RecordOf(parsed.value);
        if record.None? then Err(BadPayload)
        else if !ValidRecord(record.value, size) then Err(InvalidRecord)
        else Ok(record.value)
  }

  /** A payload comes out of exactly one input: its own frame, of exactly its length. */
  lemma PayloadExactlyFramed(encoded: seq<Byte>, payload: seq<Byte>)
    requires |payload| <= MAX_STATE_BYTES
    ensures Payload(encoded) == Ok(payload) <==> encoded == Framed(payload)
  {
    hide LittleEndian, FromLittleEndian;
    LittleEndianBothWays(|payload|, if |encoded| >= 12 then encoded[8..12] else []);
    if encoded == Framed(payload) {
      assert encoded[8..12] == LittleEndian(|payload|) && encoded[..8] == MAGIC && encoded[12..] == payload;
    }
    if Payload(encoded) == Ok(payload) {
      assert encoded == encoded[..8] + encoded[8..12] + encoded[12..];
    }
  }

  lemma {:induction false} EndpointDigits(address: string, n: nat)
    ensures EndpointOf(address + ":" + Decimal(n)) == Some(Endpoint(address, n))
  {
    hide Decimal;
    DecimalEnds(n);
    var digits, rest := Decimal(n), if n < 10 then "" else Decimal(n / 10);
    var text := address + ":" + digits;
    assert text[|text| - 1] == digits[|digits| - 1];
    assert text[..|text| - 1] == address + ":" + rest;
    if n < 10 {
      assert text[..|text| - 1][..|address|] == address;
    } else {
      EndpointDigits(address, n / 10);
    }
  }

  lemma {:induction false} EndpointsReadBack(endpoints: seq<Endpoint>)
    requires forall i | 0 <= i < |endpoints| :: endpoints[i].port < PORT_LIMIT
    ensures EndpointsOf(EndpointsJson(endpoints)) == Some(endpoints)
  {
    hide EndpointOf, Decimal;
    if endpoints != [] {
      EndpointDigits(endpoints[0].address, endpoints[0].port);
      EndpointsReadBack(endpoints[1..]);
      assert EndpointsJson(endpoints)[1..] == EndpointsJson(endpoints[1..]);
      assert EndpointsJson(endpoints)[0] == EndpointJson(endpoints[0]);
      assert [endpoints[0]] + endpoints[1..] == endpoints;
    }
  }

  lemma {:induction false} SelectorsReadBack(selectors: seq<AppSelector>)
    ensures SelectorsOf(SelectorsJson(selectors)) == Some(selectors)
  {
    if selectors != [] {
      SelectorsReadBack(selectors[1..]);
      assert SelectorsJson(selectors)[1..] == SelectorsJson(selectors[1..]);
      assert SelectorsJson(selectors)[0] == SelectorJson(selectors[0]);
      assert [selectors[0]] + selectors[1..] == selectors;
    }
  }

  /** The ports fit 16 bits, as they do in the source. */
  predicate PortsFit(request: ConnectRequest) {
    forall i | 0 <= i < |request.serverEndpoints| :: request.serverEndpoints[i].port < PORT_LIMIT
  }

  predicate Fits(state: DesiredState) {
    && state.operationId < LIMIT_64
    && match state.phase
       case WantConnecting(candidate, previous, _) =>
         PortsFit(candidate) && (previous.Some? ==> PortsFit(previous.value))
       case WantConnected(request) => PortsFit(request)
       case _ => true
  }

  lemma RequestReadBack(request: ConnectRequest)
    requires PortsFit(request)
    ensures RequestOf(RequestJson(request)) == Some(request)
  {
    hide EndpointsOf, EndpointsJson, SelectorsOf, SelectorsJson;
    EndpointsReadBack(request.serverEndpoints);
    SelectorsReadBack(request.excludedApps);
  }

  lemma PhaseReadBack(state: DesiredState)
    requires Fits(state)
    ensures PhaseOf(PhaseJson(state.phase)) == Some(state.phase)
  {
    hide RequestOf, RequestJson, PortsFit;
    match state.phase
    case WantConnecting(candidate, previous, _) =>
      RequestReadBack(candidate);
      if previous.Some? {
        RequestReadBack(previous.value);
        assert RequestJson(previous.value) != Null by { RequestIsObject(previous.value); }
      }
    case WantConnected(request) => RequestReadBack(request);
    case _ =>
  }

  lemma RequestIsObject(request: ConnectRequest)
    ensures RequestJson(request).Obj?
  {}

  /** Every valid record whose text fits is read back exactly. */
  lemma RecordReadBack(record: Record, text: seq<Byte>, size: Sizes)
    requires ValidRecord(record, size) && Fits(record.state)
    ensures Encode(record, text, size).Ok? <==> |text| <= MAX_STATE_BYTES
    ensures Encode(record, text, size).Ok? ==>
              Payload(Encode(record, text, size).value) == Ok(text)
                && Decode(Encode(record, text, size).value, Some(RecordJson(record)), size) == Ok(record)
  {
    hide Payload, Framed, ValidRequest, PhaseOf, PhaseJson;
    PhaseReadBack(record.state);
    if |text| <= MAX_STATE_BYTES {
      PayloadExactlyFramed(Framed(text), text);
    }
  }

  /**
   Whatever is accepted is a valid record of the current format, framed to the byte; from the first format, a
   connection.
   */
  lemma AcceptedIsValid(encoded: seq<Byte>, parsed: Option<Json>, size: Sizes)
    requires Decode(encoded, parsed, size).Ok?
    ensures ValidRecord(Decode(encoded, parsed, size).value, size)
    ensures Payload(encoded).Ok? && |Payload(encoded).value| <= MAX_STATE_BYTES
            && encoded == Framed(Payload(encoded).value)
    ensures parsed.Some?
            && (parsed.value.Get("format_version") == Some(Number(1)) ==>
                Decode(encoded, parsed, size).value.state.phase.WantConnected?)
  {
    hide ValidRequest, RequestOf, RecordOf;
    PayloadExactlyFramed(encoded, Payload(encoded).value);
  }

  /** A record of the first format is accepted exactly when it has an operation and a valid request. */
  lemma LegacyAcceptedExactlyWhen(payload: seq<Byte>, value: Json, size: Sizes)
    requires |payload| <= MAX_STATE_BYTES && value.Get("format_version") == Some(Number(1))
    ensures Decode(Framed(payload), Some(value), size).Ok? <==>
              && Unsigned(value.Get("operation_id"), LIMIT_64).Some?
              && RequestIn(value.Get("request")).Some?
              && ValidRequest(RequestIn(value.Get("request")).value, size)
  {
    hide ValidRequest, RequestOf, Payload, Framed;
    PayloadExactlyFramed(Framed(payload), payload);
  }
}
