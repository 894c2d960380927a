/**
 * Wire shapes of the remote proxy panel (an x-ui style HTTP API) as the bot
 * sees them once a response has been decoded, plus the per-server settings
 * and the add-client payload that both the server manager and the older
 * HTTP helpers build.
 */
module PanelData {
  import opened Wrappers
  import opened Text

  /** A decoded JSON value. */
  datatype Json =
    | JNull
    | JBool(b: bool)
    | JInt(i: int)
    | JStr(s: string)
    | JArr(items: seq<Json>)
    | JObj(fields: map<string, Json>)

  /** Python truthiness of a decoded JSON value. */
  predicate Truthy(v: Json) {
    match v
    case JNull => false
    case JBool(b) => b
    case JInt(i) => i != 0
    case JStr(s) => s != []
    case JArr(xs) => xs != []
    case JObj(m) => m != map[]
  }

  const EmptyObj: Json := JObj(map[])

  /** `d.get(key, default)` on a decoded object. */
  function Get(m: map<string, Json>, key: string, default: Json): Json {
    if key in m then m[key] else default
  }

  /** Outcome of one HTTP exchange: no answer at all (httpx.RequestError) or a status code. */
  datatype Status = Unreachable | Code(code: int)

  /** `raise_for_status()` does not raise exactly for these. */
  predicate Success(s: Status) {
    s.Code? && 200 <= s.code < 300
  }

  /** One entry of an inbound's `settings.clients`: the uuid-to-email binding. */
  datatype SettingsClient = SettingsClient(id: string, email: string)

  /** One entry of an inbound's `clientStats`: its own record id, the email
      that joins it to the settings, and its traffic counters
      (`up`/`uplink`, `down`/`downlink`, possibly absent). */
  datatype Stat = Stat(id: int, email: string, counters: map<string, Json>)

  /** One element of `/panel/api/inbounds/list`'s `obj`. `settings` is the
      decoded client list of the embedded settings blob, or None when that
      blob does not parse. */
  datatype Inbound = Inbound(id: int, settings: Option<seq<SettingsClient>>, clientStats: seq<Stat>)

  /** Per-server settings read from the `<sid>_` prefixed environment. */
  datatype ServerConfig = ServerConfig(
    baseUrl: string,
    username: string,
    password: string,
    inbounds: string,   // comma-separated inbound ids
    domain: string,
    port: int,
    flow: string,
    pbk: string,
    sni: string,
    shortId: string,    // the `SID` setting: the REALITY short id
    fp: string,
    spx: string,
    verifySsl: bool)

  /** The client object posted to `/panel/api/inbounds/addClient`. */
  datatype NewClient = NewClient(
    id: string,
    email: string,
    flow: string,
    limitIp: int,
    totalGB: int,
    expiryTime: int,
    enable: bool,
    tgId: int,
    subId: string,
    reset: int,
    sid: string)

  /** `{"id": inbound_id, "settings": {"clients": [...]}}` */
  datatype AddPayload = AddPayload(inboundId: int, clients: seq<NewClient>)

  /**
   * The add-client payload: one client whose uuid is its email, with no IP
   * limit, no quota, no expiry, enabled, under the server's flow.
   */
  function AddClientPayload(inboundId: int, email: string, flow: string, tgId: int): (p: AddPayload)
    ensures p.inboundId == inboundId && |p.clients| == 1
    ensures p.clients[0].id == email && p.clients[0].email == email && p.clients[0].enable
    ensures p.clients[0].limitIp == 0 && p.clients[0].totalGB == 0 && p.clients[0].expiryTime == 0
    ensures p.clients[0].flow == flow && p.clients[0].tgId == tgId
    ensures p.clients[0].subId == "" && p.clients[0].sid == "" && p.clients[0].reset == 0
  {
    AddPayload(inboundId, [NewClient(email, email, flow, 0, 0, 0, true, tgId, "", 0, "")])
  }

  /** The uuid-to-email binding a created client contributes to its inbound's settings. */
  function SettingsOf(c: NewClient): SettingsClient {
    SettingsClient(c.id, c.email)
  }

  /** The owner prefix `"{tg_id}_"` that binds a panel client to a chat identity. */
  function OwnerPrefix(tgId: int): string {
    IntToDecimal(tgId) + "_"
  }

  const InboundsApi: string := "/panel/api/inbounds/"
  const DelClientSegment: string := "/delClient/"

  /** `/panel/api/inbounds/{inbound_id}/delClient/{client_id}` */
  function DeletePath(inboundId: int, clientId: string): string {
    InboundsApi + IntToDecimal(inboundId) + DelClientSegment + clientId
  }

  /** Reads the inbound id and the client id back out of a delete path. */
  function ParseDeletePath(path: string): Option<(int, string)> {
    if !StartsWith(path, InboundsApi) then None
    else ParseAfterApi(path[|InboundsApi|..])
  }

  /** The part after `/panel/api/inbounds/`: the id up to the next `/`. */
  function ParseAfterApi(rest: string): Option<(int, string)> {
    match IndexOf(rest, '/')
    case None => None
    case Some(k) => ParseIdAndTail(rest[..k], rest[k..])
  }

  /** The id text, then `/delClient/` and the client id. */
  function ParseIdAndTail(idText: string, tail: string): Option<(int, string)> {
    if !StartsWith(tail, DelClientSegment) then None
    else
      match ParseInt(idText)
      case None => None
      case Some(n) => Some((n, tail[|DelClientSegment|..]))
  }

  /** The delete path names exactly the inbound and the client it was built
      from: the client id is everything after the fixed segment, whatever
      characters it holds. */
  lemma DeletePathRoundTrip(inboundId: int, clientId: string)
    ensures ParseDeletePath(DeletePath(inboundId, clientId)) == Some((inboundId, clientId))
  {
    var digits := IntToDecimal(inboundId);
    assert '/' !in digits;
    DeletePathParts(digits, clientId);
    ParseIntToDecimal(inboundId);
    IdAndTail(digits, clientId, inboundId);
  }

  lemma DeletePathParts(digits: string, clientId: string)
    requires '/' !in digits
    ensures ParseDeletePath(InboundsApi + digits + DelClientSegment + clientId)
         == ParseIdAndTail(digits, DelClientSegment + clientId)
  {
    var tail := DelClientSegment + clientId;
    var rest := digits + tail;
    var path := InboundsApi + rest;
    assert path == InboundsApi + digits + DelClientSegment + clientId;
    ApiPrefix(rest);
    AfterApi(digits, tail);
  }

  lemma ApiPrefix(rest: string)
    ensures ParseDeletePath(InboundsApi + rest) == ParseAfterApi(rest)
  {
    var path := InboundsApi + rest;
    assert path[..|InboundsApi|] == InboundsApi;
    assert path[|InboundsApi|..] == rest;
  }

  lemma AfterApi(digits: string, tail: string)
    requires '/' !in digits
    requires tail != [] && tail[0] == '/'
    ensures ParseAfterApi(digits + tail) == ParseIdAndTail(digits, tail)
  {
    var rest := digits + tail;
    assert tail == ['/'] + tail[1..];
    IndexOfAfter(digits, '/', tail[1..]);
    assert rest == digits + ['/'] + tail[1..];
    assert rest[..|digits|] == digits;
    assert rest[|digits|..] == tail;
  }

  lemma IdAndTail(digits: string, clientId: string, n: int)
    requires ParseInt(digits) == Some(n)
    ensures ParseIdAndTail(digits, DelClientSegment + clientId) == Some((n, clientId))
  {
    var tail := DelClientSegment + clientId;
    assert tail[..|DelClientSegment|] == DelClientSegment;
    assert tail[|DelClientSegment|..] == clientId;
  }
}
