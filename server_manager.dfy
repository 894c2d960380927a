/**
 * The panel-orchestration core (services/server_manager.py): a per-server
 * login-cookie cache, the derivation of client records from the panel's
 * inbound list, least-loaded server selection, create/delete with a
 * capacity check and cache-key invalidation, and the traffic lookup.
 *
 * The remote panels are a parameter `world: string -> Panel` that says how
 * each server answers; time is an integer clock in seconds.
 */
module ServerManager {
  import opened Wrappers
  import opened Text
  import opened PanelData

  /** A login is trusted for 30 minutes. */
  const SessionLifetime: int := 30 * 60

  /** A cached login: the cookie jar ("" is an empty jar) and its expiry. */
  datatype Session = Session(cookies: string, expires: int)

  /** The answer to `POST /login`: transport/status outcome, the `success`
      flag of the decoded body, and the cookies it set. */
  datatype LoginReply = LoginReply(status: Status, success: bool, cookies: string)

  /** How one remote panel answers each kind of call. */
  datatype Panel = Panel(
    login: LoginReply,
    listStatus: Status,
    inbounds: seq<Inbound>,
    addStatus: Status,
    deleteStatus: Status,
    onlinesStatus: Status,
    onlinesBody: map<string, Json>)

  datatype Failure =
    | HttpError(status: Status)     // httpx.RequestError or HTTPStatusError
    | LoginRejected                 // the login body's `success` is falsy
    | UnknownServer(sid: string)    // `self.cfgs[sid]` raises KeyError
    | ServerFull(sid: string)       // the capacity check refuses
    | NoServers                     // every server failed in pick_least_loaded
    | OnlinesUnsupported            // the onlines endpoint answered 404
    | MalformedReply                // a decoded reply lacks a key or is not an object
    | BadSetting(text: string)      // `int(...)` of a configured inbound id raises ValueError
    | AllFull                       // ensure_user_profile: the picked server is full

  /** One element of `list_clients`: the panel's client-stat entry enriched
      with its uuid, its inbound and its canonical traffic counters. */
  datatype ClientRow = ClientRow(stat: Stat, uuid: string, inboundId: int, bytesIn: Json, bytesOut: Json) {
    function Email(): string { stat.email }
  }

  // ---------------------------------------------------------------------
  // Login-cookie cache

  function Lookup(m: map<string, Session>, sid: string): Option<Session> {
    if sid in m then Some(m[sid]) else None
  }

  /** Stores a new session for `sid`, or leaves the map alone when there is none. */
  function Store(m: map<string, Session>, sid: string, s: Option<Session>): map<string, Session> {
    if s.Some? then m[sid := s.value] else m
  }

  /** A cached entry is reused when its jar is non-empty and it has not expired. */
  predicate Usable(e: Option<Session>, now: int) {
    e.Some? && e.value.cookies != [] && e.value.expires > now
  }

  /**
   * `_auth(sid, force)` for one server, given the server's cached entry:
   * the cookies it returns (or the failure it raises) and the session it
   * stores (None: the cache entry is left as it was).
   */
  function AuthStep(sid: string, entry: Option<Session>, force: bool, now: int, configured: bool, reply: LoginReply)
    : (out: (Result<string, Failure>, Option<Session>))
    ensures !force && Usable(entry, now) ==> out == (Ok(entry.value.cookies), None)
    ensures (force || !Usable(entry, now)) ==>
              (out.0.Ok? <==> configured && Success(reply.status) && reply.success)
    ensures (force || !Usable(entry, now)) && out.0.Ok? ==>
              out.0.value == reply.cookies && out.1 == Some(Session(reply.cookies, now + SessionLifetime))
    ensures out.0.Err? ==> out.1.None?
    ensures (force || !Usable(entry, now)) && !configured ==> out.0 == Err(UnknownServer(sid))
  {
    if !force && Usable(entry, now) then (Ok(entry.value.cookies), None)
    else if !configured then (Err(UnknownServer(sid)), None)
    else if !Success(reply.status) then (Err(HttpError(reply.status)), None)
    else if !reply.success then (Err(LoginRejected), None)
    else (Ok(reply.cookies), Some(Session(reply.cookies, now + SessionLifetime)))
  }

  /** After a successful login that set cookies, every call without
      `force` within the next 30 minutes is answered from the cache,
      whatever the panel would say; from the 30th minute on, it logs in
      again. */
  lemma LoginThenCached(sid: string, entry: Option<Session>, force: bool, now: int, reply: LoginReply,
                        now2: int, configured: bool, reply2: LoginReply)
    requires AuthStep(sid, entry, force, now, true, reply).1.Some?
    requires reply.cookies != []
    requires now <= now2
    ensures var stored := AuthStep(sid, entry, force, now, true, reply).1;
            && (now2 < now + SessionLifetime ==>
                  AuthStep(sid, stored, false, now2, configured, reply2) == (Ok(reply.cookies), None))
            && (now2 >= now + SessionLifetime ==>
                  AuthStep(sid, stored, false, now2, configured, reply2) == AuthStep(sid, None, false, now2, configured, reply2))
  {
  }

  // ---------------------------------------------------------------------
  // Traffic fields and reply envelopes

  /** A traffic sample with canonical field names. */
  datatype Traffic = Traffic(uplink: Json, downlink: Json)

  /**
   * `_normalize_traffic`: `uplink` wins over `up` and `downlink` over
   * `down`; a missing pair defaults to 0.
   */
  function NormalizeTraffic(m: map<string, Json>): (t: Traffic)
    ensures "uplink" in m ==> t.uplink == m["uplink"]
    ensures "uplink" !in m && "up" in m ==> t.uplink == m["up"]
    ensures "uplink" !in m && "up" !in m ==> t.uplink == JInt(0)
    ensures "downlink" in m ==> t.downlink == m["downlink"]
    ensures "downlink" !in m && "down" in m ==> t.downlink == m["down"]
    ensures "downlink" !in m && "down" !in m ==> t.downlink == JInt(0)
  {
    Traffic(Get(m, "uplink", Get(m, "up", JInt(0))), Get(m, "downlink", Get(m, "down", JInt(0))))
  }

  /** The object a normalised sample would be sent back as. */
  function TrafficFields(t: Traffic): map<string, Json> {
    map["uplink" := t.uplink, "downlink" := t.downlink]
  }

  /** Normalising twice is normalising once, and an alias never overrides the
      canonical field. */
  lemma NormalizeStable(m: map<string, Json>, alias: string, v: Json)
    requires alias == "up" || alias == "down"
    ensures NormalizeTraffic(TrafficFields(NormalizeTraffic(m))) == NormalizeTraffic(m)
    ensures "uplink" in m && "downlink" in m ==> NormalizeTraffic(m[alias := v]) == NormalizeTraffic(m)
  {
  }

  /**
   * `_extract_obj`: an object reply yields its `obj` (default `{}`); a list
   * reply whose head is an object yields that head; anything else yields
   * `{}`. Only an object reply can yield something that is not an object.
   */
  function ExtractObj(raw: Json): (obj: Json)
    ensures raw.JObj? ==> obj == Get(raw.fields, "obj", EmptyObj)
    ensures raw.JArr? && raw.items != [] && raw.items[0].JObj? ==> obj == raw.items[0]
    ensures !raw.JObj? && !(raw.JArr? && raw.items != [] && raw.items[0].JObj?) ==> obj == EmptyObj
    ensures !raw.JObj? ==> obj.JObj?
  {
    match raw
    case JObj(m) => Get(m, "obj", EmptyObj)
    case JArr(xs) => if xs != [] && xs[0].JObj? then xs[0] else EmptyObj
    case _ => EmptyObj
  }

  // ---------------------------------------------------------------------
  // list_clients: joining settings.clients with clientStats

  /** `{c["email"]: c["id"] for c in clients}`: a later client with the same
      email overwrites an earlier one. */
  function UuidMap(cs: seq<SettingsClient>): map<string, string>
    decreases |cs|
  {
    if cs == [] then map[] else UuidMap(cs[..|cs| - 1])[cs[|cs| - 1].email := cs[|cs| - 1].id]
  }

  /** The uuid table of an inbound; empty when its settings do not parse. */
  function UuidTable(settings: Option<seq<SettingsClient>>): map<string, string> {
    match settings
    case None => map[]
    case Some(cs) => UuidMap(cs)
  }

  /** `j` is the last settings client carrying `email`. */
  predicate LastWithEmail(cs: seq<SettingsClient>, email: string, j: int) {
    0 <= j < |cs| && cs[j].email == email && forall k :: j < k < |cs| ==> cs[k].email != email
  }

  /** The uuid table maps an email exactly when some settings client has it,
      and then to the id of the last such client. */
  lemma {:induction false} UuidMapSpec(cs: seq<SettingsClient>, email: string)
    ensures email in UuidMap(cs) <==> exists i :: 0 <= i < |cs| && cs[i].email == email
    ensures email in UuidMap(cs) ==> exists j :: LastWithEmail(cs, email, j) && UuidMap(cs)[email] == cs[j].id
    decreases |cs|
  {
    if cs != [] {
      var init := cs[..|cs| - 1];
      UuidMapSpec(init, email);
      if cs[|cs| - 1].email == email {
        assert LastWithEmail(cs, email, |cs| - 1);
      } else if email in UuidMap(init) {
        var j :| LastWithEmail(init, email, j) && UuidMap(init)[email] == init[j].id;
        assert LastWithEmail(cs, email, j);
      } else {
        forall i | 0 <= i < |cs| ensures cs[i].email != email {
          if i < |cs| - 1 { assert cs[i] == init[i]; }
        }
      }
    }
  }

  /** The row built from one client-stat entry of inbound `inboundId`. */
  function Enrich(st: Stat, inboundId: int, uuids: map<string, string>): ClientRow {
    var t := NormalizeTraffic(st.counters);
    ClientRow(st, if st.email in uuids then uuids[st.email] else "", inboundId, t.uplink, t.downlink)
  }

  /** The rows of one inbound, one per client-stat entry, in order. */
  function RowsOf(ib: Inbound): seq<ClientRow> {
    var uuids := UuidTable(ib.settings);
    seq(|ib.clientStats|, j requires 0 <= j < |ib.clientStats| => Enrich(ib.clientStats[j], ib.id, uuids))
  }

  /** The rows `list_clients` returns for an inbound list: inbound by inbound. */
  function DeriveClients(items: seq<Inbound>): seq<ClientRow>
    decreases |items|
  {
    if items == [] then [] else DeriveClients(items[..|items| - 1]) + RowsOf(items[|items| - 1])
  }

  /** The number of client-stat entries over all inbounds. */
  function StatCount(items: seq<Inbound>): nat
    decreases |items|
  {
    if items == [] then 0 else StatCount(items[..|items| - 1]) + |items[|items| - 1].clientStats|
  }

  /** Exactly one row per client-stat entry. */
  lemma {:induction false} DeriveClientsLength(items: seq<Inbound>)
    ensures |DeriveClients(items)| == StatCount(items)
    decreases |items|
  {
    if items != [] {
      DeriveClientsLength(items[..|items| - 1]);
    }
  }

  /** Rows are ordered by inbound, then by stat: the j-th stat of the i-th
      inbound sits right after all stats of the inbounds before it. */
  lemma {:induction false} DeriveClientsAt(items: seq<Inbound>, i: nat, j: nat)
    requires i < |items| && j < |items[i].clientStats|
    ensures StatCount(items[..i]) + j < |DeriveClients(items)|
    ensures DeriveClients(items)[StatCount(items[..i]) + j]
         == Enrich(items[i].clientStats[j], items[i].id, UuidTable(items[i].settings))
    decreases |items|
  {
    var init := items[..|items| - 1];
    DeriveClientsLength(items);
    DeriveClientsLength(init);
    if i == |items| - 1 {
      assert items[..i] == init;
    } else {
      assert init[..i] == items[..i];
      DeriveClientsAt(init, i, j);
      assert init[i] == items[i];
    }
  }

  /**
   * What one row says about its stat entry: its inbound, the uuid of the
   * last settings client with the same email ("" when there is none or the
   * settings do not parse), and the canonical counters.
   */
  lemma EnrichedRow(st: Stat, inboundId: int, settings: Option<seq<SettingsClient>>)
    ensures var r := Enrich(st, inboundId, UuidTable(settings));
      && r.stat == st && r.Email() == st.email && r.inboundId == inboundId
      && r.bytesIn == NormalizeTraffic(st.counters).uplink
      && r.bytesOut == NormalizeTraffic(st.counters).downlink
      && (settings.None? ==> r.uuid == "")
      && ((settings.Some? && forall i :: 0 <= i < |settings.value| ==> settings.value[i].email != st.email)
          ==> r.uuid == "")
      && (forall j :: settings.Some? && LastWithEmail(settings.value, st.email, j)
            ==> r.uuid == settings.value[j].id)
  {
    if settings.Some? {
      UuidMapSpec(settings.value, st.email);
    }
  }

  /** An illustration of `DeriveClientsAt` on one stat `{email: "5_bob", up: 100, down: 200}`
      joined with settings `[{id: "uuid-1", email: "5_bob"}]`. */
  lemma DeriveExample()
    ensures var st := Stat(7, "5_bob", map["up" := JInt(100), "down" := JInt(200)]);
            var ib := Inbound(1, Some([SettingsClient("uuid-1", "5_bob")]), [st]);
            DeriveClients([ib]) == [ClientRow(st, "uuid-1", 1, JInt(100), JInt(200))]
  {
    var st := Stat(7, "5_bob", map["up" := JInt(100), "down" := JInt(200)]);
    var ib := Inbound(1, Some([SettingsClient("uuid-1", "5_bob")]), [st]);
    assert [ib][..0] == [];
    assert UuidMap([SettingsClient("uuid-1", "5_bob")]) == map["5_bob" := "uuid-1"];
  }

  /** A client created from the add-client payload is reported with its
      email as its uuid once the panel lists it in the inbound's settings. */
  lemma CreatedClientUuid(inboundId: int, email: string, flow: string, tgId: int,
                          others: seq<SettingsClient>, st: Stat)
    requires st.email == email
    ensures var created := SettingsOf(AddClientPayload(inboundId, email, flow, tgId).clients[0]);
            Enrich(st, inboundId, UuidTable(Some(others + [created]))).uuid == email
  {
    var created := SettingsOf(AddClientPayload(inboundId, email, flow, tgId).clients[0]);
    assert (others + [created])[..|others|] == others;
  }

  /** The loop of `list_clients` over the decoded inbound list. */
  method CollectRows(items: seq<Inbound>) returns (rows: seq<ClientRow>)
    ensures rows == DeriveClients(items)
  {
    rows := [];
    for i := 0 to |items|
      invariant rows == DeriveClients(items[..i])
    {
      var ib := items[i];
      var uuids := UuidTable(ib.settings);
      ghost var before := rows;
      for j := 0 to |ib.clientStats|
        invariant rows == before + RowsOf(ib)[..j]
      {
        rows := rows + [Enrich(ib.clientStats[j], ib.id, uuids)];
        assert RowsOf(ib)[..j + 1] == RowsOf(ib)[..j] + [Enrich(ib.clientStats[j], ib.id, uuids)];
      }
      assert items[..i + 1][..i] == items[..i];
      assert RowsOf(ib)[..|ib.clientStats|] == RowsOf(ib);
    }
    assert items[..|items|] == items;
  }

  /** `list_clients(sid)` given the server's cached session: log in if
      needed, list the inbounds, derive the rows. */
  function ListStep(sid: string, entry: Option<Session>, now: int, configured: bool, p: Panel)
    : (out: (Result<seq<ClientRow>, Failure>, Option<Session>))
  {
    var a := AuthStep(sid, entry, false, now, configured, p.login);
    if a.0.Err? then (Err(a.0.error), a.1)
    else if !configured then (Err(UnknownServer(sid)), a.1)
    else if !Success(p.listStatus) then (Err(HttpError(p.listStatus)), a.1)
    else (Ok(DeriveClients(p.inbounds)), a.1)
  }

  /** A successful listing leaves a session the next `_auth` at the same
      instant either reuses or stores again unchanged. */
  lemma SecondAuthAfterListing(sid: string, entry: Option<Session>, now: int, p: Panel)
    requires ListStep(sid, entry, now, true, p).0.Ok?
    ensures var listed := ListStep(sid, entry, now, true, p);
            var entry2 := if listed.1.Some? then listed.1 else entry;
            var again := AuthStep(sid, entry2, false, now, true, p.login);
            again.0.Ok? && (again.1.None? || again.1 == listed.1)
  {
  }

  /** Storing a session that is absent or equal to the one just stored
      changes nothing. */
  lemma StoreTwice(m: map<string, Session>, sid: string, s1: Option<Session>, s2: Option<Session>)
    requires s2.None? || s2 == s1
    ensures Store(Store(m, sid, s1), sid, s2) == Store(m, sid, s1)
  {
  }

  // ---------------------------------------------------------------------
  // pick_least_loaded

  /** Lists every server in order, threading the login cache through, and
      keeps `(sid, number of rows)` for each server whose listing succeeded. */
  function Sweep(sids: seq<string>, auth: map<string, Session>, now: int,
                 configured: set<string>, world: string -> Panel)
    : (out: (seq<(string, nat)>, map<string, Session>))
    decreases |sids|
  {
    if sids == [] then ([], auth)
    else
      var prev := Sweep(sids[..|sids| - 1], auth, now, configured, world);
      var sid := sids[|sids| - 1];
      var step := ListStep(sid, Lookup(prev.1, sid), now, sid in configured, world(sid));
      (if step.0.Ok? then prev.0 + [(sid, |step.0.value|)] else prev.0, Store(prev.1, sid, step.1))
  }

  predicate Distinct(sids: seq<string>) {
    forall i, j :: 0 <= i < j < |sids| ==> sids[i] != sids[j]
  }

  /** Listing the other servers never touches a server's cache entry. */
  lemma {:induction false} SweepKeepsOthers(sids: seq<string>, auth: map<string, Session>, now: int,
                                            configured: set<string>, world: string -> Panel, sid: string)
    requires sid !in sids
    ensures Lookup(Sweep(sids, auth, now, configured, world).1, sid) == Lookup(auth, sid)
    decreases |sids|
  {
    if sids != [] {
      assert sid !in sids[..|sids| - 1];
      SweepKeepsOthers(sids[..|sids| - 1], auth, now, configured, world, sid);
    }
  }

  /**
   * Over distinct servers, `(sid, n)` is a load exactly when `sid` is a
   * configured-order server whose own listing, from its own cache entry,
   * succeeded with `n` rows: failed servers never appear.
   */
  lemma {:induction false} SweepLoads(sids: seq<string>, auth: map<string, Session>, now: int,
                                      configured: set<string>, world: string -> Panel, sid: string, n: nat)
    requires Distinct(sids)
    ensures (sid, n) in Sweep(sids, auth, now, configured, world).0
        <==> sid in sids
             && var r := ListStep(sid, Lookup(auth, sid), now, sid in configured, world(sid)).0;
                r.Ok? && |r.value| == n
    decreases |sids|
  {
    if sids != [] {
      var init := sids[..|sids| - 1];
      var last := sids[|sids| - 1];
      assert Distinct(init);
      SweepLoads(init, auth, now, configured, world, sid, n);
      assert last !in init;
      SweepKeepsOthers(init, auth, now, configured, world, last);
      assert sids == init + [last];
      if sid == last {
        SweepLoadsAbsent(init, auth, now, configured, world, sid, n);
      }
    }
  }

  lemma {:induction false} SweepLoadsAbsent(sids: seq<string>, auth: map<string, Session>, now: int,
                                            configured: set<string>, world: string -> Panel, sid: string, n: nat)
    requires sid !in sids
    ensures (sid, n) !in Sweep(sids, auth, now, configured, world).0
    decreases |sids|
  {
    if sids != [] {
      assert sid !in sids[..|sids| - 1];
      SweepLoadsAbsent(sids[..|sids| - 1], auth, now, configured, world, sid, n);
    }
  }

  /** `min(cnt for _, cnt in loads)` */
  function MinLoad(loads: seq<(string, nat)>): (m: nat)
    requires loads != []
    ensures exists k :: 0 <= k < |loads| && loads[k].1 == m
    ensures forall k :: 0 <= k < |loads| ==> m <= loads[k].1
    decreases |loads|
  {
    if |loads| == 1 then loads[0].1
    else
      var rest := MinLoad(loads[1..]);
      assert forall k :: 1 <= k < |loads| ==> loads[k] == loads[1..][k - 1];
      if loads[0].1 <= rest then loads[0].1 else rest
  }

  /** The servers tied at the minimum load: `random.choice` picks one of them. */
  function Tied(loads: seq<(string, nat)>): set<string>
    requires loads != []
  {
    set k | 0 <= k < |loads| && loads[k].1 == MinLoad(loads) :: loads[k].0
  }

  /** Whenever some server answered, the tied set is non-empty and each of
      its servers carries the minimum load over all servers that answered. */
  lemma TiedIsLeastLoaded(loads: seq<(string, nat)>, sid: string)
    requires loads != []
    ensures Tied(loads) != {}
    ensures sid in Tied(loads) ==>
              (sid, MinLoad(loads)) in loads && forall k :: 0 <= k < |loads| ==> MinLoad(loads) <= loads[k].1
  {
    var k :| 0 <= k < |loads| && loads[k].1 == MinLoad(loads);
    assert loads[k].0 in Tied(loads);
    if sid in Tied(loads) {
      var j :| 0 <= j < |loads| && loads[j].1 == MinLoad(loads) && loads[j].0 == sid;
      assert loads[j] == (sid, MinLoad(loads));
    }
  }

  // ---------------------------------------------------------------------
  // Cache keys

  /** The cache keys the manager deletes, one per (kind, server). */
  function ClientsKey(sid: string): string { "api_clients:" + sid }
  function InboundsKey(sid: string): string { "api_inbounds_list:" + sid }
  function OnlinesKey(sid: string): string { "api_inbounds_onlines:" + sid }

  /** `invalidate_cache`'s key for a kind; None for an unknown kind. */
  function KeyFor(what: string, sid: string): (k: Option<string>)
    ensures k.Some? <==> what in {"clients", "inbounds_list", "onlines"}
  {
    if what == "clients" then Some(ClientsKey(sid))
    else if what == "inbounds_list" then Some(InboundsKey(sid))
    else if what == "onlines" then Some(OnlinesKey(sid))
    else None
  }

  /** Different (kind, server) pairs never share a cache key, so invalidating
      one pair leaves every other kind and every other server cached. */
  lemma KeysDistinct(what1: string, sid1: string, what2: string, sid2: string)
    requires KeyFor(what1, sid1).Some? && KeyFor(what2, sid2).Some?
    requires what1 != what2 || sid1 != sid2
    ensures KeyFor(what1, sid1) != KeyFor(what2, sid2)
  {
    var k1 := KeyFor(what1, sid1).value;
    var k2 := KeyFor(what2, sid2).value;
    if what1 == what2 {
      var n := |k1| - |sid1|;
      assert k1[n..] == sid1;
      assert k2[n..] == sid2;
    } else if what1 == "clients" || what2 == "clients" {
      assert k1[4] != k2[4];
    } else {
      assert k1[13] != k2[13];
    }
  }

  /** The entry a read-through cache keeps under a key. */
  datatype CacheEntry = CacheEntry(storedAt: int, ttl: int)

  // ---------------------------------------------------------------------
  // Traffic lookup

  datatype TrafficQuery = ById(statId: int, inboundId: int) | ByEmail(email: string)

  /**
   * The lookups `get_traffic` makes for a row, as written: by id when the
   * row's inbound id is truthy, then by email when that gave no data and the
   * email is non-empty; the counters are read from whatever object results,
   * which fails when it is not an object (for instance `{"obj": null}`).
   */
  function TrafficLookupAsWritten(row: ClientRow, byIdReply: Json, byEmailReply: Json)
    : (out: (Result<Traffic, Failure>, seq<TrafficQuery>))
    ensures (ById(row.stat.id, row.inboundId) in out.1) <==> row.inboundId != 0
    ensures var first := if row.inboundId != 0 then ExtractObj(byIdReply) else EmptyObj;
            var again := !Truthy(first) && row.Email() != "";
            var obj := if again then ExtractObj(byEmailReply) else first;
            && ((ByEmail(row.Email()) in out.1) <==> again)
            && (out.0.Err? <==> !obj.JObj?)
            && (out.0.Err? ==> out.0.error == MalformedReply)
    ensures var first := ExtractObj(byIdReply);
            row.inboundId != 0 && Truthy(first) && first.JObj? ==> out.0 == Ok(NormalizeTraffic(first.fields))
    ensures var first := if row.inboundId != 0 then ExtractObj(byIdReply) else EmptyObj;
            var second := ExtractObj(byEmailReply);
            !Truthy(first) && row.Email() != "" && second.JObj? ==> out.0 == Ok(NormalizeTraffic(second.fields))
    ensures row.inboundId == 0 && row.Email() == "" ==> out == (Ok(NormalizeTraffic(map[])), [])
  {
    var first := if row.inboundId != 0 then ExtractObj(byIdReply) else EmptyObj;
    var q1 := if row.inboundId != 0 then [ById(row.stat.id, row.inboundId)] else [];
    var again := !Truthy(first) && row.Email() != "";
    var obj := if again then ExtractObj(byEmailReply) else first;
    var q2 := if again then [ByEmail(row.Email())] else [];
    if obj.JObj? then (Ok(NormalizeTraffic(obj.fields)), q1 + q2) else (Err(MalformedReply), q1 + q2)
  }

  /** A panel answering `{"obj": null}` for a client it has no traffic for
      makes the lookup as written fail instead of reporting zero traffic. */
  lemma TrafficNullObjFails()
    ensures var row := ClientRow(Stat(3, "5_bob", map[]), "uuid-1", 1, JInt(0), JInt(0));
            var noData := JObj(map["obj" := JNull]);
            TrafficLookupAsWritten(row, noData, noData).0 == Err(MalformedReply)
  {
    var noData := JObj(map["obj" := JNull]);
    assert ExtractObj(noData) == JNull;
  }

  /** The object the counters are read from: a reply that is not an object
      counts as no data. */
  function AsObject(obj: Json): map<string, Json> {
    if obj.JObj? then obj.fields else map[]
  }

  /**
   * The traffic lookup `get_traffic` intends: the same queries in the same
   * order, and a reply without data reads as zero traffic instead of
   * failing.
   */
  function TrafficLookup(row: ClientRow, byIdReply: Json, byEmailReply: Json)
    : (out: (Traffic, seq<TrafficQuery>))
    ensures (ById(row.stat.id, row.inboundId) in out.1) <==> row.inboundId != 0
    ensures (ByEmail(row.Email()) in out.1) <==>
              row.Email() != "" && !Truthy(if row.inboundId != 0 then ExtractObj(byIdReply) else EmptyObj)
    ensures |out.1| <= 2
    ensures TrafficLookupAsWritten(row, byIdReply, byEmailReply).0.Ok? ==>
              TrafficLookupAsWritten(row, byIdReply, byEmailReply) == (Ok(out.0), out.1)
  {
    var first := if row.inboundId != 0 then ExtractObj(byIdReply) else EmptyObj;
    var q1 := if row.inboundId != 0 then [ById(row.stat.id, row.inboundId)] else [];
    var again := !Truthy(first) && row.Email() != "";
    var obj := if again then ExtractObj(byEmailReply) else first;
    var q2 := if again then [ByEmail(row.Email())] else [];
    (NormalizeTraffic(AsObject(obj)), q1 + q2)
  }

  /** The decoded body of a reply, or no data when the reply failed. */
  function BodyOf(reply: Result<Json, Failure>): Json {
    if reply.Ok? then reply.value else EmptyObj
  }

  /**
   * `get_traffic`'s two GETs with their own failures: each reply is either
   * a decoded body or the failure its GET raised (no answer, or a body that
   * is not JSON). A GET that fails ends the lookup with its failure;
   * otherwise the result is the intended lookup's on the decoded bodies.
   */
  function TrafficFetch(row: ClientRow, byId: Result<Json, Failure>, byEmail: Result<Json, Failure>)
    : (out: (Result<Traffic, Failure>, seq<TrafficQuery>))
    ensures row.inboundId != 0 && byId.Err? ==> out == (Err(byId.error), [ById(row.stat.id, row.inboundId)])
    ensures var look := TrafficLookup(row, BodyOf(byId), BodyOf(byEmail));
            var emailFails := ByEmail(row.Email()) in look.1 && byEmail.Err?;
            (row.inboundId == 0 || byId.Ok?) ==>
              && (emailFails ==> out == (Err(byEmail.error), look.1))
              && (!emailFails ==> out == (Ok(look.0), look.1))
    ensures out.0.Err? ==>
              (ById(row.stat.id, row.inboundId) in out.1 && byId == Err(out.0.error))
              || (ByEmail(row.Email()) in out.1 && byEmail == Err(out.0.error))
  {
    if row.inboundId != 0 && byId.Err? then (Err(byId.error), [ById(row.stat.id, row.inboundId)])
    else
      var look := TrafficLookup(row, BodyOf(byId), BodyOf(byEmail));
      if ByEmail(row.Email()) in look.1 && byEmail.Err? then (Err(byEmail.error), look.1)
      else (Ok(look.0), look.1)
  }

  /** No data from either lookup gives zero traffic. */
  lemma NoDataIsZero(row: ClientRow, byIdReply: Json, byEmailReply: Json)
    requires !Truthy(ExtractObj(byIdReply)) && !Truthy(ExtractObj(byEmailReply))
    ensures TrafficLookup(row, byIdReply, byEmailReply).0 == Traffic(JInt(0), JInt(0))
  {
  }

  /** `get_online_clients` once logged in: 404 means the endpoint is missing,
      otherwise the `obj` of a successful reply. */
  function OnlinesFrom(status: Status, body: map<string, Json>): (r: Result<Json, Failure>)
    ensures status == Code(404) ==> r == Err(OnlinesUnsupported)
    ensures r.Ok? <==> Success(status) && "obj" in body
    ensures r.Ok? ==> r.value == body["obj"]
  {
    if status == Code(404) then Err(OnlinesUnsupported)
    else if !Success(status) then Err(HttpError(status))
    else if "obj" !in body then Err(MalformedReply)
    else Ok(body["obj"])
  }

  // ---------------------------------------------------------------------
  // The manager

  class Manager {
    /** Configured server ids, in configuration order. */
    const servers: seq<string>
    const configs: map<string, ServerConfig>
    /** `MAX_CLIENTS` */
    const maxClients: int
    /** `_auth_cache`: server id to its last login. */
    var authCache: map<string, Session>
    /** The shared read-through cache the manager invalidates. */
    var cache: map<string, CacheEntry>

    constructor (servers: seq<string>, configs: map<string, ServerConfig>, maxClients: int)
      requires Distinct(servers) && forall sid :: sid in configs <==> sid in servers
      ensures this.servers == servers && this.configs == configs && this.maxClients == maxClients
      ensures authCache == map[] && cache == map[]
    {
      this.servers := servers;
      this.configs := configs;
      this.maxClients := maxClients;
      authCache := map[];
      cache := map[];
    }

    /** `_auth(sid, force)`: `loginSent` says whether the panel was asked. */
    method Auth(sid: string, force: bool, now: int, world: string -> Panel)
      returns (r: Result<string, Failure>, loginSent: bool)
      modifies this`authCache
      ensures var step := AuthStep(sid, Lookup(old(authCache), sid), force, now, sid in configs, world(sid).login);
              r == step.0 && authCache == Store(old(authCache), sid, step.1)
      ensures loginSent <==> (force || !Usable(Lookup(old(authCache), sid), now)) && sid in configs
    {
      var entry := Lookup(authCache, sid);
      if !force && Usable(entry, now) {
        return Ok(entry.value.cookies), false;
      }
      if sid !in configs {
        return Err(UnknownServer(sid)), false;
      }
      var reply := world(sid).login;
      loginSent := true;
      if !Success(reply.status) {
        return Err(HttpError(reply.status)), loginSent;
      }
      if !reply.success {
        return Err(LoginRejected), loginSent;
      }
      authCache := authCache[sid := Session(reply.cookies, now + SessionLifetime)];
      r := Ok(reply.cookies);
    }

    /** `list_clients(sid)` */
    method ListClients(sid: string, now: int, world: string -> Panel)
      returns (r: Result<seq<ClientRow>, Failure>)
      modifies this`authCache
      ensures var step := ListStep(sid, Lookup(old(authCache), sid), now, sid in configs, world(sid));
              r == step.0 && authCache == Store(old(authCache), sid, step.1)
    {
      var cookies, _ := Auth(sid, false, now, world);
      if cookies.Err? {
        return Err(cookies.error);
      }
      if sid !in configs {
        return Err(UnknownServer(sid));
      }
      var p := world(sid);
      if !Success(p.listStatus) {
        return Err(HttpError(p.listStatus));
      }
      var rows := CollectRows(p.inbounds);
      r := Ok(rows);
    }

    /** `pick_least_loaded()`: lists every server, skips those that failed,
        and picks any server tied at the minimum count. */
    method PickLeastLoaded(now: int, world: string -> Panel) returns (r: Result<string, Failure>)
      modifies this`authCache
      ensures var sweep := Sweep(servers, old(authCache), now, configs.Keys, world);
              && authCache == sweep.1
              && (r.Err? <==> sweep.0 == [])
              && (r.Err? ==> r.error == NoServers)
              && (r.Ok? ==> sweep.0 != [] && r.value in Tied(sweep.0))
    {
      var loads: seq<(string, nat)> := [];
      for i := 0 to |servers|
        invariant (loads, authCache) == Sweep(servers[..i], old(authCache), now, configs.Keys, world)
      {
        var sid := servers[i];
        var listed := ListClients(sid, now, world);
        if listed.Ok? {
          loads := loads + [(sid, |listed.value|)];
        }
        assert servers[..i + 1][..i] == servers[..i];
      }
      assert servers[..|servers|] == servers;
      if loads == [] {
        return Err(NoServers);
      }
      TiedIsLeastLoaded(loads, "");
      var pick :| pick in Tied(loads);
      r := Ok(pick);
    }

    /** `create_client`: re-list at `now`, refuse at capacity unless
        `skipLimit`, log in again at `now2` (the second `_auth` reads the
        clock again), post the add-client payload, then drop the two cache
        keys. */
    method CreateClient(sid: string, inboundId: int, email: string, tgId: int, skipLimit: bool,
                        now: int, now2: int, world: string -> Panel)
      returns (r: Result<(), Failure>, sent: Option<AddPayload>)
      modifies this
      ensures var listed := ListStep(sid, Lookup(old(authCache), sid), now, sid in configs, world(sid));
              var mid := Store(old(authCache), sid, listed.1);
              var again := AuthStep(sid, Lookup(mid, sid), false, now2, sid in configs, world(sid).login);
              var refused := listed.0.Ok? && !skipLimit && |listed.0.value| >= maxClients;
              var proceeds := listed.0.Ok? && !refused;
              && (listed.0.Err? ==> r == listed.0.PropagateFailure() && sent.None? && authCache == mid)
              && (refused ==> r == Err(ServerFull(sid)) && sent.None? && authCache == mid)
              && (proceeds ==> authCache == Store(mid, sid, again.1))
              && (proceeds && again.0.Err? ==> r == again.0.PropagateFailure() && sent.None?)
              && (sent.Some? <==> proceeds && again.0.Ok?)
              && (sent.Some? ==> sent.value == AddClientPayload(inboundId, email, configs[sid].flow, tgId))
              && (r.Ok? <==> sent.Some? && Success(world(sid).addStatus))
      ensures now2 == now ==>
                authCache == Store(old(authCache), sid,
                                   ListStep(sid, Lookup(old(authCache), sid), now, sid in configs, world(sid)).1)
      ensures r.Ok? ==> cache == old(cache) - {ClientsKey(sid), InboundsKey(sid)}
      ensures r.Err? ==> cache == old(cache)
    {
      sent := None;
      ghost var entry0 := Lookup(authCache, sid);
      ghost var listedStep := ListStep(sid, entry0, now, sid in configs, world(sid));
      var listed := ListClients(sid, now, world);
      if listed.Err? {
        return Err(listed.error), sent;
      }
      if !skipLimit && |listed.value| >= maxClients {
        return Err(ServerFull(sid)), sent;
      }
      ghost var before := authCache;
      var cookies, _ := Auth(sid, false, now2, world);
      if now2 == now {
        // at the listing's instant the session it left is still usable
        SecondAuthAfterListing(sid, entry0, now, world(sid));
        StoreTwice(old(authCache), sid, listedStep.1,
                   AuthStep(sid, Lookup(before, sid), false, now, sid in configs, world(sid).login).1);
      }
      if cookies.Err? {
        return Err(cookies.error), sent;
      }
      var payload := AddClientPayload(inboundId, email, configs[sid].flow, tgId);
      sent := Some(payload);
      if !Success(world(sid).addStatus) {
        return Err(HttpError(world(sid).addStatus)), sent;
      }
      cache := cache - {ClientsKey(sid)};
      cache := cache - {InboundsKey(sid)};
      r := Ok(());
    }

    /** `delete_client`: post the delete path, then drop the two cache keys. */
    method DeleteClient(sid: string, inboundId: int, clientId: string, now: int, world: string -> Panel)
      returns (r: Result<(), Failure>, sentPath: Option<string>)
      modifies this
      ensures var a := AuthStep(sid, Lookup(old(authCache), sid), false, now, sid in configs, world(sid).login);
              && authCache == Store(old(authCache), sid, a.1)
              && (sentPath.Some? <==> a.0.Ok? && sid in configs)
              && (sentPath.Some? ==> sentPath.value == DeletePath(inboundId, clientId))
              && (r.Ok? <==> sentPath.Some? && Success(world(sid).deleteStatus))
      ensures r.Ok? ==> cache == old(cache) - {ClientsKey(sid), InboundsKey(sid)}
      ensures r.Err? ==> cache == old(cache)
    {
      sentPath := None;
      var cookies, _ := Auth(sid, false, now, world);
      if cookies.Err? {
        return Err(cookies.error), sentPath;
      }
      if sid !in configs {
        return Err(UnknownServer(sid)), sentPath;
      }
      sentPath := Some(DeletePath(inboundId, clientId));
      if !Success(world(sid).deleteStatus) {
        return Err(HttpError(world(sid).deleteStatus)), sentPath;
      }
      cache := cache - {ClientsKey(sid)};
      cache := cache - {InboundsKey(sid)};
      r := Ok(());
    }

    /** `get_traffic(sid, client)`: log in, then the traffic lookup, whose
        two GETs answer `byIdReply` and `byEmailReply`. */
    method GetTraffic(sid: string, row: ClientRow, now: int, world: string -> Panel,
                      byIdReply: Result<Json, Failure>, byEmailReply: Result<Json, Failure>)
      returns (r: Result<Traffic, Failure>, queries: seq<TrafficQuery>)
      modifies this`authCache
      ensures var a := AuthStep(sid, Lookup(old(authCache), sid), false, now, sid in configs, world(sid).login);
              && authCache == Store(old(authCache), sid, a.1)
              && (a.0.Err? ==> r == a.0.PropagateFailure() && queries == [])
              && (a.0.Ok? && sid !in configs ==> r == Err(UnknownServer(sid)) && queries == [])
              && (a.0.Ok? && sid in configs ==> (r, queries) == TrafficFetch(row, byIdReply, byEmailReply))
    {
      var cookies, _ := Auth(sid, false, now, world);
      if cookies.Err? {
        return Err(cookies.error), [];
      }
      if sid !in configs {
        return Err(UnknownServer(sid)), [];
      }
      var fetched := TrafficFetch(row, byIdReply, byEmailReply);
      r, queries := fetched.0, fetched.1;
    }

    /** `get_online_clients(sid)`, without its ten-second cache. */
    method GetOnlineClients(sid: string, now: int, world: string -> Panel) returns (r: Result<Json, Failure>)
      modifies this`authCache
      ensures var a := AuthStep(sid, Lookup(old(authCache), sid), false, now, sid in configs, world(sid).login);
              && authCache == Store(old(authCache), sid, a.1)
              && (a.0.Ok? && sid in configs ==> r == OnlinesFrom(world(sid).onlinesStatus, world(sid).onlinesBody))
              && (a.0.Err? ==> r == a.0.PropagateFailure())
              && (sid !in configs ==> r == Err(UnknownServer(sid)))
    {
      var cookies, _ := Auth(sid, false, now, world);
      if cookies.Err? {
        return Err(cookies.error);
      }
      if sid !in configs {
        return Err(UnknownServer(sid));
      }
      r := OnlinesFrom(world(sid).onlinesStatus, world(sid).onlinesBody);
    }

    /** `invalidate_cache(sid, what)`: drops the one key of that kind; an
        unknown kind changes nothing. */
    method InvalidateCache(sid: string, what: string)
      modifies this`cache
      ensures KeyFor(what, sid).Some? ==> cache == old(cache) - {KeyFor(what, sid).value}
      ensures KeyFor(what, sid).None? ==> cache == old(cache)
    {
      if what == "clients" {
        cache := cache - {ClientsKey(sid)};
      } else if what == "inbounds_list" {
        cache := cache - {InboundsKey(sid)};
      } else if what == "onlines" {
        cache := cache - {OnlinesKey(sid)};
      }
    }

    /** `is_full(sid)`: the server lists at least `MAX_CLIENTS` rows. */
    method IsFull(sid: string, now: int, world: string -> Panel) returns (r: Result<bool, Failure>)
      modifies this`authCache
      ensures var step := ListStep(sid, Lookup(old(authCache), sid), now, sid in configs, world(sid));
              && authCache == Store(old(authCache), sid, step.1)
              && (r.Ok? <==> step.0.Ok?)
              && (r.Ok? ==> (r.value <==> |step.0.value| >= maxClients))
    {
      var listed := ListClients(sid, now, world);
      if listed.Err? {
        return Err(listed.error);
      }
      r := Ok(|listed.value| >= maxClients);
    }

    /** `is_alive(sid)`: a login (or a cached one) succeeds. */
    method IsAlive(sid: string, now: int, world: string -> Panel) returns (alive: bool)
      modifies this`authCache
      ensures alive <==> AuthStep(sid, Lookup(old(authCache), sid), false, now, sid in configs, world(sid).login).0.Ok?
      ensures authCache == Store(old(authCache), sid,
                AuthStep(sid, Lookup(old(authCache), sid), false, now, sid in configs, world(sid).login).1)
    {
      var cookies, _ := Auth(sid, false, now, world);
      alive := cookies.Ok?;
    }

    /** One round of `refresh_auth_cookies_forever`: a forced login on every
        server, failures ignored. */
    method RefreshRound(now: int, world: string -> Panel)
      modifies this`authCache
      ensures forall sid :: sid in servers && sid in configs && Success(world(sid).login.status) && world(sid).login.success
                ==> sid in authCache && authCache[sid] == Session(world(sid).login.cookies, now + SessionLifetime)
      ensures forall sid :: !(sid in servers && sid in configs && Success(world(sid).login.status) && world(sid).login.success)
                ==> Lookup(authCache, sid) == Lookup(old(authCache), sid)
    {
      for i := 0 to |servers|
        invariant forall sid :: sid in servers[..i] && sid in configs && Success(world(sid).login.status) && world(sid).login.success
                    ==> sid in authCache && authCache[sid] == Session(world(sid).login.cookies, now + SessionLifetime)
        invariant forall sid :: !(sid in servers[..i] && sid in configs && Success(world(sid).login.status) && world(sid).login.success)
                    ==> Lookup(authCache, sid) == Lookup(old(authCache), sid)
      {
        var _, _ := Auth(servers[i], true, now, world);
        assert servers[..i + 1] == servers[..i] + [servers[i]];
      }
      assert servers[..|servers|] == servers;
    }
  }
}
