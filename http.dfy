/**
 * The older module-level panel helpers (http.py): the login-cookie cache,
 * the retry policy every call is wrapped in, the client-stat listing, the
 * add/delete requests, the traffic lookup with its fallbacks, the online
 * list and the VLESS link.
 */
module Http {
  import opened Wrappers
  import opened Text
  import opened PanelData
  import opened ServerManager

  // ---------------------------------------------------------------------
  // Retry policy

  /** Every wrapped call is attempted at most this many times. */
  const MaxTries: nat := 3

  /** Only transport errors and status errors are retried. */
  predicate RetryableFailure(f: Failure) {
    f.HttpError?
  }

  /** Attempts `k`, `k+1`, ... until one does not fail with a retryable
      error or the attempts run out. */
  function RetryFrom<T>(attempt: nat -> Result<T, Failure>, k: nat): (out: (Result<T, Failure>, nat))
    requires k < MaxTries
    ensures k < out.1 <= MaxTries
    ensures out.0 == attempt(out.1 - 1)
    ensures forall i :: k <= i < out.1 - 1 ==> attempt(i).Err? && RetryableFailure(attempt(i).error)
    ensures out.1 < MaxTries ==> !(out.0.Err? && RetryableFailure(out.0.error))
    decreases MaxTries - k
  {
    var r := attempt(k);
    if (r.Err? && RetryableFailure(r.error)) && k + 1 < MaxTries then RetryFrom(attempt, k + 1)
    else (r, k + 1)
  }

  /**
   * The retry decorator: the outcome of the first attempt that succeeds or
   * fails with a non-retryable error, or of the third attempt; and how many
   * attempts were made.
   */
  function Retry<T>(attempt: nat -> Result<T, Failure>): (out: (Result<T, Failure>, nat))
    ensures 1 <= out.1 <= MaxTries
    ensures out.0 == attempt(out.1 - 1)
    ensures forall i :: 0 <= i < out.1 - 1 ==> attempt(i).Err? && RetryableFailure(attempt(i).error)
    ensures out.1 < MaxTries ==> !(out.0.Err? && RetryableFailure(out.0.error))
  {
    RetryFrom(attempt, 0)
  }

  /** The attempt count is determined: it is the first attempt that does not
      fail retryably, or the last one allowed. */
  lemma RetryStopsAtFirst<T>(attempt: nat -> Result<T, Failure>, n: nat)
    requires 1 <= n <= MaxTries
    requires forall i :: 0 <= i < n - 1 ==> attempt(i).Err? && RetryableFailure(attempt(i).error)
    requires n < MaxTries ==> !(attempt(n - 1).Err? && RetryableFailure(attempt(n - 1).error))
    ensures Retry(attempt) == (attempt(n - 1), n)
  {
  }

  // ---------------------------------------------------------------------
  // api_auth

  /** The entry a missing cache key is initialised to: no cookies, expired
      at the epoch. */
  const Unset: Session := Session("", 0)

  /**
   * One attempt of `api_auth` under cache key `key`: initialise a missing
   * entry, answer from it when allowed, otherwise log in and store the
   * cookies for 30 minutes.
   */
  function ApiAuthStep(entries: map<string, Session>, key: string, force: bool, now: int, reply: LoginReply)
    : (out: (Result<string, Failure>, map<string, Session>))
    ensures key in out.1 && out.1.Keys == entries.Keys + {key}
    ensures forall k :: k in entries && k != key ==> k in out.1 && out.1[k] == entries[k]
    ensures var e := if key in entries then entries[key] else Unset;
            && (!force && e.cookies != [] && e.expires > now ==> out == (Ok(e.cookies), entries[key := e]))
            && (out.0.Err? ==> out.1 == entries[key := e])
            && ((force || e.cookies == [] || e.expires <= now) ==>
                 (out.0.Ok? <==> Success(reply.status) && reply.success))
            && ((force || e.cookies == [] || e.expires <= now) && out.0.Ok? ==>
                 out.0.value == reply.cookies && out.1[key] == Session(reply.cookies, now + SessionLifetime))
  {
    var e := if key in entries then entries[key] else Unset;
    var init := entries[key := e];
    if !force && e.cookies != [] && e.expires > now then (Ok(e.cookies), init)
    else if !Success(reply.status) then (Err(HttpError(reply.status)), init)
    else if !reply.success then (Err(LoginRejected), init)
    else (Ok(reply.cookies), init[key := Session(reply.cookies, now + SessionLifetime)])
  }

  /** The attempts of `api_auth`: a failed attempt stores nothing beyond the
      initial entry, so every retry starts from the same cache. */
  function ApiAuthAttempts(entries: map<string, Session>, key: string, force: bool, now: int,
                           replies: nat -> LoginReply): nat -> Result<string, Failure>
  {
    (k: nat) => ApiAuthStep(entries, key, force, now, replies(k)).0
  }

  /** The cache key `api_auth` uses: the configuration's `SID` field, which
      is the REALITY short id the VLESS link carries. */
  function ApiAuthKeyAsWritten(cfg: ServerConfig): (key: string)
    ensures forall email, remark :: CarriesShortId(BuildVless(cfg, email, remark), key)
  {
    cfg.shortId
  }

  /**
   * Two servers configured with the same REALITY short id share one cache
   * entry: once the first has logged in, asking for the second's cookies
   * returns the first server's cookies and its panel is never contacted.
   */
  lemma SharedShortIdSharesCookies(a: ServerConfig, b: ServerConfig, now: int, replyA: LoginReply, replyB: LoginReply)
    requires a.shortId == b.shortId && a.baseUrl != b.baseUrl
    requires Success(replyA.status) && replyA.success && replyA.cookies != []
    requires replyB.cookies != replyA.cookies
    ensures var first := ApiAuthStep(map[], ApiAuthKeyAsWritten(a), false, now, replyA);
            ApiAuthStep(first.1, ApiAuthKeyAsWritten(b), false, now, replyB).0 == Ok(replyA.cookies)
  {
  }

  /**
   * Keyed by server id, as the cache's own description intends, a login on
   * one server never changes what another server's `api_auth` does: running
   * it for `sid2` after `sid1` gives the same result and the same entry for
   * `sid2` as running it first.
   */
  lemma {:induction false} ApiAuthIsolated(entries: map<string, Session>, sid1: string, sid2: string,
                                           force1: bool, force2: bool, now: int,
                                           reply1: LoginReply, reply2: LoginReply)
    requires sid1 != sid2
    ensures var after1 := ApiAuthStep(entries, sid1, force1, now, reply1).1;
            var direct := ApiAuthStep(entries, sid2, force2, now, reply2);
            var later := ApiAuthStep(after1, sid2, force2, now, reply2);
            later.0 == direct.0 && later.1[sid2] == direct.1[sid2]
  {
    var after1 := ApiAuthStep(entries, sid1, force1, now, reply1).1;
    assert sid2 in after1 <==> sid2 in entries;
    if sid2 in entries {
      assert after1[sid2] == entries[sid2];
    }
  }

  /** The module-level cookie cache of `api_auth`. As written it is keyed by
      `ApiAuthKeyAsWritten(cfg)`, the configuration's REALITY short id. */
  class AuthCache {
    var entries: map<string, Session>

    constructor ()
      ensures entries == map[]
    {
      entries := map[];
    }

    /** `api_auth(server_cfg, force)` with its retries, for the cache key
        `key` (as written, `ApiAuthKeyAsWritten(server_cfg)`): attempt `k`
        gets login reply `replies(k)`. */
    method ApiAuth(key: string, force: bool, now: int, replies: nat -> LoginReply)
      returns (r: Result<string, Failure>, attempts: nat)
      modifies this
      ensures (r, attempts) == Retry(ApiAuthAttempts(old(entries), key, force, now, replies))
      ensures entries == ApiAuthStep(old(entries), key, force, now, replies(attempts - 1)).1
    {
      var out := Retry(ApiAuthAttempts(entries, key, force, now, replies));
      r, attempts := out.0, out.1;
      entries := ApiAuthStep(entries, key, force, now, replies(attempts - 1)).1;
    }
  }

  // ---------------------------------------------------------------------
  // api_inbounds_list, api_clients

  /** `api_inbounds_list`'s decoded `obj`, one attempt. */
  function InboundsListAttempt(status: Status, items: seq<Inbound>): (r: Result<seq<Inbound>, Failure>)
    ensures r.Ok? <==> Success(status)
  {
    if Success(status) then Ok(items) else Err(HttpError(status))
  }

  /** `[c for ib in items for c in ib.get("clientStats", [])]` */
  function AllStats(items: seq<Inbound>): seq<Stat>
    decreases |items|
  {
    if items == [] then [] else AllStats(items[..|items| - 1]) + items[|items| - 1].clientStats
  }

  /** One stat per client-stat entry of every inbound. */
  lemma {:induction false} AllStatsLength(items: seq<Inbound>)
    ensures |AllStats(items)| == StatCount(items)
    decreases |items|
  {
    if items != [] {
      AllStatsLength(items[..|items| - 1]);
    }
  }

  /** The stats `api_clients` lists are exactly, in order, the stats behind
      the rows the server manager's `list_clients` derives. */
  lemma {:induction false} AllStatsAreRowStats(items: seq<Inbound>)
    ensures |AllStats(items)| == |DeriveClients(items)|
    ensures forall i :: 0 <= i < |AllStats(items)| ==> AllStats(items)[i] == DeriveClients(items)[i].stat
    decreases |items|
  {
    if items != [] {
      var init := items[..|items| - 1];
      AllStatsAreRowStats(init);
      var a := AllStats(init);
      var d := DeriveClients(init);
      var ib := items[|items| - 1];
      assert AllStats(items) == a + ib.clientStats;
      assert DeriveClients(items) == d + RowsOf(ib);
      forall i | 0 <= i < |AllStats(items)|
        ensures AllStats(items)[i] == DeriveClients(items)[i].stat
      {
        if i >= |a| {
          assert RowsOf(ib)[i - |a|].stat == ib.clientStats[i - |a|];
        }
      }
    }
  }

  /**
   * `api_inbounds_list` with its own retries, its GETs numbered from
   * `first`: the first 2xx of at most three GETs answers with the inbound
   * list; every failure is a status error, so a failure means all three
   * GETs failed. Written out attempt by attempt; `ApiInboundsListRetries`
   * shows it is the retry decorator's outcome.
   */
  function ApiInboundsList(statuses: nat -> Status, first: nat, items: seq<Inbound>): (out: (Result<seq<Inbound>, Failure>, nat))
    ensures 1 <= out.1 <= MaxTries
    ensures out.0.Ok? <==> Success(statuses(first + out.1 - 1))
    ensures out.0.Ok? ==> out.0.value == items
    ensures forall k :: first <= k < first + out.1 - 1 ==> !Success(statuses(k))
    ensures out.0.Err? ==> out.1 == MaxTries && out.0.error.HttpError?
  {
    if Success(statuses(first)) then (Ok(items), 1)
    else if Success(statuses(first + 1)) then (Ok(items), 2)
    else if Success(statuses(first + 2)) then (Ok(items), 3)
    else (Err(HttpError(statuses(first + 2))), 3)
  }

  /** The listing call is the retry decorator around one GET. */
  lemma ApiInboundsListRetries(statuses: nat -> Status, first: nat, items: seq<Inbound>)
    ensures ApiInboundsList(statuses, first, items) == Retry((k: nat) => InboundsListAttempt(statuses(first + k), items))
  {
    var attempt := (k: nat) => InboundsListAttempt(statuses(first + k), items);
    var out := ApiInboundsList(statuses, first, items);
    assert attempt(out.1 - 1) == InboundsListAttempt(statuses(first + out.1 - 1), items);
    if out.0.Err? {
      assert out.0 == Err(HttpError(statuses(first + 2)));
    }
    assert out.0 == attempt(out.1 - 1);
    forall i | 0 <= i < out.1 - 1
      ensures attempt(i).Err? && RetryableFailure(attempt(i).error)
    {
      assert !Success(statuses(first + i));
    }
    RetryStopsAtFirst(attempt, out.1);
  }

  /** The outer attempts of `api_clients`: attempt `j` is a whole
      `api_inbounds_list` call, which starts at GET number `3 * j`. */
  function ListingAttempts(statuses: nat -> Status, items: seq<Inbound>): nat -> Result<seq<Inbound>, Failure> {
    (j: nat) => ApiInboundsList(statuses, 3 * j, items).0
  }

  /**
   * The outer retries of `api_clients` from its attempt `j` on: attempt `j`
   * is a whole `api_inbounds_list` call starting at GET number `3 * j`; a
   * failed call is retried unless it was the third. The second component
   * is the number of GETs made since the first attempt. Written out call by
   * call; `ListingFromRetries` shows it is the retry decorator's outcome.
   */
  function ListingFrom(statuses: nat -> Status, items: seq<Inbound>, j: nat): (out: (Result<seq<Inbound>, Failure>, nat))
    requires j < MaxTries
    ensures 3 * j + 1 <= out.1 <= 9
    ensures out.0.Ok? <==> Success(statuses(out.1 - 1))
    ensures out.0.Ok? ==> out.0.value == items
    ensures forall i :: 3 * j <= i < out.1 - 1 ==> !Success(statuses(i))
    ensures out.0.Err? ==> out.1 == 9
    decreases MaxTries - j
  {
    var call := ApiInboundsList(statuses, 3 * j, items);
    if call.0.Ok? || j + 1 == MaxTries then (call.0, 3 * j + call.1)
    else ListingFrom(statuses, items, j + 1)
  }

  /** The written-out outer retries are the retry decorator around
      `api_inbounds_list`. */
  lemma {:induction false} ListingFromRetries(statuses: nat -> Status, items: seq<Inbound>, j: nat)
    requires j < MaxTries
    ensures ListingFrom(statuses, items, j).0 == RetryFrom(ListingAttempts(statuses, items), j).0
    decreases MaxTries - j
  {
    var attempts := ListingAttempts(statuses, items);
    var call := ApiInboundsList(statuses, 3 * j, items);
    assert attempts(j) == call.0;
    if !call.0.Ok? && j + 1 < MaxTries {
      assert RetryableFailure(call.0.error);
      ListingFromRetries(statuses, items, j + 1);
    }
  }

  /**
   * `api_clients`: its own retry decorator around `api_inbounds_list`, which
   * retries in turn, so up to 3 x 3 GETs are made; GET number `i` sees
   * `statuses(i)`. The second component is the number of GETs. A success
   * flattens the listing; a failure means all nine GETs failed.
   */
  function ApiClients(statuses: nat -> Status, items: seq<Inbound>): (out: (Result<seq<Stat>, Failure>, nat))
    ensures 1 <= out.1 <= 9
    ensures out.0.Ok? <==> Success(statuses(out.1 - 1))
    ensures out.0.Ok? ==> out.0.value == AllStats(items)
    ensures forall i :: 0 <= i < out.1 - 1 ==> !Success(statuses(i))
    ensures out.0.Err? ==> out.1 == 9
  {
    var listed := ListingFrom(statuses, items, 0);
    if listed.0.Ok? then (Ok(AllStats(listed.0.value)), listed.1) else (Err(listed.0.error), listed.1)
  }

  /** `api_clients` answers as the retry decorator around
      `api_inbounds_list` does. */
  lemma ApiClientsRetries(statuses: nat -> Status, items: seq<Inbound>)
    ensures var outer := Retry(ListingAttempts(statuses, items)).0;
            ApiClients(statuses, items).0 == if outer.Ok? then Ok(AllStats(outer.value)) else Err(outer.error)
  {
    ListingFromRetries(statuses, items, 0);
  }

  // ---------------------------------------------------------------------
  // api_create_client, api_delete_client, api_onlines

  /**
   * `api_create_client`: the same add-client payload is posted on every
   * attempt; the result is the first 2xx, or the last status error.
   */
  function ApiCreateClient(cfg: ServerConfig, inboundId: int, email: string, tgId: int, statuses: nat -> Status)
    : (out: (Result<AddPayload, Failure>, nat))
    ensures 1 <= out.1 <= MaxTries
    ensures out.0.Ok? <==> Success(statuses(out.1 - 1))
    ensures out.0.Ok? ==> out.0.value == AddClientPayload(inboundId, email, cfg.flow, tgId)
    ensures out.0.Ok? ==> forall i :: 0 <= i < out.1 - 1 ==> !Success(statuses(i))
    ensures out.0.Err? ==> out.1 == MaxTries
  {
    var payload := AddClientPayload(inboundId, email, cfg.flow, tgId);
    Retry((k: nat) => if Success(statuses(k)) then Ok(payload) else Err(HttpError(statuses(k))))
  }

  /** `api_delete_client`: the delete path posted on every attempt. */
  function ApiDeleteClient(inboundId: int, clientId: string, statuses: nat -> Status)
    : (out: (Result<string, Failure>, nat))
    ensures 1 <= out.1 <= MaxTries
    ensures out.0.Ok? <==> Success(statuses(out.1 - 1))
    ensures out.0.Ok? ==> out.0.value == DeletePath(inboundId, clientId)
    ensures out.0.Err? ==> out.1 == MaxTries
  {
    var path := DeletePath(inboundId, clientId);
    Retry((k: nat) => if Success(statuses(k)) then Ok(path) else Err(HttpError(statuses(k))))
  }

  /** One attempt of `api_onlines`: the reply's `obj`, `[]` when absent. */
  function OnlinesAttempt(status: Status, body: Json): (r: Result<Json, Failure>)
    ensures r.Ok? <==> Success(status) && body.JObj?
    ensures r.Ok? && "obj" !in body.fields ==> r.value == JArr([])
    ensures r.Ok? && "obj" in body.fields ==> r.value == body.fields["obj"]
  {
    if !Success(status) then Err(HttpError(status))
    else if !body.JObj? then Err(MalformedReply)
    else Ok(Get(body.fields, "obj", JArr([])))
  }

  // ---------------------------------------------------------------------
  // api_traffic

  /** One HTTP answer: its status and its decoded body. */
  datatype Reply = Reply(status: Status, body: Json)

  /** `{"uplink": 0, "downlink": 0, "total": 0}` */
  const ZeroTraffic: Json := JObj(map["uplink" := JInt(0), "downlink" := JInt(0), "total" := JInt(0)])

  lemma ZeroTrafficTruthy()
    ensures Truthy(ZeroTraffic)
  {
    assert "total" in ZeroTraffic.fields;
  }

  /** `resp.json().get("obj", {}) or <zero record>` */
  function ObjOrZero(body: Json): (r: Result<Json, Failure>)
    ensures r.Ok? <==> body.JObj?
    ensures r.Ok? ==> Truthy(r.value)
    ensures r.Ok? && Truthy(Get(body.fields, "obj", EmptyObj)) ==> r.value == body.fields["obj"]
    ensures r.Ok? && !Truthy(Get(body.fields, "obj", EmptyObj)) ==> r.value == ZeroTraffic
  {
    if !body.JObj? then Err(MalformedReply)
    else
      var o := Get(body.fields, "obj", EmptyObj);
      ZeroTrafficTruthy();
      if Truthy(o) then Ok(o) else Ok(ZeroTraffic)
  }

  /**
   * One attempt of `api_traffic`: the by-id lookup answers unless it fails
   * with 404, in which case the by-email lookup answers; a status error on
   * by-email reads as zero traffic. Transport errors are not caught here.
   * The second component says whether the by-email lookup was made.
   */
  function TrafficAttempt(byId: Reply, byEmail: Reply): (out: (Result<Json, Failure>, bool))
    ensures Success(byId.status) ==> out == (ObjOrZero(byId.body), false)
    ensures byId.status.Code? && !Success(byId.status) && byId.status.code != 404 ==>
              out == (Err(HttpError(byId.status)), false)
    ensures byId.status.Unreachable? ==> out == (Err(HttpError(Unreachable)), false)
    ensures out.1 <==> byId.status == Code(404)
    ensures out.1 && Success(byEmail.status) ==> out.0 == ObjOrZero(byEmail.body)
    ensures out.1 && byEmail.status.Code? && !Success(byEmail.status) ==> out.0 == Ok(ZeroTraffic)
    ensures out.1 && byEmail.status.Unreachable? ==> out.0 == Err(HttpError(Unreachable))
    ensures out.0.Ok? ==> Truthy(out.0.value)
  {
    if Success(byId.status) then (ObjOrZero(byId.body), false)
    else if byId.status != Code(404) then (Err(HttpError(byId.status)), false)
    else if Success(byEmail.status) then (ObjOrZero(byEmail.body), true)
    else if byEmail.status.Code? then ZeroTrafficTruthy(); (Ok(ZeroTraffic), true)
    else (Err(HttpError(Unreachable)), true)
  }

  /** `api_traffic` with its retries: attempt `k` sees the replies `replies(k)`. */
  function ApiTraffic(replies: nat -> (Reply, Reply)): (out: (Result<Json, Failure>, nat))
    ensures 1 <= out.1 <= MaxTries
    ensures out.0 == TrafficAttempt(replies(out.1 - 1).0, replies(out.1 - 1).1).0
    ensures forall i :: 0 <= i < out.1 - 1 ==>
              var a := TrafficAttempt(replies(i).0, replies(i).1).0; a.Err? && RetryableFailure(a.error)
    ensures out.1 < MaxTries ==> !(out.0.Err? && RetryableFailure(out.0.error))
    ensures out.0.Ok? ==> Truthy(out.0.value)
  {
    Retry((k: nat) => TrafficAttempt(replies(k).0, replies(k).1).0)
  }

  // ---------------------------------------------------------------------
  // build_vless

  /** The VLESS share link for a client of server `cfg`. */
  function BuildVless(cfg: ServerConfig, email: string, remark: string): (link: string)
    ensures StartsWith(link, "vless://" + email + "@" + cfg.domain + ":" + IntToDecimal(cfg.port) + "?")
    ensures var tag := "#" + remark + "-" + email; |tag| <= |link| && link[|link| - |tag|..] == tag
    ensures CarriesShortId(link, cfg.shortId)
  {
    var head := "vless://" + email + "@" + cfg.domain + ":";
    var port := IntToDecimal(cfg.port) + "?";
    var query := "type=tcp&security=reality&pbk=" + cfg.pbk + "&fp=" + cfg.fp + "&sni=" + cfg.sni;
    var sid := "&sid=" + cfg.shortId + "&spx=";
    var rest := cfg.spx + "&flow=" + cfg.flow;
    var tag := "#" + remark + "-" + email;
    LinkParts(head, port, query, sid, rest, tag);
    head + port + query + sid + rest + tag
  }

  /** The link's query carries `sid` as its REALITY short id. */
  predicate CarriesShortId(link: string, sid: string) {
    exists i :: 0 <= i <= |link| && StartsWith(link[i..], "&sid=" + sid + "&spx=")
  }

  /** Where each part of a six-part concatenation sits. */
  lemma LinkParts(head: string, port: string, query: string, sid: string, rest: string, tag: string)
    ensures var link := head + port + query + sid + rest + tag;
            && StartsWith(link, head + port)
            && StartsWith(link[|head + port + query|..], sid)
            && |tag| <= |link| && link[|link| - |tag|..] == tag
  {
    var link := head + port + query + sid + rest + tag;
    assert link == (head + port) + (query + sid + rest + tag);
    assert link == (head + port + query) + (sid + (rest + tag));
    assert link[|head + port + query|..] == sid + (rest + tag);
    assert link == (head + port + query + sid + rest) + tag;
  }

  /** The link's user part: the text between the scheme and the first `@`. */
  function VlessUser(link: string): Option<string> {
    if !StartsWith(link, "vless://") then None
    else
      var rest := link[|"vless://"|..];
      if '@' in rest then Some(BeforeFirst(rest, '@')) else None
  }

  /** The client a link was built for is read back from it whenever the
      email has no `@`. */
  lemma VlessUserRoundTrip(cfg: ServerConfig, email: string, remark: string)
    requires '@' !in email
    ensures VlessUser(BuildVless(cfg, email, remark)) == Some(email)
  {
    var link := BuildVless(cfg, email, remark);
    var head := "vless://" + email + "@" + cfg.domain + ":";
    assert link[..|head|] == head;
    VlessUserOf(link, email, head);
  }

  /** A link that starts with `vless://`, an email without `@`, then `@`
      names that email. */
  lemma VlessUserOf(link: string, email: string, head: string)
    requires '@' !in email
    requires |head| >= 8 + |email| + 1 && head[..8] == "vless://" && head[8..8 + |email|] == email
    requires head[8 + |email|] == '@'
    requires |head| <= |link| && link[..|head|] == head
    ensures VlessUser(link) == Some(email)
  {
    assert link[..8] == head[..8];
    var rest := link[8..];
    var tail := link[8 + |email| + 1..];
    assert rest[..|email|] == head[8..8 + |email|];
    assert rest == email + ['@'] + tail;
    IndexOfAfter(email, '@', tail);
  }
}
