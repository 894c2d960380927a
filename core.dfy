/**
 * Account lookup and provisioning (services/core.py): load-based server
 * choice over the older helpers, the first-match scan across servers, and
 * get-or-create / ensure / delete / traffic for a chat identity.
 *
 * Each panel call these functions make is replaced by its outcome, given
 * as a parameter: a server's listing, the picked server, the result of a
 * create or of the k-th delete.
 */
module Core {
  import opened Wrappers
  import opened Text
  import opened PanelData
  import opened ServerManager

  // ---------------------------------------------------------------------
  // pick_server_by_load

  /** The `(sid, count)` pairs of the servers whose login and listing
      succeeded, in configuration order. */
  function Loads(sids: seq<string>, outcomes: seq<Result<nat, Failure>>): seq<(string, nat)>
    requires |sids| == |outcomes|
    decreases |sids|
  {
    if sids == [] then []
    else
      var n := |sids| - 1;
      var prev := Loads(sids[..n], outcomes[..n]);
      if outcomes[n].Ok? then prev + [(sids[n], outcomes[n].value)] else prev
  }

  /** A pair is a load exactly when that server's outcome was that count. */
  lemma {:induction false} LoadsSpec(sids: seq<string>, outcomes: seq<Result<nat, Failure>>, sid: string, count: nat)
    requires |sids| == |outcomes|
    ensures (sid, count) in Loads(sids, outcomes)
        <==> exists i :: 0 <= i < |sids| && sids[i] == sid && outcomes[i] == Ok(count)
    decreases |sids|
  {
    if sids != [] {
      var n := |sids| - 1;
      LoadsSpec(sids[..n], outcomes[..n], sid, count);
      if exists i :: 0 <= i < n && sids[..n][i] == sid && outcomes[..n][i] == Ok(count) {
        var i :| 0 <= i < n && sids[..n][i] == sid && outcomes[..n][i] == Ok(count);
        assert sids[i] == sid && outcomes[i] == Ok(count);
      }
      if exists i :: 0 <= i < |sids| && sids[i] == sid && outcomes[i] == Ok(count) {
        var i :| 0 <= i < |sids| && sids[i] == sid && outcomes[i] == Ok(count);
        if i < n {
          assert sids[..n][i] == sid && outcomes[..n][i] == Ok(count);
        }
      }
    }
  }

  /**
   * `pick_server_by_load()`: a server tied at the minimum count among those
   * that answered; when none answered, any configured server (and, with no
   * server configured at all, `random.choice` of an empty list raises).
   */
  method PickServerByLoad(sids: seq<string>, outcomes: seq<Result<nat, Failure>>) returns (r: Result<string, Failure>)
    requires |sids| == |outcomes|
    ensures Loads(sids, outcomes) != [] ==> r.Ok? && r.value in Tied(Loads(sids, outcomes))
    ensures Loads(sids, outcomes) == [] && sids != [] ==> r.Ok? && r.value in sids
    ensures sids == [] ==> r == Err(NoServers)
  {
    var loads: seq<(string, nat)> := [];
    for i := 0 to |sids|
      invariant loads == Loads(sids[..i], outcomes[..i])
    {
      if outcomes[i].Ok? {
        loads := loads + [(sids[i], outcomes[i].value)];
      }
      assert sids[..i + 1][..i] == sids[..i];
      assert outcomes[..i + 1][..i] == outcomes[..i];
    }
    assert sids[..|sids|] == sids && outcomes[..|outcomes|] == outcomes;
    if loads == [] {
      if sids == [] {
        return Err(NoServers);
      }
      assert sids[0] in sids;
      var any :| any in sids;
      return Ok(any);
    }
    TiedIsLeastLoaded(loads, "");
    var pick :| pick in Tied(loads);
    r := Ok(pick);
  }

  /** The server picked by load answered, and with the smallest count of all
      servers that answered. */
  lemma PickedIsLeastLoaded(sids: seq<string>, outcomes: seq<Result<nat, Failure>>, sid: string)
    requires |sids| == |outcomes| && Loads(sids, outcomes) != []
    requires sid in Tied(Loads(sids, outcomes))
    ensures exists i :: 0 <= i < |sids| && sids[i] == sid && outcomes[i] == Ok(MinLoad(Loads(sids, outcomes)))
    ensures forall i :: 0 <= i < |sids| && outcomes[i].Ok? ==> MinLoad(Loads(sids, outcomes)) <= outcomes[i].value
  {
    var loads := Loads(sids, outcomes);
    TiedIsLeastLoaded(loads, sid);
    LoadsSpec(sids, outcomes, sid, MinLoad(loads));
    forall i | 0 <= i < |sids| && outcomes[i].Ok?
      ensures MinLoad(loads) <= outcomes[i].value
    {
      LoadsSpec(sids, outcomes, sids[i], outcomes[i].value);
      var k :| 0 <= k < |loads| && loads[k] == (sids[i], outcomes[i].value);
    }
  }

  // ---------------------------------------------------------------------
  // Prefix matches

  predicate Owned(c: ClientRow, prefix: string) {
    StartsWith(c.Email(), prefix)
  }

  /** `next((c for c in clients if c["email"].startswith(prefix)), None)` */
  function FirstMatch(rows: seq<ClientRow>, prefix: string): (m: Option<ClientRow>)
    ensures m.None? <==> forall i :: 0 <= i < |rows| ==> !Owned(rows[i], prefix)
    ensures m.Some? ==> exists i :: 0 <= i < |rows| && rows[i] == m.value && Owned(m.value, prefix)
                                    && forall j :: 0 <= j < i ==> !Owned(rows[j], prefix)
    decreases |rows|
  {
    if rows == [] then None
    else if Owned(rows[0], prefix) then Some(rows[0])
    else
      var m := FirstMatch(rows[1..], prefix);
      assert forall i :: 1 <= i < |rows| ==> rows[i] == rows[1..][i - 1];
      if m.Some? then
        var i :| 0 <= i < |rows[1..]| && rows[1..][i] == m.value && Owned(m.value, prefix)
                 && forall j :: 0 <= j < i ==> !Owned(rows[1..][j], prefix);
        assert rows[i + 1] == m.value;
        m
      else m
  }

  /** `[c for c in clients if c["email"].startswith(prefix)]` */
  function Matches(rows: seq<ClientRow>, prefix: string): (ms: seq<ClientRow>)
    ensures |ms| <= |rows|
    ensures forall c :: c in ms <==> c in rows && Owned(c, prefix)
    decreases |rows|
  {
    if rows == [] then []
    else
      var rest := Matches(rows[1..], prefix);
      assert forall c :: c in rows <==> c == rows[0] || c in rows[1..];
      if Owned(rows[0], prefix) then [rows[0]] + rest else rest
  }

  /** Keeping the matches commutes with concatenation, so the matches are
      the owned rows in their listing order: with `Matches([r])` being `[r]`
      exactly for an owned `r`, this pins the list down. */
  lemma {:induction false} MatchesConcat(a: seq<ClientRow>, b: seq<ClientRow>, prefix: string)
    ensures Matches(a + b, prefix) == Matches(a, prefix) + Matches(b, prefix)
    decreases |a|
  {
    if a != [] {
      assert (a + b)[0] == a[0];
      assert (a + b)[1..] == a[1..] + b;
      MatchesConcat(a[1..], b, prefix);
    } else {
      assert a + b == b;
    }
  }

  /** Each owned row is kept as often as it is listed, and no other row is
      kept. */
  lemma {:induction false} MatchesCount(rows: seq<ClientRow>, prefix: string, c: ClientRow)
    ensures multiset(Matches(rows, prefix))[c] == if Owned(c, prefix) then multiset(rows)[c] else 0
    decreases |rows|
  {
    if rows != [] {
      MatchesCount(rows[1..], prefix, c);
      assert rows == [rows[0]] + rows[1..];
      assert multiset(rows) == multiset{rows[0]} + multiset(rows[1..]);
    }
  }

  /** The first match is the head of the list of matches. */
  lemma {:induction false} FirstMatchIsHead(rows: seq<ClientRow>, prefix: string)
    ensures FirstMatch(rows, prefix) == (if Matches(rows, prefix) == [] then None else Some(Matches(rows, prefix)[0]))
    decreases |rows|
  {
    if rows != [] && !Owned(rows[0], prefix) {
      FirstMatchIsHead(rows[1..], prefix);
    }
  }

  // ---------------------------------------------------------------------
  // find_user_server

  /**
   * The first server, in configuration order, whose listing holds a client
   * with the prefix, with that server's first such client. A listing that
   * fails before a match is found ends the scan with its failure.
   */
  function FindUser(sids: seq<string>, listings: seq<Result<seq<ClientRow>, Failure>>, prefix: string)
    : Result<Option<(string, ClientRow)>, Failure>
    requires |sids| == |listings|
    decreases |sids|
  {
    if sids == [] then Ok(None)
    else if listings[0].Err? then Err(listings[0].error)
    else match FirstMatch(listings[0].value, prefix)
      case Some(c) => Ok(Some((sids[0], c)))
      case None => FindUser(sids[1..], listings[1..], prefix)
  }

  /** Every server before index `i` answered and holds no match. */
  predicate NoMatchBefore(listings: seq<Result<seq<ClientRow>, Failure>>, prefix: string, i: int)
    requires i <= |listings|
  {
    forall j :: 0 <= j < i ==> listings[j].Ok? && FirstMatch(listings[j].value, prefix).None?
  }

  /**
   * What the scan finds: a match at server `i` means every earlier server
   * answered without a match and `i`'s first match is the one returned; no
   * match at all means every server answered without one.
   */
  lemma {:induction false} FindUserSpec(sids: seq<string>, listings: seq<Result<seq<ClientRow>, Failure>>, prefix: string)
    requires |sids| == |listings|
    ensures FindUser(sids, listings, prefix) == Ok(None) <==> NoMatchBefore(listings, prefix, |sids|)
    ensures FindUser(sids, listings, prefix).Ok? && FindUser(sids, listings, prefix).value.Some? ==>
              exists i :: 0 <= i < |sids| && NoMatchBefore(listings, prefix, i) && listings[i].Ok?
                          && FirstMatch(listings[i].value, prefix).Some?
                          && FindUser(sids, listings, prefix).value.value == (sids[i], FirstMatch(listings[i].value, prefix).value)
    decreases |sids|
  {
    if sids != [] && listings[0].Ok? && FirstMatch(listings[0].value, prefix).None? {
      var tail := listings[1..];
      FindUserSpec(sids[1..], tail, prefix);
      assert forall j :: 1 <= j < |listings| ==> listings[j] == tail[j - 1];
      if NoMatchBefore(listings, prefix, |sids|) {
        assert NoMatchBefore(tail, prefix, |tail|);
      }
      var found := FindUser(sids, listings, prefix);
      if found.Ok? && found.value.Some? {
        var i :| 0 <= i < |sids| - 1 && NoMatchBefore(tail, prefix, i) && tail[i].Ok?
                 && FirstMatch(tail[i].value, prefix).Some?
                 && found.value.value == (sids[1..][i], FirstMatch(tail[i].value, prefix).value);
        assert NoMatchBefore(listings, prefix, i + 1);
      }
    } else if sids != [] && listings[0].Ok? {
      assert NoMatchBefore(listings, prefix, 0);
    }
  }

  /** `find_user_server(prefix)`: scans the servers in order and returns at
      the first match. */
  method FindUserServer(sids: seq<string>, listings: seq<Result<seq<ClientRow>, Failure>>, prefix: string)
    returns (r: Result<Option<(string, ClientRow)>, Failure>)
    requires |sids| == |listings|
    ensures r == FindUser(sids, listings, prefix)
  {
    for i := 0 to |sids|
      invariant FindUser(sids[i..], listings[i..], prefix) == FindUser(sids, listings, prefix)
    {
      if listings[i].Err? {
        return Err(listings[i].error);
      }
      var user := FirstMatch(listings[i].value, prefix);
      if user.Some? {
        return Ok(Some((sids[i], user.value)));
      }
      assert sids[i..][1..] == sids[i + 1..];
      assert listings[i..][1..] == listings[i + 1..];
    }
    r := Ok(None);
  }

  // ---------------------------------------------------------------------
  // Provisioning

  /** `int(cfg.INBOUNDS.split(",")[0])` */
  function FirstInbound(setting: string): Option<int> {
    ParseInt(BeforeFirst(setting, ','))
  }

  /** The first configured inbound id is read back from a comma-separated
      list that starts with it. */
  lemma FirstInboundOf(id: int, rest: string)
    requires rest == [] || rest[0] == ','
    ensures FirstInbound(IntToDecimal(id) + rest) == Some(id)
  {
    var digits := IntToDecimal(id);
    assert ',' !in digits;
    if rest == [] {
      assert digits + rest == digits;
    } else {
      IndexOfAfter(digits, ',', rest[1..]);
      assert digits + rest == digits + [','] + rest[1..];
      assert (digits + rest)[..|digits|] == digits;
    }
    ParseIntToDecimal(id);
  }

  /** An add-client request issued by this layer. */
  datatype CreateRequest = CreateRequest(sid: string, inboundId: int, email: string, tgId: int)

  /** The create request for a new profile `"{tg_id}_" + name` on `sid`'s
      first configured inbound; a failure when that id does not parse. */
  function NewProfile(sid: string, cfg: ServerConfig, tgId: int, desiredName: string): (r: Result<CreateRequest, Failure>)
    ensures r.Ok? <==> FirstInbound(cfg.inbounds).Some?
    ensures r.Ok? ==> r.value == CreateRequest(sid, FirstInbound(cfg.inbounds).value, OwnerPrefix(tgId) + desiredName, tgId)
  {
    match FirstInbound(cfg.inbounds)
    case None => Err(BadSetting(cfg.inbounds))
    case Some(ib) => Ok(CreateRequest(sid, ib, OwnerPrefix(tgId) + desiredName, tgId))
  }

  /**
   * `get_or_create_user_key(tg_id, desired_name)` on the server picked by
   * load: the first email owned by the chat there, or a newly created
   * profile. Returns the server and the email, and the create request made.
   */
  function GetOrCreateUserKey(tgId: int, desiredName: string, picked: Result<string, Failure>,
                              listing: Result<seq<ClientRow>, Failure>,
                              configs: map<string, ServerConfig>, created: Result<(), Failure>)
    : (out: (Result<(string, string), Failure>, Option<CreateRequest>))
    requires picked.Ok? ==> picked.value in configs
    ensures picked.Err? ==> out == (Err(picked.error), None)
    ensures picked.Ok? && listing.Err? ==> out == (Err(listing.error), None)
    ensures picked.Ok? && listing.Ok? && Matches(listing.value, OwnerPrefix(tgId)) != [] ==>
              out == (Ok((picked.value, Matches(listing.value, OwnerPrefix(tgId))[0].Email())), None)
    ensures out.1.Some? ==>
              picked.Ok? && listing.Ok? && Matches(listing.value, OwnerPrefix(tgId)) == []
              && Ok(out.1.value) == NewProfile(picked.value, configs[picked.value], tgId, desiredName)
              && (out.0.Ok? <==> created.Ok?)
              && (out.0.Ok? ==> out.0.value == (picked.value, out.1.value.email))
    ensures picked.Ok? && listing.Ok? && Matches(listing.value, OwnerPrefix(tgId)) == [] ==>
              var req := NewProfile(picked.value, configs[picked.value], tgId, desiredName);
              && (req.Err? ==> out == (Err(req.error), None))
              && (req.Ok? ==> out.1 == Some(req.value)
                              && out.0 == if created.Ok? then Ok((picked.value, OwnerPrefix(tgId) + desiredName))
                                          else Err(created.error))
    ensures out.0.Ok? ==> StartsWith(out.0.value.1, OwnerPrefix(tgId))
  {
    if picked.Err? then (Err(picked.error), None)
    else if listing.Err? then (Err(listing.error), None)
    else
      var sid := picked.value;
      var prefix := OwnerPrefix(tgId);
      var ms := Matches(listing.value, prefix);
      if ms != [] then
        assert ms[0] in ms;
        (Ok((sid, ms[0].Email())), None)
      else
        var req := NewProfile(sid, configs[sid], tgId, desiredName);
        if req.Err? then (Err(req.error), None)
        else
          assert (prefix + desiredName)[..|prefix|] == prefix;
          if created.Err? then (Err(created.error), Some(req.value))
          else (Ok((sid, req.value.email)), Some(req.value))
  }

  /**
   * `ensure_user_profile(tg_id, desired_name)`: an existing profile on any
   * server wins; otherwise a new one on the server picked by load, refused
   * when that server is full.
   */
  function EnsureUserProfile(tgId: int, desiredName: string,
                             sids: seq<string>, listings: seq<Result<seq<ClientRow>, Failure>>,
                             picked: Result<string, Failure>, full: Result<bool, Failure>,
                             configs: map<string, ServerConfig>, created: Result<(), Failure>)
    : (out: (Result<(string, string), Failure>, Option<CreateRequest>))
    requires |sids| == |listings|
    requires picked.Ok? ==> picked.value in configs
    ensures var found := FindUser(sids, listings, OwnerPrefix(tgId));
            && (found.Err? ==> out == (Err(found.error), None))
            && (found.Ok? && found.value.Some? ==>
                  out == (Ok((found.value.value.0, found.value.value.1.Email())), None))
            && (out.1.Some? ==>
                  found == Ok(None) && picked.Ok? && full == Ok(false)
                  && Ok(out.1.value) == NewProfile(picked.value, configs[picked.value], tgId, desiredName))
            && (found == Ok(None) && picked.Ok? && full == Ok(true) ==> out == (Err(AllFull), None))
            && (out.0.Ok? && out.1.Some? <==> created.Ok? && out.1.Some?)
    ensures var found := FindUser(sids, listings, OwnerPrefix(tgId));
            && (found == Ok(None) && picked.Err? ==> out == (Err(picked.error), None))
            && (found == Ok(None) && picked.Ok? && full.Err? ==> out == (Err(full.error), None))
    ensures var found := FindUser(sids, listings, OwnerPrefix(tgId));
            found == Ok(None) && picked.Ok? && full == Ok(false) ==>
              var req := NewProfile(picked.value, configs[picked.value], tgId, desiredName);
              && (req.Err? ==> out == (Err(req.error), None))
              && (req.Ok? ==> out.1 == Some(req.value)
                              && out.0 == if created.Ok? then Ok((picked.value, OwnerPrefix(tgId) + desiredName))
                                          else Err(created.error))
    ensures out.0.Ok? ==> StartsWith(out.0.value.1, OwnerPrefix(tgId))
  {
    var prefix := OwnerPrefix(tgId);
    var found := FindUser(sids, listings, prefix);
    if found.Err? then (Err(found.error), None)
    else if found.value.Some? then
      var (sid, c) := found.value.value;
      FindUserSpec(sids, listings, prefix);
      (Ok((sid, c.Email())), None)
    else if picked.Err? then (Err(picked.error), None)
    else if full.Err? then (Err(full.error), None)
    else if full.value then (Err(AllFull), None)
    else
      var req := NewProfile(picked.value, configs[picked.value], tgId, desiredName);
      if req.Err? then (Err(req.error), None)
      else
        assert (prefix + desiredName)[..|prefix|] == prefix;
        if created.Err? then (Err(created.error), Some(req.value))
        else (Ok((picked.value, req.value.email)), Some(req.value))
  }

  /** The profile `ensure_user_profile` returns is found on a server that
      answered, and every server scanned before it holds no profile of the
      chat. */
  lemma EnsureFindsFirstOwner(tgId: int, sids: seq<string>, listings: seq<Result<seq<ClientRow>, Failure>>, sid: string, c: ClientRow)
    requires |sids| == |listings|
    requires FindUser(sids, listings, OwnerPrefix(tgId)) == Ok(Some((sid, c)))
    ensures exists i :: 0 <= i < |sids| && sids[i] == sid && listings[i].Ok? && c in listings[i].value
                        && NoMatchBefore(listings, OwnerPrefix(tgId), i)
  {
    FindUserSpec(sids, listings, OwnerPrefix(tgId));
  }

  // ---------------------------------------------------------------------
  // delete_user_profile

  /** The delete paths for a list of clients, one per client, in order. */
  function Paths(inboundId: int, cs: seq<ClientRow>): (ps: seq<string>)
    ensures |ps| == |cs|
  {
    seq(|cs|, j requires 0 <= j < |cs| => DeletePath(inboundId, cs[j].Email()))
  }

  /** Every delete path issued names the inbound and a client the chat owns. */
  lemma DeletedAreOwned(inboundId: int, rows: seq<ClientRow>, prefix: string, k: nat)
    requires k < |Matches(rows, prefix)|
    ensures var e := Matches(rows, prefix)[k].Email();
            ParseDeletePath(Paths(inboundId, Matches(rows, prefix))[k]) == Some((inboundId, e))
            && StartsWith(e, prefix)
  {
    var ms := Matches(rows, prefix);
    assert ms[k] in ms;
    DeletePathRoundTrip(inboundId, ms[k].Email());
  }

  /** The first of the first `n` deletes that fails, or `n` if none fails. */
  function FirstFailure(n: nat, outcome: nat -> Result<(), Failure>): (k: nat)
    ensures k <= n
    ensures forall j :: 0 <= j < k ==> outcome(j).Ok?
    ensures k < n ==> outcome(k).Err?
    decreases n
  {
    if n == 0 then 0
    else
      var k := FirstFailure(n - 1, outcome);
      if k < n - 1 then k else if outcome(n - 1).Err? then n - 1 else n
  }

  /** The delete loop of `delete_user_profile`: one delete per client, in
      order, stopping at the first one that fails. */
  method DeleteEach(inboundId: int, ms: seq<ClientRow>, outcome: nat -> Result<(), Failure>)
    returns (r: Result<nat, Failure>, sent: seq<string>)
    ensures (r, sent) == DeleteRun(inboundId, ms, outcome)
  {
    sent := [];
    ghost var ps := Paths(inboundId, ms);
    for i := 0 to |ms|
      invariant sent == ps[..i]
      invariant forall j :: 0 <= j < i ==> outcome(j).Ok?
    {
      sent := sent + [DeletePath(inboundId, ms[i].Email())];
      assert ps[..i + 1] == ps[..i] + [ps[i]];
      if outcome(i).Err? {
        DeleteRunStopsAt(inboundId, ms, outcome, i);
        return Err(outcome(i).error), sent;
      }
    }
    assert ps[..|ms|] == ps;
    r := Ok(|ms|);
    DeleteRunStopsAt(inboundId, ms, outcome, |ms|);
  }

  /** The delete run stops at the first delete that fails. */
  lemma DeleteRunStopsAt(inboundId: int, ms: seq<ClientRow>, outcome: nat -> Result<(), Failure>, i: nat)
    requires i <= |ms|
    requires forall j :: 0 <= j < i ==> outcome(j).Ok?
    requires i < |ms| ==> outcome(i).Err?
    ensures DeleteRun(inboundId, ms, outcome)
         == if i < |ms| then (Err(outcome(i).error), Paths(inboundId, ms)[..i + 1])
            else (Ok(|ms|), Paths(inboundId, ms))
  {
    FirstFailureAt(|ms|, outcome, i);
  }

  /** The first failure is the index before which every delete succeeded
      and at which one failed (or `n` when none did). */
  lemma {:induction false} FirstFailureAt(n: nat, outcome: nat -> Result<(), Failure>, i: nat)
    requires i <= n
    requires forall j :: 0 <= j < i ==> outcome(j).Ok?
    requires i < n ==> outcome(i).Err?
    ensures FirstFailure(n, outcome) == i
  {
    if n > 0 {
      FirstFailureAt(n - 1, outcome, if i < n then i else n - 1);
    }
  }

  /**
   * `delete_user_profile(tg_id)` on the server picked by load: the delete
   * loop over the clients whose email carries the chat's prefix, under the
   * server's first inbound (whose id must parse even when nothing matches).
   * Returns the number of clients deleted and the delete paths issued.
   */
  method DeleteUserProfile(tgId: int, picked: Result<string, Failure>, listing: Result<seq<ClientRow>, Failure>,
                           configs: map<string, ServerConfig>, outcome: nat -> Result<(), Failure>)
    returns (r: Result<nat, Failure>, sent: seq<string>)
    requires picked.Ok? ==> picked.value in configs
    ensures (picked.Err? || listing.Err?) ==> r.Err? && sent == []
    ensures picked.Ok? && listing.Ok? && FirstInbound(configs[picked.value].inbounds).None? ==>
              r == Err(BadSetting(configs[picked.value].inbounds)) && sent == []
    ensures picked.Ok? && listing.Ok? && FirstInbound(configs[picked.value].inbounds).Some? ==>
              (r, sent) == DeleteRun(FirstInbound(configs[picked.value].inbounds).value,
                                     Matches(listing.value, OwnerPrefix(tgId)), outcome)
  {
    sent := [];
    if picked.Err? {
      return Err(picked.error), sent;
    }
    if listing.Err? {
      return Err(listing.error), sent;
    }
    var sid := picked.value;
    var ms := Matches(listing.value, OwnerPrefix(tgId));
    var inbound := FirstInbound(configs[sid].inbounds);
    if inbound.None? {
      return Err(BadSetting(configs[sid].inbounds)), sent;
    }
    r, sent := DeleteEach(inbound.value, ms, outcome);
  }

  /** What the delete loop returns and issues, as a value. */
  function DeleteRun(inboundId: int, ms: seq<ClientRow>, outcome: nat -> Result<(), Failure>)
    : (out: (Result<nat, Failure>, seq<string>))
    ensures out.0.Ok? ==> out.0.value == |ms| == |out.1|
    ensures out.0.Err? ==> 1 <= |out.1| <= |ms| && outcome(|out.1| - 1).Err?
    ensures forall j :: 0 <= j < |out.1| - 1 ==> outcome(j).Ok?
    ensures out.1 == Paths(inboundId, ms)[..|out.1|]
  {
    var k := FirstFailure(|ms|, outcome);
    assert Paths(inboundId, ms)[..|ms|] == Paths(inboundId, ms);
    if k == |ms| then (Ok(|ms|), Paths(inboundId, ms))
    else (Err(outcome(k).error), Paths(inboundId, ms)[..k + 1])
  }

  // ---------------------------------------------------------------------
  // get_user_traffic

  /**
   * `get_user_traffic(tg_id)` on the server picked by load: None when no
   * client there carries the chat's prefix, otherwise the traffic of the
   * first one. Also returns the client whose traffic was asked for.
   */
  function GetUserTraffic(tgId: int, picked: Result<string, Failure>, listing: Result<seq<ClientRow>, Failure>,
                          traffic: Result<Traffic, Failure>)
    : (out: (Result<Option<Traffic>, Failure>, Option<ClientRow>))
    ensures (picked.Err? || listing.Err?) ==> out.0.Err? && out.1.None?
    ensures picked.Ok? && listing.Ok? ==> out.1 == FirstMatch(listing.value, OwnerPrefix(tgId))
    ensures picked.Ok? && listing.Ok? && out.1.None? ==> out.0 == Ok(None)
    ensures out.1.Some? ==> (out.0.Ok? <==> traffic.Ok?) && (out.0.Ok? ==> out.0.value == Some(traffic.value))
  {
    if picked.Err? then (Err(picked.error), None)
    else if listing.Err? then (Err(listing.error), None)
    else
      var user := FirstMatch(listing.value, OwnerPrefix(tgId));
      if user.None? then (Ok(None), None)
      else if traffic.Err? then (Err(traffic.error), user)
      else (Ok(Some(traffic.value)), user)
  }
}
