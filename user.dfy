/**
 * The decision pieces of the user handlers (user.py): `/start`'s choice of
 * reply, the name check of `process_name`, the subscription test, the
 * traffic lookup of `user_traffic` and the delete loop of `delete_profile`.
 *
 * Every panel or Telegram call these handlers make is replaced by its
 * outcome, given as a parameter; the messages themselves are left out.
 */
module User {
  import opened Wrappers
  import opened Text
  import opened PanelData
  import opened ServerManager
  import opened Core
  import Admin

  // ---------------------------------------------------------------------
  // /start

  /** `is_full` of each configured server, in configuration order, stops at
      the first server that is not full; a failing check ends the handler. */
  function AnyFree(full: seq<Result<bool, Failure>>): Result<bool, Failure>
    decreases |full|
  {
    if full == [] then Ok(false)
    else if full[0].Err? then Err(full[0].error)
    else if !full[0].value then Ok(true)
    else AnyFree(full[1..])
  }

  /** A free server is found exactly when some server is reported not full
      and every server checked before it answered "full". */
  lemma {:induction false} AnyFreeSpec(full: seq<Result<bool, Failure>>)
    ensures AnyFree(full) == Ok(false) <==> forall i :: 0 <= i < |full| ==> full[i] == Ok(true)
    ensures AnyFree(full) == Ok(true) <==>
              exists i :: 0 <= i < |full| && full[i] == Ok(false) && forall j :: 0 <= j < i ==> full[j] == Ok(true)
    decreases |full|
  {
    if full != [] {
      AnyFreeSpec(full[1..]);
      assert forall i :: 1 <= i < |full| ==> full[i] == full[1..][i - 1];
      if AnyFree(full) == Ok(true) && full[0] == Ok(true) {
        var i :| 0 <= i < |full[1..]| && full[1..][i] == Ok(false) && forall j :: 0 <= j < i ==> full[1..][j] == Ok(true);
        assert full[i + 1] == Ok(false);
      }
      if exists i :: 0 <= i < |full| && full[i] == Ok(false) && forall j :: 0 <= j < i ==> full[j] == Ok(true) {
        var i :| 0 <= i < |full| && full[i] == Ok(false) && forall j :: 0 <= j < i ==> full[j] == Ok(true);
        if i > 0 {
          assert full[1..][i - 1] == Ok(false);
        }
      }
    }
  }

  /** The `has_free` loop of `user_start`. */
  method HasFree(full: seq<Result<bool, Failure>>) returns (r: Result<bool, Failure>)
    ensures r == AnyFree(full)
  {
    for i := 0 to |full|
      invariant AnyFree(full[i..]) == AnyFree(full)
    {
      if full[i].Err? {
        return Err(full[i].error);
      }
      if !full[i].value {
        return Ok(true);
      }
      assert full[i..][1..] == full[i + 1..];
    }
    r := Ok(false);
  }

  /** The member statuses that count as subscribed. A failing
      `get_chat_member` is `None`. */
  function Subscribed(status: Option<string>): (ok: bool)
    ensures ok ==> status.Some?
    ensures status.Some? ==> (ok <==> status.value in {"member", "administrator", "creator"})
  {
    status.Some? && (status.value == "member" || status.value == "administrator" || status.value == "creator")
  }

  /** An illustration of `Subscribed`'s contract on the statuses the chat
      API reports for restricted, departed and banned users: all refused. */
  lemma NotSubscribed()
    ensures !Subscribed(Some("restricted")) && !Subscribed(Some("left")) && !Subscribed(Some("kicked"))
  {
  }

  datatype StartReply =
    | ShowKey(sid: string, email: string)   // the existing key
    | AllServersFull                        // "⛔ Все серверы заполнены"
    | SubscribeFirst                        // "⚠️ Доступ временно ограничен."
    | AskName                               // the name prompt; the FSM waits for a name

  /**
   * `user_start`: an existing client wins; otherwise the servers' free
   * capacity is checked, then the channel subscription. A failing lookup
   * is not caught by the handler and ends it.
   */
  function StartStep(found: Result<Option<(string, ClientRow)>, Failure>, full: seq<Result<bool, Failure>>,
                     status: Option<string>): (r: Result<StartReply, Failure>)
    ensures found.Err? ==> r == Err(found.error)
    ensures found.Ok? && found.value.Some? ==> r == Ok(ShowKey(found.value.value.0, found.value.value.1.Email()))
    ensures found == Ok(None) && AnyFree(full).Err? ==> r == Err(AnyFree(full).error)
    ensures r.Ok? && r.value.ShowKey? ==> found.Ok? && found.value.Some?
    ensures r == Ok(AskName) <==> found == Ok(None) && AnyFree(full) == Ok(true) && Subscribed(status)
    ensures r == Ok(AllServersFull) <==> found == Ok(None) && AnyFree(full) == Ok(false)
    ensures r == Ok(SubscribeFirst) <==> found == Ok(None) && AnyFree(full) == Ok(true) && !Subscribed(status)
  {
    if found.Err? then Err(found.error)
    else if found.value.Some? then Ok(ShowKey(found.value.value.0, found.value.value.1.Email()))
    else match AnyFree(full)
      case Err(e) => Err(e)
      case Ok(free) =>
        if !free then Ok(AllServersFull)
        else if !Subscribed(status) then Ok(SubscribeFirst)
        else Ok(AskName)
  }

  // ---------------------------------------------------------------------
  // process_name

  datatype NameCheck = NameRejected | NameAccepted(name: string, notifyLower: bool)

  /** The stripped text, lower-cased when it holds an upper-case letter. */
  function Normalised(text: string): string {
    var name := Strip(text);
    if HasUpper(name) then Lower(name) else name
  }

  /** `process_name`: the name is accepted iff the normalised text is 3-20
      letters a-z; the user is told of the lower-casing exactly when it
      happened. */
  function ProcessName(text: string): (r: NameCheck)
    ensures r.NameAccepted? <==> IsLatinName(Normalised(text))
    ensures r.NameAccepted? ==> r.name == Normalised(text) && (r.notifyLower <==> HasUpper(Strip(text)))
  {
    var name := Strip(text);
    var notify := HasUpper(name);
    var name' := if notify then Lower(name) else name;
    if IsLatinName(name') then NameAccepted(name', notify) else NameRejected
  }

  /** Lowering only when needed is the same as always lowering: the name
      kept is `text.strip().lower()`. */
  lemma NormalisedIsLower(text: string)
    ensures Normalised(text) == Lower(Strip(text))
  {
    if !HasUpper(Strip(text)) {
      LowerWithoutUpper(Strip(text));
    }
  }

  /** The user's name rule and the admin's add rule accept the same texts
      and keep the same name. */
  lemma SameNameRuleAsAdmin(text: string)
    ensures ProcessName(text).NameAccepted? <==> Admin.CheckNewClient(text, []).Accepted?
    ensures ProcessName(text).NameAccepted? ==> ProcessName(text).name == Admin.CheckNewClient(text, []).name
  {
    NormalisedIsLower(text);
  }

  /** An accepted name is accepted again unchanged, with nothing to tell. */
  lemma ProcessNameIdempotent(text: string)
    requires ProcessName(text).NameAccepted?
    ensures ProcessName(ProcessName(text).name) == NameAccepted(ProcessName(text).name, false)
  {
    var name := ProcessName(text).name;
    assert forall i :: 0 <= i < |name| ==> 'a' <= name[i] <= 'z';
    StripTrimmed(name);
    assert !HasUpper(name);
  }

  // ---------------------------------------------------------------------
  // user_traffic

  datatype TrafficReply =
    | ProfileNotFound                          // "Профиль не найден."
    | TrafficFailed(failure: Failure)          // "Ошибка получения трафика: …"
    | TrafficUsed(uplink: int, downlink: int, total: int)

  /**
   * `user_traffic`: the first server, in configuration order, listing a
   * client with the chat's prefix, and that server's first such client,
   * are asked for the traffic; the total shown is uplink plus downlink.
   * `traffic` is the answer of `get_traffic` for a server and client.
   */
  method UserTraffic(tgId: int, sids: seq<string>, listings: seq<Result<seq<ClientRow>, Failure>>,
                     traffic: (string, ClientRow) -> Result<(int, int), Failure>)
    returns (r: TrafficReply)
    requires |sids| == |listings|
    ensures var found := FindUser(sids, listings, OwnerPrefix(tgId));
            && (found.Err? ==> r == TrafficFailed(found.error))
            && (r == ProfileNotFound <==> found == Ok(None))
            && (r.TrafficUsed? ==>
                  && found.Ok? && found.value.Some?
                  && traffic(found.value.value.0, found.value.value.1) == Ok((r.uplink, r.downlink))
                  && r.total == r.uplink + r.downlink)
            && (found.Ok? && found.value.Some? && traffic(found.value.value.0, found.value.value.1).Err? ==>
                  r == TrafficFailed(traffic(found.value.value.0, found.value.value.1).error))
            && (found.Ok? && found.value.Some? && traffic(found.value.value.0, found.value.value.1).Ok? ==>
                  var (u, d) := traffic(found.value.value.0, found.value.value.1).value;
                  r == TrafficUsed(u, d, u + d))
  {
    var found := FindUserServer(sids, listings, OwnerPrefix(tgId));
    if found.Err? {
      return TrafficFailed(found.error);
    }
    if found.value.None? {
      return ProfileNotFound;
    }
    var (sid, user) := found.value.value;
    var stats := traffic(sid, user);
    if stats.Err? {
      return TrafficFailed(stats.error);
    }
    r := TrafficUsed(stats.value.0, stats.value.1, stats.value.0 + stats.value.1);
  }

  // ---------------------------------------------------------------------
  // delete_profile

  /** The delete calls for one server: `(sid, delete path)` for each listed
      client whose email carries the prefix, in listing order. */
  function OwnedCalls(sid: string, inboundId: int, rows: seq<ClientRow>, prefix: string): seq<(string, string)>
    decreases |rows|
  {
    if rows == [] then []
    else
      var c := rows[|rows| - 1];
      OwnedCalls(sid, inboundId, rows[..|rows| - 1], prefix)
        + (if Owned(c, prefix) then [(sid, DeletePath(inboundId, c.Email()))] else [])
  }

  /** Some listed client's email carries the prefix. */
  predicate HasOwned(rows: seq<ClientRow>, prefix: string) {
    exists i :: 0 <= i < |rows| && Owned(rows[i], prefix)
  }

  /** Each call of a server deletes one of its clients with the prefix, each
      such client gets a call, and there are calls iff there is such a
      client. */
  lemma {:induction false} OwnedCallsSpec(sid: string, inboundId: int, rows: seq<ClientRow>, prefix: string)
    ensures forall call :: call in OwnedCalls(sid, inboundId, rows, prefix) ==>
              exists c :: c in rows && Owned(c, prefix) && call == (sid, DeletePath(inboundId, c.Email()))
    ensures forall c :: c in rows && Owned(c, prefix) ==> (sid, DeletePath(inboundId, c.Email())) in OwnedCalls(sid, inboundId, rows, prefix)
    ensures OwnedCalls(sid, inboundId, rows, prefix) != [] <==> HasOwned(rows, prefix)
    decreases |rows|
  {
    if rows != [] {
      var init := rows[..|rows| - 1];
      OwnedCallsSpec(sid, inboundId, init, prefix);
      assert forall c :: c in rows <==> c in init || c == rows[|rows| - 1];
      if HasOwned(rows, prefix) && !Owned(rows[|rows| - 1], prefix) {
        var i :| 0 <= i < |rows| && Owned(rows[i], prefix);
        assert init[i] == rows[i];
      }
    }
  }

  /** What the scan of the first `n` servers asks for: the delete calls, the
      servers whose client cache is dropped, and the failure that ends the
      scan early, if any. */
  datatype Plan = Plan(calls: seq<(string, string)>, invalidated: seq<string>, stop: Option<Failure>)

  /**
   * One server of the loop of `delete_profile`, assuming every delete
   * succeeds. A failing listing, or an inbound setting that does not parse
   * (read on every server, matching clients or not), ends the scan. The
   * cache of a server is dropped once any delete has been issued, on this
   * server or an earlier one.
   */
  function PlanStep(prev: Plan, sid: string, setting: string, inbound: Option<int>,
                    listing: Result<seq<ClientRow>, Failure>, prefix: string): (next: Plan)
    ensures prev.stop.Some? ==> next == prev
    ensures prev.calls <= next.calls
  {
    if prev.stop.Some? then prev
    else if listing.Err? then Plan(prev.calls, prev.invalidated, Some(listing.error))
    else if inbound.None? then Plan(prev.calls, prev.invalidated, Some(BadSetting(setting)))
    else
      var calls := prev.calls + OwnedCalls(sid, inbound.value, listing.value, prefix);
      Plan(calls, prev.invalidated + (if calls != [] then [sid] else []), None)
  }

  /** The loop of `delete_profile` over the first `n` servers; `inbounds`
      holds each server's parsed inbound setting. */
  function PlanUpTo(sids: seq<string>, cfgs: seq<ServerConfig>, inbounds: seq<Option<int>>,
                    listings: seq<Result<seq<ClientRow>, Failure>>, prefix: string, n: nat): Plan
    requires |sids| == |cfgs| == |inbounds| == |listings| && n <= |sids|
    decreases n
  {
    if n == 0 then Plan([], [], None)
    else PlanStep(PlanUpTo(sids, cfgs, inbounds, listings, prefix, n - 1), sids[n - 1], cfgs[n - 1].inbounds,
                  inbounds[n - 1], listings[n - 1], prefix)
  }

  /** Scanning further only adds calls, and a scan that stopped stays
      stopped. */
  lemma {:induction false} PlanGrows(sids: seq<string>, cfgs: seq<ServerConfig>, inbounds: seq<Option<int>>,
      listings: seq<Result<seq<ClientRow>, Failure>>,
                                     prefix: string, i: nat, n: nat)
    requires |sids| == |cfgs| == |inbounds| == |listings| && i <= n <= |sids|
    ensures PlanUpTo(sids, cfgs, inbounds, listings, prefix, i).calls <= PlanUpTo(sids, cfgs, inbounds, listings, prefix, n).calls
    ensures PlanUpTo(sids, cfgs, inbounds, listings, prefix, i).stop.Some? ==>
              PlanUpTo(sids, cfgs, inbounds, listings, prefix, n) == PlanUpTo(sids, cfgs, inbounds, listings, prefix, i)
    decreases n - i
  {
    if i < n {
      PlanGrows(sids, cfgs, inbounds, listings, prefix, i, n - 1);
    }
  }

  /** Every planned call deletes, under the server's first inbound, a
      client of that server whose email carries the prefix. */
  lemma {:induction false} PlannedAreOwned(sids: seq<string>, cfgs: seq<ServerConfig>, inbounds: seq<Option<int>>,
      listings: seq<Result<seq<ClientRow>, Failure>>,
                                           prefix: string, n: nat, call: (string, string))
    requires |sids| == |cfgs| == |inbounds| == |listings| && n <= |sids|
    requires call in PlanUpTo(sids, cfgs, inbounds, listings, prefix, n).calls
    ensures exists i, c :: 0 <= i < n && listings[i].Ok? && c in listings[i].value && Owned(c, prefix)
                           && inbounds[i].Some?
                           && call == (sids[i], DeletePath(inbounds[i].value, c.Email()))
    decreases n
  {
    var prev := PlanUpTo(sids, cfgs, inbounds, listings, prefix, n - 1);
    if call in prev.calls {
      PlannedAreOwned(sids, cfgs, inbounds, listings, prefix, n - 1, call);
    } else {
      var i := n - 1;
      OwnedCallsSpec(sids[i], inbounds[i].value, listings[i].value, prefix);
    }
  }

  /** A scan that went through plans a delete for every client, on every
      server, whose email carries the prefix. */
  lemma PlanCoversOwned(sids: seq<string>, cfgs: seq<ServerConfig>, inbounds: seq<Option<int>>,
      listings: seq<Result<seq<ClientRow>, Failure>>,
                        prefix: string, n: nat, i: nat, c: ClientRow)
    requires |sids| == |cfgs| == |inbounds| == |listings| && i < n <= |sids|
    requires PlanUpTo(sids, cfgs, inbounds, listings, prefix, n).stop.None?
    requires listings[i].Ok? && c in listings[i].value && Owned(c, prefix)
    ensures inbounds[i].Some?
    ensures (sids[i], DeletePath(inbounds[i].value, c.Email())) in PlanUpTo(sids, cfgs, inbounds, listings, prefix, n).calls
  {
    PlanGrows(sids, cfgs, inbounds, listings, prefix, i + 1, n);
    PlanGrows(sids, cfgs, inbounds, listings, prefix, i, i + 1);
    OwnedCallsSpec(sids[i], inbounds[i].value, listings[i].value, prefix);
  }

  /** The first of the first `n` servers listing a client with the prefix,
      or `n` when there is none. */
  function FirstOwnerServer(listings: seq<Result<seq<ClientRow>, Failure>>, prefix: string, n: nat): (f: nat)
    requires n <= |listings|
    ensures f <= n
    decreases n
  {
    if n == 0 then 0
    else
      var f := FirstOwnerServer(listings, prefix, n - 1);
      if f < n - 1 then f
      else if listings[n - 1].Ok? && HasOwned(listings[n - 1].value, prefix) then n - 1
      else n
  }

  /**
   * When the scan went through, calls were planned iff some server lists a
   * client with the prefix, and the caches dropped are those of the first
   * such server and of every server after it, whether they held a match or
   * not.
   */
  lemma {:induction false} InvalidatedFromFirstOwner(sids: seq<string>, cfgs: seq<ServerConfig>, inbounds: seq<Option<int>>,
      listings: seq<Result<seq<ClientRow>, Failure>>,
                                                     prefix: string, n: nat)
    requires |sids| == |cfgs| == |inbounds| == |listings| && n <= |sids|
    requires PlanUpTo(sids, cfgs, inbounds, listings, prefix, n).stop.None?
    ensures var f := FirstOwnerServer(listings, prefix, n);
            && (PlanUpTo(sids, cfgs, inbounds, listings, prefix, n).calls != [] <==> f < n)
            && PlanUpTo(sids, cfgs, inbounds, listings, prefix, n).invalidated == sids[f..n]
            && (forall i :: 0 <= i < f ==> listings[i].Ok? && !HasOwned(listings[i].value, prefix))
    decreases n
  {
    if n > 0 {
      InvalidatedFromFirstOwner(sids, cfgs, inbounds, listings, prefix, n - 1);
      OwnedCallsSpec(sids[n - 1], inbounds[n - 1].value, listings[n - 1].value, prefix);
      var f := FirstOwnerServer(listings, prefix, n - 1);
      if f < n - 1 {
        assert sids[f..n] == sids[f..n - 1] + [sids[n - 1]];
      }
    }
  }

  datatype DeleteReply =
    | ProfileDeleted                 // "✅ Ваш профиль и все ключи удалены."
    | NothingToDelete                // "⚠️ Профиль не найден."
    | DeleteFailed(failure: Failure) // "❌ Ошибка удаления профиля: …"

  /** The delete loop for one server: stops at the first delete that fails.
      `issued` counts the deletes made before this server. */
  method DeleteOnServer(sid: string, inboundId: int, rows: seq<ClientRow>, prefix: string, issued: nat,
                        outcome: nat -> Result<(), Failure>)
    returns (failure: Option<Failure>, sent: seq<(string, string)>)
    ensures failure.None? ==> sent == OwnedCalls(sid, inboundId, rows, prefix)
    ensures failure.Some? ==> 1 <= |sent| && sent <= OwnedCalls(sid, inboundId, rows, prefix)
                              && outcome(issued + |sent| - 1) == Err(failure.value)
    ensures forall j :: issued <= j < issued + |sent| - (if failure.Some? then 1 else 0) ==> outcome(j).Ok?
  {
    sent := [];
    for j := 0 to |rows|
      invariant sent == OwnedCalls(sid, inboundId, rows[..j], prefix)
      invariant forall k :: issued <= k < issued + |sent| ==> outcome(k).Ok?
    {
      assert rows[..j + 1][..j] == rows[..j];
      if Owned(rows[j], prefix) {
        sent := sent + [(sid, DeletePath(inboundId, rows[j].Email()))];
        if outcome(issued + |sent| - 1).Err? {
          OwnedCallsPrefix(sid, inboundId, rows, prefix, j + 1);
          return Some(outcome(issued + |sent| - 1).error), sent;
        }
      }
    }
    assert rows[..|rows|] == rows;
    failure := None;
  }

  /** The calls for a prefix of a listing are a prefix of its calls. */
  lemma {:induction false} OwnedCallsPrefix(sid: string, inboundId: int, rows: seq<ClientRow>, prefix: string, j: nat)
    requires j <= |rows|
    ensures OwnedCalls(sid, inboundId, rows[..j], prefix) <= OwnedCalls(sid, inboundId, rows, prefix)
    decreases |rows| - j
  {
    if j < |rows| {
      OwnedCallsPrefix(sid, inboundId, rows, prefix, j + 1);
      assert rows[..j + 1][..j] == rows[..j];
    } else {
      assert rows[..j] == rows;
    }
  }

  /** `int(cfg.INBOUNDS.split(",")[0])` for each server, in order. */
  function FirstInbounds(cfgs: seq<ServerConfig>): (r: seq<Option<int>>)
    ensures |r| == |cfgs|
  {
    seq(|cfgs|, i requires 0 <= i < |cfgs| => FirstInbound(cfgs[i].inbounds))
  }

  /**
   * `delete_profile`: every client of the chat on every server is deleted,
   * in configuration and listing order, the `k`-th delete having outcome
   * `outcome(k)`. The handler reports the first failure, if any; otherwise
   * success iff at least one delete was issued.
   */
  method DeleteProfile(tgId: int, sids: seq<string>, cfgs: seq<ServerConfig>,
                       listings: seq<Result<seq<ClientRow>, Failure>>, outcome: nat -> Result<(), Failure>)
    returns (r: DeleteReply, sent: seq<(string, string)>, invalidated: seq<string>)
    requires |sids| == |cfgs| == |listings|
    ensures var plan := PlanUpTo(sids, cfgs, FirstInbounds(cfgs), listings, OwnerPrefix(tgId), |sids|);
            var k := FirstFailure(|plan.calls|, outcome);
            && (k < |plan.calls| ==> r == DeleteFailed(outcome(k).error) && sent == plan.calls[..k + 1])
            && (k == |plan.calls| ==> sent == plan.calls)
            && (k == |plan.calls| && plan.stop.Some? ==> r == DeleteFailed(plan.stop.value))
            && (k == |plan.calls| && plan.stop.None? ==>
                  invalidated == plan.invalidated && r == (if sent != [] then ProfileDeleted else NothingToDelete))
  {
    r, sent, invalidated := DeleteLoop(sids, cfgs, FirstInbounds(cfgs), listings, OwnerPrefix(tgId), outcome);
  }

  /** The server loop of `delete_profile`, for the parsed inbound settings
      `inbounds` and the owner prefix `prefix`. */
  method DeleteLoop(sids: seq<string>, cfgs: seq<ServerConfig>, inbounds: seq<Option<int>>,
                    listings: seq<Result<seq<ClientRow>, Failure>>, prefix: string, outcome: nat -> Result<(), Failure>)
    returns (r: DeleteReply, sent: seq<(string, string)>, invalidated: seq<string>)
    requires |sids| == |cfgs| == |inbounds| == |listings|
    ensures var plan := PlanUpTo(sids, cfgs, inbounds, listings, prefix, |sids|);
            var k := FirstFailure(|plan.calls|, outcome);
            && (k < |plan.calls| ==> r == DeleteFailed(outcome(k).error) && sent == plan.calls[..k + 1])
            && (k == |plan.calls| ==> sent == plan.calls)
            && (k == |plan.calls| && plan.stop.Some? ==> r == DeleteFailed(plan.stop.value))
            && (k == |plan.calls| && plan.stop.None? ==>
                  invalidated == plan.invalidated && r == (if sent != [] then ProfileDeleted else NothingToDelete))
  {
    sent := [];
    invalidated := [];
    var found := false;
    for i := 0 to |sids|
      invariant PlanUpTo(sids, cfgs, inbounds, listings, prefix, i).stop.None?
      invariant sent == PlanUpTo(sids, cfgs, inbounds, listings, prefix, i).calls
      invariant invalidated == PlanUpTo(sids, cfgs, inbounds, listings, prefix, i).invalidated
      invariant found <==> sent != []
      invariant forall j :: 0 <= j < |sent| ==> outcome(j).Ok?
    {
      var step := ServerStep(sids, cfgs, inbounds, listings, prefix, outcome, i, sent, invalidated, found);
      if step.0.Some? {
        EndsEarly(sids, cfgs, inbounds, listings, prefix, outcome, i, sent, step.1);
        return step.0.value, step.1, invalidated;
      }
      sent, invalidated, found := step.1, step.2, step.3;
    }
    r := if found then ProfileDeleted else NothingToDelete;
    assert FirstFailure(|sent|, outcome) == |sent|;
  }

  /** How a server that ends the handler early fits the whole plan: either
      the scan stopped there, or a delete failed, and that delete is the
      first failing one of the whole plan. */
  lemma EndsEarly(sids: seq<string>, cfgs: seq<ServerConfig>, inbounds: seq<Option<int>>,
                  listings: seq<Result<seq<ClientRow>, Failure>>, prefix: string, outcome: nat -> Result<(), Failure>,
                  i: nat, sent: seq<(string, string)>, sent': seq<(string, string)>)
    requires |sids| == |cfgs| == |inbounds| == |listings| && i < |sids|
    requires sent == PlanUpTo(sids, cfgs, inbounds, listings, prefix, i).calls
    requires forall j :: 0 <= j < |sent| ==> outcome(j).Ok?
    requires var next := PlanUpTo(sids, cfgs, inbounds, listings, prefix, i + 1);
             || (next.stop.Some? && sent' == sent)
             || (|sent| < |sent'| && sent' <= next.calls && outcome(|sent'| - 1).Err?
                 && forall j :: |sent| <= j < |sent'| - 1 ==> outcome(j).Ok?)
    ensures var plan := PlanUpTo(sids, cfgs, inbounds, listings, prefix, |sids|);
            var k := FirstFailure(|plan.calls|, outcome);
            && (k < |plan.calls| ==> k == |sent'| - 1 && sent' == plan.calls[..k + 1])
            && (k == |plan.calls| ==> sent' == plan.calls && plan.stop.Some?
                                      && plan.stop == PlanUpTo(sids, cfgs, inbounds, listings, prefix, i + 1).stop)
  {
    PlanGrows(sids, cfgs, inbounds, listings, prefix, i + 1, |sids|);
    var plan := PlanUpTo(sids, cfgs, inbounds, listings, prefix, |sids|);
    var k := FirstFailure(|plan.calls|, outcome);
    if PlanUpTo(sids, cfgs, inbounds, listings, prefix, i + 1).stop.Some? && sent' == sent {
      assert plan.calls == sent;
    } else {
      assert sent' <= plan.calls;
      assert k == |sent'| - 1;
    }
  }

  /** The body of the server loop of `delete_profile` for server `i`:
      either the reply that ends the handler, or the new state. */
  method ServerStep(sids: seq<string>, cfgs: seq<ServerConfig>, inbounds: seq<Option<int>>,
                    listings: seq<Result<seq<ClientRow>, Failure>>, prefix: string, outcome: nat -> Result<(), Failure>,
                    i: nat, sent: seq<(string, string)>, invalidated: seq<string>, found: bool)
    returns (step: (Option<DeleteReply>, seq<(string, string)>, seq<string>, bool))
    requires |sids| == |cfgs| == |inbounds| == |listings| && i < |sids|
    requires PlanUpTo(sids, cfgs, inbounds, listings, prefix, i).stop.None?
    requires sent == PlanUpTo(sids, cfgs, inbounds, listings, prefix, i).calls
    requires invalidated == PlanUpTo(sids, cfgs, inbounds, listings, prefix, i).invalidated
    requires found <==> sent != []
    requires forall j :: 0 <= j < |sent| ==> outcome(j).Ok?
    ensures var next := PlanUpTo(sids, cfgs, inbounds, listings, prefix, i + 1);
            step.0.Some? ==>
              || (next.stop.Some? && step.1 == sent && step.0.value == DeleteFailed(next.stop.value))
              || (|sent| < |step.1| && step.1 <= next.calls && outcome(|step.1| - 1).Err?
                  && (forall j :: |sent| <= j < |step.1| - 1 ==> outcome(j).Ok?)
                  && step.0.value == DeleteFailed(outcome(|step.1| - 1).error))
    ensures var next := PlanUpTo(sids, cfgs, inbounds, listings, prefix, i + 1);
            step.0.None? ==>
              && next.stop.None? && step.1 == next.calls && step.2 == next.invalidated
              && (step.3 <==> step.1 != [])
              && forall j :: 0 <= j < |step.1| ==> outcome(j).Ok?
  {
    if listings[i].Err? {
      return (Some(DeleteFailed(listings[i].error)), sent, invalidated, found);
    }
    var inbound := inbounds[i];
    if inbound.None? {
      return (Some(DeleteFailed(BadSetting(cfgs[i].inbounds))), sent, invalidated, found);
    }
    var failure, more := DeleteOnServer(sids[i], inbound.value, listings[i].value, prefix, |sent|, outcome);
    var sent' := sent + more;
    if failure.Some? {
      return (Some(DeleteFailed(failure.value)), sent', invalidated, found);
    }
    var found' := found || more != [];
    var invalidated' := if found' then invalidated + [sids[i]] else invalidated;
    step := (None, sent', invalidated', found');
  }
}
