/**
 * The reminder-settings table (services/reminders.py, db.py) and its
 * synchronisation from the panels (sync_reminders.py).
 *
 * The table is a map from chat id to record; a database session is one
 * method call. Panel replies reach the model as parameters: the result of
 * `server_manager.list_clients` per configured server, and the result of
 * `api_auth` followed by `api_clients` per configured server.
 */
module Reminders {
  import opened Wrappers
  import opened Text
  import opened PanelData
  import opened ServerManager

  /** A `ReminderSetting` row, without its chat id (the key) and its
      timestamps. */
  datatype Setting = Setting(enabled: bool, asked: bool, lastMsgId: Option<int>)

  /** The column defaults of a new row: disabled, not asked, no message. */
  const Fresh: Setting := Setting(false, false, None)

  type Table = map<int, Setting>

  /** `await s.get(ReminderSetting, chat_id) or ReminderSetting(chat_id=chat_id)` */
  function Record(t: Table, chatId: int): Setting {
    if chatId in t then t[chatId] else Fresh
  }

  // ---------------------------------------------------------------------
  // Updates of one row

  /** The table after `mark_asked(chat_id)`: the row exists and is marked
      asked; its other columns and every other row are as before. */
  function MarkedAsked(t: Table, chatId: int): (t': Table)
    ensures t'.Keys == t.Keys + {chatId}
    ensures t'[chatId].asked
    ensures t'[chatId].enabled == Record(t, chatId).enabled
    ensures t'[chatId].lastMsgId == Record(t, chatId).lastMsgId
    ensures forall k :: k in t && k != chatId ==> t'[k] == t[k]
  {
    t[chatId := Record(t, chatId).(asked := true)]
  }

  /** The table after `toggle_enabled(chat_id)` and the value it returns:
      the flag flips, the row is marked asked, and the new flag is
      returned; a chat without a row gets one that is enabled. */
  function Toggled(t: Table, chatId: int): (out: (Table, bool))
    ensures out.1 == !Record(t, chatId).enabled
    ensures chatId !in t ==> out.1
    ensures out.0.Keys == t.Keys + {chatId}
    ensures out.0[chatId].enabled == out.1 && out.0[chatId].asked
    ensures out.0[chatId].lastMsgId == Record(t, chatId).lastMsgId
    ensures forall k :: k in t && k != chatId ==> out.0[k] == t[k]
  {
    var r := Record(t, chatId);
    (t[chatId := r.(enabled := !r.enabled, asked := true)], !r.enabled)
  }

  /** The table after `save_last_msg_id(chat_id, msg_id)`: only that row's
      message id changes (the row is created if missing). */
  function WithLastMsgId(t: Table, chatId: int, msgId: int): (t': Table)
    ensures t'.Keys == t.Keys + {chatId}
    ensures t'[chatId].lastMsgId == Some(msgId)
    ensures t'[chatId].enabled == Record(t, chatId).enabled && t'[chatId].asked == Record(t, chatId).asked
    ensures forall k :: k in t && k != chatId ==> t'[k] == t[k]
  {
    t[chatId := Record(t, chatId).(lastMsgId := Some(msgId))]
  }

  /** `list_enabled_chat_ids()`, as a set: the database returns the rows in
      no stated order. */
  function EnabledChatIds(t: Table): (ids: set<int>)
    ensures forall k :: k in ids <==> k in t && t[k].enabled
  {
    set k | k in t && t[k].enabled
  }

  /** After a toggle the chat is listed as enabled exactly when the toggle
      returned true, and every other chat is listed as before. */
  lemma ToggleListing(t: Table, chatId: int)
    ensures var (t', enabled) := Toggled(t, chatId);
            (chatId in EnabledChatIds(t') <==> enabled)
            && forall k :: k != chatId ==> (k in EnabledChatIds(t') <==> k in EnabledChatIds(t))
  {
  }

  /** Toggling twice restores the flag; the only trace left is the asked
      mark, exactly as after `mark_asked`. */
  lemma ToggleTwice(t: Table, chatId: int)
    ensures var (t1, e1) := Toggled(t, chatId);
            var (t2, e2) := Toggled(t1, chatId);
            e2 == Record(t, chatId).enabled && t2 == MarkedAsked(t, chatId)
  {
    var (t1, e1) := Toggled(t, chatId);
    var (t2, e2) := Toggled(t1, chatId);
    assert t2.Keys == MarkedAsked(t, chatId).Keys;
    assert t2[chatId] == MarkedAsked(t, chatId)[chatId];
  }

  // ---------------------------------------------------------------------
  // Owner ids in client emails

  /**
   * The tg id of a client email `<tg_id>_<name>`: present when the email
   * contains `_` and the text before the first `_` is all ASCII digits.
   * It is read in one left-to-right scan; `TgIdOfSpec` states it in terms
   * of `email.split("_", 1)[0]`.
   */
  function TgIdOf(email: string): (r: Option<int>) {
    ScanOwner(email, 0, 0)
  }

  /** The scan from position `i`, where `acc` is the value of the digits
      before `i`. */
  function ScanOwner(email: string, i: nat, acc: nat): Option<int>
    decreases |email| - i
  {
    if i >= |email| then None
    else if email[i] == '_' then (if i == 0 then None else Some(acc))
    else if IsDigit(email[i]) then ScanOwner(email, i + 1, acc * 10 + DigitValue(email[i]))
    else None
  }

  /** The owner as the source reads it: `"_" in email`, then
      `email.split("_", 1)[0].isdigit()` and `int(...)`. */
  ghost function OwnerBySplit(email: string): Option<int> {
    if '_' in email && IsDigits(BeforeFirst(email, '_')) then Some(DigitsValue(BeforeFirst(email, '_')))
    else None
  }

  lemma {:induction false} ScanOwnerSpec(email: string, i: nat, acc: nat)
    requires i <= |email|
    requires forall j :: 0 <= j < i ==> IsDigit(email[j])
    requires acc == DigitsValue(email[..i])
    ensures ScanOwner(email, i, acc) == OwnerBySplit(email)
    decreases |email| - i
  {
    if i == |email| {
      assert '_' !in email by {
        forall j | 0 <= j < |email| ensures email[j] != '_' {
          assert IsDigit(email[j]);
        }
      }
    } else if email[i] == '_' {
      var k := IndexOf(email, '_');
      assert k == Some(i) by {
        assert '_' !in email[..i] by {
          forall j | 0 <= j < i ensures email[..i][j] != '_' {
            assert IsDigit(email[j]);
          }
        }
      }
      assert BeforeFirst(email, '_') == email[..i];
    } else if IsDigit(email[i]) {
      var next := email[..i + 1];
      assert next[..i] == email[..i];
      ScanOwnerSpec(email, i + 1, acc * 10 + DigitValue(email[i]));
    } else if '_' in email {
      var b := BeforeFirst(email, '_');
      var k := IndexOf(email, '_').value;
      assert forall j :: 0 <= j < i ==> email[j] != '_' by {
        forall j | 0 <= j < i ensures email[j] != '_' {
          assert IsDigit(email[j]);
        }
      }
      assert b == email[..k] && b[i] == email[i];
    }
  }

  /** `TgIdOf` is the owner read the way the source reads it. */
  lemma TgIdOfSpec(email: string)
    ensures TgIdOf(email) == OwnerBySplit(email)
    ensures TgIdOf(email).Some? ==> '_' in email && TgIdOf(email).value >= 0
  {
    assert email[..0] == [];
    ScanOwnerSpec(email, 0, 0);
  }

  /** The emails the bot creates, `f"{tg_id}_" + name`, give their owner
      back. */
  lemma OwnerEmailParses(tgId: int, name: string)
    requires tgId >= 0
    ensures TgIdOf(OwnerPrefix(tgId) + name) == Some(tgId)
  {
    var digits := NatToDecimal(tgId);
    assert OwnerPrefix(tgId) + name == digits + ['_'] + name;
    IndexOfAfter(digits, '_', name);
    assert (digits + ['_'] + name)[..|digits|] == digits;
    NatToDecimalValue(tgId);
    TgIdOfSpec(OwnerPrefix(tgId) + name);
  }

  /** Text before the first `_` that is not all digits gives no owner. */
  lemma NoDigitsNoOwner(email: string)
    requires !IsDigits(BeforeFirst(email, '_'))
    ensures TgIdOf(email) == None
  {
    TgIdOfSpec(email);
  }

  // ---------------------------------------------------------------------
  // list_all_clients and list_active_clients

  /** One element of their result: `chat_id`, `email`, and `uuid`, which
      is read from the row's `id` key, that is the client-statistics
      record's id. */
  datatype ClientRef = ClientRef(chatId: int, email: string, uuid: int)

  /** Whether a client with owner `tg` is reported: the owner must be
      present and non-zero (`if tg_id`), and, for the active list, have a
      row in the table. */
  predicate Reported(tg: Option<int>, only: Option<set<int>>) {
    tg.Some? && tg.value != 0 && (only.None? || tg.value in only.value)
  }

  function RefOf(row: ClientRow): ClientRef
    requires TgIdOf(row.Email()).Some?
  {
    ClientRef(TgIdOf(row.Email()).value, row.Email(), row.stat.id)
  }

  /** The reported clients of one server's listing, in listing order. */
  function RefsOf(rows: seq<ClientRow>, only: Option<set<int>>): seq<ClientRef>
    decreases |rows|
  {
    if rows == [] then []
    else
      var row := rows[|rows| - 1];
      RefsOf(rows[..|rows| - 1], only) + (if Reported(TgIdOf(row.Email()), only) then [RefOf(row)] else [])
  }

  /** The reported clients over the servers in configuration order; the
      first server whose listing failed makes the whole call fail. */
  function ClientsFrom(listings: seq<Result<seq<ClientRow>, Failure>>, only: Option<set<int>>)
    : Result<seq<ClientRef>, Failure>
    decreases |listings|
  {
    if listings == [] then Ok([])
    else
      var before := ClientsFrom(listings[..|listings| - 1], only);
      var last := listings[|listings| - 1];
      if before.Err? then before
      else if last.Err? then Err(last.error)
      else Ok(before.value + RefsOf(last.value, only))
  }

  /** A client is reported exactly when its email's owner is reported, and
      it is reported with that owner, its email and its record id. */
  lemma {:induction false} RefsOfSpec(rows: seq<ClientRow>, only: Option<set<int>>, x: ClientRef)
    ensures x in RefsOf(rows, only) <==>
              exists i :: 0 <= i < |rows| && Reported(TgIdOf(rows[i].Email()), only) && x == RefOf(rows[i])
    decreases |rows|
  {
    if rows != [] {
      var init := rows[..|rows| - 1];
      RefsOfSpec(init, only, x);
      if x in RefsOf(init, only) {
        var i :| 0 <= i < |init| && Reported(TgIdOf(init[i].Email()), only) && x == RefOf(init[i]);
        assert rows[i] == init[i];
      }
      if exists i :: 0 <= i < |rows| && Reported(TgIdOf(rows[i].Email()), only) && x == RefOf(rows[i]) {
        var i :| 0 <= i < |rows| && Reported(TgIdOf(rows[i].Email()), only) && x == RefOf(rows[i]);
        if i < |init| {
          assert init[i] == rows[i];
        }
      }
    }
  }

  /** The chat ids of `refs` kept by the table's keys, in order. */
  function Restrict(refs: seq<ClientRef>, ids: set<int>): (r: seq<ClientRef>)
    ensures |r| <= |refs|
    decreases |refs|
  {
    if refs == [] then []
    else
      Restrict(refs[..|refs| - 1], ids) + (if refs[|refs| - 1].chatId in ids then [refs[|refs| - 1]] else [])
  }

  lemma {:induction false} RestrictAppend(a: seq<ClientRef>, b: seq<ClientRef>, ids: set<int>)
    ensures Restrict(a + b, ids) == Restrict(a, ids) + Restrict(b, ids)
    decreases |b|
  {
    if b != [] {
      var b' := b[..|b| - 1];
      assert (a + b)[..|a + b| - 1] == a + b';
      RestrictAppend(a, b', ids);
    } else {
      assert a + b == a;
    }
  }

  lemma {:induction false} RestrictRefs(rows: seq<ClientRow>, ids: set<int>)
    ensures RefsOf(rows, Some(ids)) == Restrict(RefsOf(rows, None), ids)
    decreases |rows|
  {
    if rows != [] {
      var init := rows[..|rows| - 1];
      var row := rows[|rows| - 1];
      RestrictRefs(init, ids);
      var tail := if Reported(TgIdOf(row.Email()), None) then [RefOf(row)] else [];
      RestrictAppend(RefsOf(init, None), tail, ids);
      if tail != [] {
        assert tail[..0] == [];
      }
    }
  }

  /** `list_active_clients()` is `list_all_clients()` restricted to the
      chats that have a row in the table, in the same order. */
  lemma {:induction false} ActiveIsRestrictedAll(listings: seq<Result<seq<ClientRow>, Failure>>, ids: set<int>)
    ensures ClientsFrom(listings, Some(ids)).Err? <==> ClientsFrom(listings, None).Err?
    ensures ClientsFrom(listings, None).Ok? ==>
              ClientsFrom(listings, Some(ids)).value == Restrict(ClientsFrom(listings, None).value, ids)
    decreases |listings|
  {
    if listings != [] {
      var init := listings[..|listings| - 1];
      var last := listings[|listings| - 1];
      ActiveIsRestrictedAll(init, ids);
      if ClientsFrom(init, None).Ok? && last.Ok? {
        RestrictRefs(last.value, ids);
        RestrictAppend(ClientsFrom(init, None).value, RefsOf(last.value, None), ids);
      }
    }
  }

  /** The loop shared by `list_all_clients` (`only` is None) and
      `list_active_clients` (`only` holds the table's chat ids). */
  method CollectClients(listings: seq<Result<seq<ClientRow>, Failure>>, only: Option<set<int>>)
    returns (r: Result<seq<ClientRef>, Failure>)
    ensures r == ClientsFrom(listings, only)
  {
    var result: seq<ClientRef> := [];
    for i := 0 to |listings|
      invariant ClientsFrom(listings[..i], only) == Ok(result)
    {
      assert listings[..i + 1][..i] == listings[..i];
      if listings[i].Err? {
        assert ClientsFrom(listings[..i + 1], only) == Err(listings[i].error);
        PrefixErrStays(listings, i + 1, only);
        assert listings[..|listings|] == listings;
        return Err(listings[i].error);
      }
      assert ClientsFrom(listings[..i + 1], only) == Ok(result + RefsOf(listings[i].value, only));
      result := AppendRefs(result, listings[i].value, only);
    }
    assert listings[..|listings|] == listings;
    r := Ok(result);
  }

  /** The inner loop over one server's rows. */
  method AppendRefs(result: seq<ClientRef>, rows: seq<ClientRow>, only: Option<set<int>>)
    returns (r: seq<ClientRef>)
    ensures r == result + RefsOf(rows, only)
  {
    r := result;
    for j := 0 to |rows|
      invariant r == result + RefsOf(rows[..j], only)
    {
      assert rows[..j + 1][..j] == rows[..j];
      var tg := TgIdOf(rows[j].Email());
      if tg.Some? && tg.value != 0 && (only.None? || tg.value in only.value) {
        r := r + [ClientRef(tg.value, rows[j].Email(), rows[j].stat.id)];
      }
    }
    assert rows[..|rows|] == rows;
  }

  /** Once a prefix of the listings fails, every longer prefix fails the
      same way. */
  lemma {:induction false} PrefixErrStays(listings: seq<Result<seq<ClientRow>, Failure>>, i: nat,
                                          only: Option<set<int>>)
    requires i <= |listings|
    requires ClientsFrom(listings[..i], only).Err?
    ensures ClientsFrom(listings, only) == ClientsFrom(listings[..i], only)
    decreases |listings| - i
  {
    if i < |listings| {
      assert listings[..i + 1][..i] == listings[..i];
      PrefixErrStays(listings, i + 1, only);
    } else {
      assert listings[..i] == listings;
    }
  }

  /** `list_all_clients()` */
  method ListAllClients(listings: seq<Result<seq<ClientRow>, Failure>>) returns (r: Result<seq<ClientRef>, Failure>)
    ensures r == ClientsFrom(listings, None)
  {
    r := CollectClients(listings, None);
  }

  // ---------------------------------------------------------------------
  // sync_reminders

  /** The owners named by a client list's emails, as `sync_reminders`
      reads them (zero included). */
  function OwnerIds(stats: seq<Stat>): set<int>
    decreases |stats|
  {
    if stats == [] then {}
    else
      var tg := TgIdOf(stats[|stats| - 1].email);
      OwnerIds(stats[..|stats| - 1]) + (if tg.Some? then {tg.value} else {})
  }

  lemma {:induction false} OwnerIdsSpec(stats: seq<Stat>, k: int)
    ensures k in OwnerIds(stats) <==> exists i :: 0 <= i < |stats| && TgIdOf(stats[i].email) == Some(k)
    decreases |stats|
  {
    if stats != [] {
      var init := stats[..|stats| - 1];
      OwnerIdsSpec(init, k);
      if exists i :: 0 <= i < |init| && TgIdOf(init[i].email) == Some(k) {
        var i :| 0 <= i < |init| && TgIdOf(init[i].email) == Some(k);
        assert stats[i] == init[i];
      }
      if exists i :: 0 <= i < |stats| && TgIdOf(stats[i].email) == Some(k) {
        var i :| 0 <= i < |stats| && TgIdOf(stats[i].email) == Some(k);
        if i < |init| {
          assert init[i] == stats[i];
        }
      }
    }
  }

  /** `t'` is `t` with rows added, and every added row carries the
      defaults. */
  predicate AddsFresh(t: Table, t': Table) {
    && (forall k :: k in t ==> k in t' && t'[k] == t[k])
    && (forall k :: k in t' && k !in t ==> t'[k] == Fresh)
  }

  lemma AddsFreshTrans(a: Table, b: Table, c: Table)
    requires AddsFresh(a, b) && AddsFresh(b, c)
    ensures AddsFresh(a, c)
  {
    forall k | k in c && k !in a
      ensures c[k] == Fresh
    {
      if k in b {
        assert c[k] == b[k];
      }
    }
  }

  /** One client of the loop in `sync_reminders(server_cfg)`: a row with
      the defaults is added, and counted, for an owner without one. */
  function SyncOne(t: Table, email: string): (Table, nat) {
    var tg := TgIdOf(email);
    if tg.None? || tg.value in t then (t, 0)
    else (t[tg.value := Fresh], 1)
  }

  /** One client gives its owner a row, adds at most that row, and counts
      what it adds. */
  lemma SyncOneSpec(t: Table, email: string)
    ensures var out := SyncOne(t, email);
            && out.0.Keys == t.Keys + (if TgIdOf(email).Some? then {TgIdOf(email).value} else {})
            && AddsFresh(t, out.0)
            && (out.1 == 0 ==> out.0 == t)
            && (out.1 != 0 ==> out.1 == 1 && TgIdOf(email).Some? && TgIdOf(email).value !in t)
  {
  }

  /**
   * One server's `sync_reminders(server_cfg)` over its client list: the
   * new table and the count returned. Every owner gets a row, existing
   * rows are untouched, new rows carry the defaults, and the count is
   * the number of rows added.
   */
  function Synced(t: Table, stats: seq<Stat>): (out: (Table, nat))
    decreases |stats|
  {
    if stats == [] then (t, 0)
    else
      var first := Synced(t, stats[..|stats| - 1]);
      var next := SyncOne(first.0, stats[|stats| - 1].email);
      (next.0, first.1 + next.1)
  }

  /** After `sync_reminders(server_cfg)` every owner named in the list has
      a row, and no other row was added. */
  lemma {:induction false} SyncedKeys(t: Table, stats: seq<Stat>)
    ensures Synced(t, stats).0.Keys == t.Keys + OwnerIds(stats)
    decreases |stats|
  {
    if stats != [] {
      var first := Synced(t, stats[..|stats| - 1]);
      SyncedKeys(t, stats[..|stats| - 1]);
      SyncOneSpec(first.0, stats[|stats| - 1].email);
    }
  }

  /** `sync_reminders(server_cfg)` leaves existing rows alone and gives
      every row it adds the defaults. */
  lemma {:induction false} SyncedAddsFresh(t: Table, stats: seq<Stat>)
    ensures AddsFresh(t, Synced(t, stats).0)
    decreases |stats|
  {
    if stats != [] {
      var first := Synced(t, stats[..|stats| - 1]);
      var next := SyncOne(first.0, stats[|stats| - 1].email);
      SyncedAddsFresh(t, stats[..|stats| - 1]);
      SyncOneSpec(first.0, stats[|stats| - 1].email);
      AddsFreshTrans(t, first.0, next.0);
    }
  }

  /** The count `sync_reminders(server_cfg)` returns is the number of rows
      it added. */
  lemma {:induction false} SyncedCount(t: Table, stats: seq<Stat>)
    ensures Synced(t, stats).1 == |Synced(t, stats).0.Keys - t.Keys|
    decreases |stats|
  {
    if stats == [] {
      assert t.Keys - t.Keys == {};
    } else {
      var init := stats[..|stats| - 1];
      var email := stats[|stats| - 1].email;
      var first := Synced(t, init);
      var next := SyncOne(first.0, email);
      assert Synced(t, stats) == (next.0, first.1 + next.1);
      SyncedCount(t, init);
      SyncedKeys(t, init);
      SyncOneSpec(first.0, email);
      if next.1 != 0 {
        var id := TgIdOf(email).value;
        assert next.0.Keys == first.0.Keys + {id};
        AddedOne(t.Keys, first.0.Keys, id);
      }
    }
  }

  /** Owners that all have rows already change nothing. */
  lemma {:induction false} SyncedKnown(t: Table, stats: seq<Stat>)
    requires OwnerIds(stats) <= t.Keys
    ensures Synced(t, stats) == (t, 0)
    decreases |stats|
  {
    if stats != [] {
      SyncedKnown(t, stats[..|stats| - 1]);
    }
  }

  /** Running the synchronisation twice adds nothing the second time. */
  lemma SyncedIdempotent(t: Table, stats: seq<Stat>)
    ensures Synced(Synced(t, stats).0, stats) == (Synced(t, stats).0, 0)
  {
    SyncedKeys(t, stats);
    SyncedKnown(Synced(t, stats).0, stats);
  }

  /** A table that grows from `a` to `b` to `c` gained as many rows in all
      as in its two steps together. */
  lemma GrowthAdds(a: set<int>, b: set<int>, c: set<int>)
    requires a <= b <= c
    ensures |c - a| == |b - a| + |c - b|
  {
    assert c - a == (b - a) + (c - b);
    assert (b - a) * (c - b) == {};
  }

  /** Adding one new key to a table grows the count of added keys by one. */
  lemma AddedOne(a: set<int>, b: set<int>, id: int)
    requires id !in b
    ensures |(b + {id}) - a| == |b - a| + (if id in a then 0 else 1)
  {
    if id !in a {
      assert (b + {id}) - a == (b - a) + {id};
    } else {
      assert (b + {id}) - a == b - a;
    }
  }

  /**
   * `sync_reminders()` over every configured server, each given as the
   * outcome of its login and client listing: the total and the table. A
   * failing server raises, after the earlier servers' rows were committed.
   */
  function SyncAll(t: Table, servers: seq<Result<seq<Stat>, Failure>>): (out: (Result<nat, Failure>, Table))
    ensures out.0.Err? ==> exists i :: 0 <= i < |servers| && servers[i].Err? && servers[i].error == out.0.error
    decreases |servers|
  {
    if servers == [] then (Ok(0), t)
    else SyncNext(SyncAll(t, servers[..|servers| - 1]), servers[|servers| - 1])
  }

  /** One server more: nothing once a server has failed, the failure of
      this one, or its rows added to the table and its count to the total. */
  function SyncNext(first: (Result<nat, Failure>, Table), last: Result<seq<Stat>, Failure>): (out: (Result<nat, Failure>, Table))
    ensures first.0.Err? ==> out == first
    ensures first.0.Ok? && last.Err? ==> out == (Err(last.error), first.1)
  {
    if first.0.Err? then first
    else if last.Err? then (Err(last.error), first.1)
    else
      var next := Synced(first.1, last.value);
      (Ok(first.0.value + next.1), next.0)
  }

  /** Over all servers, existing rows are left alone and added rows carry
      the defaults. */
  lemma {:induction false} SyncAllAddsFresh(t: Table, servers: seq<Result<seq<Stat>, Failure>>)
    ensures AddsFresh(t, SyncAll(t, servers).1)
    decreases |servers|
  {
    if servers != [] {
      var first := SyncAll(t, servers[..|servers| - 1]);
      var last := servers[|servers| - 1];
      SyncAllAddsFresh(t, servers[..|servers| - 1]);
      if first.0.Ok? && last.Ok? {
        SyncedAddsFresh(first.1, last.value);
        AddsFreshTrans(t, first.1, Synced(first.1, last.value).0);
      }
    }
  }

  lemma CountStep(t: Table, t1: Table, t2: Table, n1: nat, n2: nat)
    requires AddsFresh(t, t1) && t1.Keys <= t2.Keys
    requires n1 == |t1.Keys - t.Keys| && n2 == |t2.Keys - t1.Keys|
    ensures n1 + n2 == |t2.Keys - t.Keys|
  {
    assert t.Keys <= t1.Keys by {
      forall k | k in t.Keys ensures k in t1.Keys {
        assert k in t;
      }
    }
    GrowthAdds(t.Keys, t1.Keys, t2.Keys);
  }

  /** The total is the number of rows added over all servers: a chat
      whose client sits on several servers is counted once. */
  lemma {:induction false} SyncAllCount(t: Table, servers: seq<Result<seq<Stat>, Failure>>)
    ensures SyncAll(t, servers).0.Ok? ==> SyncAll(t, servers).0.value == |SyncAll(t, servers).1.Keys - t.Keys|
    decreases |servers|
  {
    if servers == [] {
      assert t.Keys - t.Keys == {};
    } else {
      var init := servers[..|servers| - 1];
      var last := servers[|servers| - 1];
      if SyncAll(t, init).0.Ok? && last.Ok? {
        var first := SyncAll(t, init);
        SyncAllCount(t, init);
        SyncAllAddsFresh(t, init);
        assert SyncAll(t, servers) == SyncNext(first, last);
        SyncedCount(first.1, last.value);
        SyncedKeys(first.1, last.value);
        var next := Synced(first.1, last.value);
        CountStep(t, first.1, next.0, first.0.value, next.1);
      }
    }
  }

  /** The reminder settings held by the database. */
  class ReminderStore {
    var table: Table

    constructor ()
      ensures table == map[]
    {
      table := map[];
    }

    /** `mark_asked(chat_id)` */
    method MarkAsked(chatId: int)
      modifies this
      ensures table == MarkedAsked(old(table), chatId)
    {
      var obj := Record(table, chatId);
      obj := obj.(asked := true);
      table := table[chatId := obj];
    }

    /** `toggle_enabled(chat_id)` */
    method ToggleEnabled(chatId: int) returns (enabled: bool)
      modifies this
      ensures (table, enabled) == Toggled(old(table), chatId)
    {
      var obj := Record(table, chatId);
      obj := obj.(enabled := !obj.enabled);
      obj := obj.(asked := true);
      table := table[chatId := obj];
      enabled := obj.enabled;
    }

    /** `save_last_msg_id(chat_id, msg_id)` */
    method SaveLastMsgId(chatId: int, msgId: int)
      modifies this
      ensures table == WithLastMsgId(old(table), chatId, msgId)
    {
      var obj := Record(table, chatId);
      obj := obj.(lastMsgId := Some(msgId));
      table := table[chatId := obj];
    }

    /** `list_enabled_chat_ids()` */
    function ListEnabledChatIds(): (ids: set<int>)
      reads this
      ensures forall k :: k in ids <==> k in table && table[k].enabled
    {
      EnabledChatIds(table)
    }

    /** `list_all_chat_ids()`: every chat with a row, enabled or not. */
    function ListAllChatIds(): (ids: set<int>)
      reads this
      ensures forall k :: k in ids <==> k in table
      ensures ListEnabledChatIds() <= ids
    {
      table.Keys
    }

    /** `list_active_clients()` */
    method ListActiveClients(listings: seq<Result<seq<ClientRow>, Failure>>)
      returns (r: Result<seq<ClientRef>, Failure>)
      ensures r == ClientsFrom(listings, Some(ListAllChatIds()))
    {
      var chatIds := ListAllChatIds();
      r := CollectClients(listings, Some(chatIds));
    }

    /** `sync_reminders(server_cfg)` for one server's client list. */
    method SyncServer(stats: seq<Stat>) returns (count: nat)
      modifies this
      ensures (table, count) == Synced(old(table), stats)
    {
      ghost var t0 := table;
      count := 0;
      for i := 0 to |stats|
        invariant table == Synced(t0, stats[..i]).0
        invariant count == Synced(t0, stats[..i]).1
      {
        assert stats[..i + 1][..i] == stats[..i];
        ghost var next := SyncOne(table, stats[i].email);
        assert Synced(t0, stats[..i + 1]) == (next.0, count + next.1);
        var tg := TgIdOf(stats[i].email);
        if tg.Some? && tg.value !in table {
          table := table[tg.value := Fresh];
          count := count + 1;
        }
      }
      assert stats[..|stats|] == stats;
    }

    /** `sync_reminders()` with no server: every configured server in turn. */
    method SyncReminders(servers: seq<Result<seq<Stat>, Failure>>) returns (r: Result<nat, Failure>)
      modifies this
      ensures (r, table) == SyncAll(old(table), servers)
    {
      ghost var t0 := table;
      var total := 0;
      for i := 0 to |servers|
        invariant SyncAll(t0, servers[..i]) == (Ok(total), table)
      {
        assert servers[..i + 1][..i] == servers[..i];
        ghost var before := table;
        assert SyncAll(t0, servers[..i + 1]) == SyncNext((Ok(total), before), servers[i]);
        if servers[i].Err? {
          SyncErrStays(t0, servers, i + 1);
          assert servers[..|servers|] == servers;
          return Err(servers[i].error);
        }
        var n := SyncServer(servers[i].value);
        assert (table, n) == Synced(before, servers[i].value);
        total := total + n;
      }
      assert servers[..|servers|] == servers;
      r := Ok(total);
    }
  }

  /** Once a server fails, later servers are not synchronised. */
  lemma {:induction false} SyncErrStays(t: Table, servers: seq<Result<seq<Stat>, Failure>>, i: nat)
    requires i <= |servers|
    requires SyncAll(t, servers[..i]).0.Err?
    ensures SyncAll(t, servers) == SyncAll(t, servers[..i])
    decreases |servers| - i
  {
    if i < |servers| {
      assert servers[..i + 1][..i] == servers[..i];
      SyncErrStays(t, servers, i + 1);
    } else {
      assert servers[..i] == servers;
    }
  }
}
