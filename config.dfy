/**
 * Reading the bot's settings (config.py): the `ADMIN_IDS` validator, the
 * admin check, and the per-server configuration table built from the
 * `SERVERS` list.
 *
 * The environment is a parameter: the text of `SERVERS` and, per server
 * id, the outcome of validating that id's `<sid>_` prefixed settings.
 */
module Config {
  import opened Wrappers
  import opened Text
  import opened PanelData

  // ---------------------------------------------------------------------
  // ADMIN_IDS

  /** An element of a list value: `str(i)` is applied to it. */
  datatype Item = IntItem(n: int) | StrItem(s: string)

  function Str(i: Item): string {
    match i
    case IntItem(n) => IntToDecimal(n)
    case StrItem(s) => s
  }

  /** The raw value handed to the `ADMIN_IDS` validator. */
  datatype AdminIdsValue =
    | SetValue(ids: set<string>)
    | ListValue(items: seq<Item>)
    | StrValue(text: string)
    | IntValue(n: int)
    | OtherValue

  /** `i.strip().lstrip("@").lower()`: an entry in canonical form. */
  function NormalId(item: string): (id: string)
    ensures !HasUpper(id)
    ensures id == [] || id[0] != '@'
  {
    var bare := LStripChar(Strip(item), '@');
    LowerHasNoUpper(bare);
    Lower(bare)
  }

  /** The canonical forms of the entries that are not blank. */
  function NormalIds(texts: seq<string>): (ids: set<string>)
    ensures forall x :: x in ids ==> !HasUpper(x) && (x == [] || x[0] != '@')
  {
    set i | 0 <= i < |texts| && Strip(texts[i]) != [] :: NormalId(texts[i])
  }

  /** `str(i)` of every element, in order. */
  function Strs(items: seq<Item>): (texts: seq<string>)
    ensures |texts| == |items| && forall i :: 0 <= i < |items| ==> texts[i] == Str(items[i])
  {
    if items == [] then [] else [Str(items[0])] + Strs(items[1..])
  }

  /** `parse_admin_ids(v)`: a set is taken as it is, an int becomes its
      decimal text, a list or a comma-separated text gives the canonical
      forms of its non-blank entries, and anything else gives no admin. */
  function ParseAdminIds(v: AdminIdsValue): (ids: set<string>)
    ensures v.SetValue? ==> ids == v.ids
    ensures v.IntValue? ==> ids == {IntToDecimal(v.n)}
    ensures v.OtherValue? ==> ids == {}
    ensures v.StrValue? || v.ListValue? ==> forall x :: x in ids ==> !HasUpper(x) && (x == [] || x[0] != '@')
  {
    match v
    case SetValue(ids) => ids
    case ListValue(items) => NormalIds(Strs(items))
    case StrValue(text) => NormalIds(SplitOn(text, ','))
    case IntValue(n) => {IntToDecimal(n)}
    case OtherValue => {}
  }

  /** From a text, exactly the canonical forms of its non-blank
      comma-separated entries are admins. */
  lemma ParseAdminIdsText(text: string, x: string)
    ensures x in ParseAdminIds(StrValue(text)) <==>
              exists p :: p in SplitOn(text, ',') && Strip(p) != [] && x == NormalId(p)
  {
    var parts := SplitOn(text, ',');
    if exists p :: p in parts && Strip(p) != [] && x == NormalId(p) {
      var p :| p in parts && Strip(p) != [] && x == NormalId(p);
      var i :| 0 <= i < |parts| && parts[i] == p;
    }
  }

  /** From a list, exactly the canonical forms of `str()` of its non-blank
      elements are admins. */
  lemma ParseAdminIdsList(items: seq<Item>, x: string)
    ensures x in ParseAdminIds(ListValue(items)) <==>
              exists i :: 0 <= i < |items| && Strip(Str(items[i])) != [] && x == NormalId(Str(items[i]))
  {
    var texts := Strs(items);
    if x in NormalIds(texts) {
      var i :| 0 <= i < |texts| && Strip(texts[i]) != [] && x == NormalId(texts[i]);
      assert texts[i] == Str(items[i]);
    }
    if exists i :: 0 <= i < |items| && Strip(Str(items[i])) != [] && x == NormalId(Str(items[i])) {
      var i :| 0 <= i < |items| && Strip(Str(items[i])) != [] && x == NormalId(Str(items[i]));
      var t := texts[i];
      assert t == Str(items[i]);
      assert 0 <= i < |texts| && Strip(texts[i]) != [];
    }
  }

  /** A comma-separated text and the list of its entries configure the same
      admins. */
  lemma ListAndTextAgree(entries: seq<string>, items: seq<Item>)
    requires |entries| >= 1
    requires forall i :: 0 <= i < |entries| ==> ',' !in entries[i]
    requires |items| == |entries| && forall i :: 0 <= i < |items| ==> items[i] == StrItem(entries[i])
    ensures ParseAdminIds(StrValue(Join(entries, ','))) == ParseAdminIds(ListValue(items))
  {
    SplitJoin(entries, ',');
    assert Strs(items) == entries;
  }

  /** `is_admin(user)`: the user's id, or its non-empty username in lower
      case, is listed. The username is not stripped of `@`. */
  predicate IsAdmin(userId: int, username: Option<string>, adminIds: set<string>) {
    IntToDecimal(userId) in adminIds || (username.Some? && username.value != [] && Lower(username.value) in adminIds)
  }

  /** A one-entry `ADMIN_IDS` text holding a user's id makes that user an
      admin. */
  lemma AdminById(userId: int, username: Option<string>)
    ensures IsAdmin(userId, username, ParseAdminIds(StrValue(IntToDecimal(userId))))
  {
    var s := IntToDecimal(userId);
    assert SplitOn(s, ',') == [s];
    StripTrimmed(s);
    assert LStripChar(s, '@') == s;
    assert !HasUpper(s);
    LowerWithoutUpper(s);
    assert s in SplitOn(s, ',') && Strip(s) != [] && s == NormalId(s);
    ParseAdminIdsText(s, s);
  }

  /** A one-entry `ADMIN_IDS` text `@Name` makes every user whose username
      matches `Name` up to case an admin. */
  lemma AdminByUsername(userId: int, name: string, username: string)
    requires |name| > 0 && name[0] != '@' && !IsSpace(name[|name| - 1])
    requires ',' !in name
    requires username != [] && Lower(username) == Lower(name)
    ensures IsAdmin(userId, Some(username), ParseAdminIds(StrValue("@" + name)))
  {
    var s := "@" + name;
    assert SplitOn(s, ',') == [s] by {
      assert ',' !in s;
    }
    StripTrimmed(s);
    assert LStripChar(s, '@') == name by {
      assert s[1..] == name;
    }
    assert s in SplitOn(s, ',') && Strip(s) != [] && Lower(name) == NormalId(s);
    ParseAdminIdsText(s, Lower(name));
  }

  // ---------------------------------------------------------------------
  // build_all_servers

  /** The ids kept from the comma-separated parts: stripped, blanks
      dropped, order kept. */
  function Kept(parts: seq<string>): (ids: seq<string>)
    ensures |ids| <= |parts|
    decreases |parts|
  {
    if parts == [] then []
    else (if Strip(parts[0]) != [] then [Strip(parts[0])] else []) + Kept(parts[1..])
  }

  /** The server ids of `SERVERS` (`""` when unset). */
  function ServerIds(env: string): seq<string> {
    Kept(SplitOn(env, ','))
  }

  /** A stripped, non-blank part is left alone by a second `strip()`. */
  lemma StripStripped(p: string)
    requires Strip(p) != []
    ensures Strip(Strip(p)) == Strip(p)
  {
    var l := StripLeft(p);
    var r := StripRight(l);
    assert r[0] == l[0];
    StripTrimmed(r);
  }

  /** A character of `strip()`'s result is one of the input's. */
  lemma StripInside(p: string, c: char)
    requires c in Strip(p)
    ensures c in p
  {
    var l := StripLeft(p);
    var r := StripRight(l);
    var i :| 0 <= i < |r| && r[i] == c;
    assert l[i] == c;
    assert p[|p| - |l| + i] == c;
  }

  /** Each id is an entry of the list: stripped, not blank, no comma; and
      every such entry is kept. */
  lemma {:induction false} KeptSpec(parts: seq<string>, x: string)
    requires forall i :: 0 <= i < |parts| ==> ',' !in parts[i]
    ensures x in Kept(parts) <==> exists p :: p in parts && Strip(p) != [] && x == Strip(p)
    ensures x in Kept(parts) ==> x != [] && ',' !in x && Strip(x) == x
    decreases |parts|
  {
    if parts != [] {
      KeptSpec(parts[1..], x);
      if x == Strip(parts[0]) && x != [] {
        StripStripped(parts[0]);
        if ',' in x {
          StripInside(parts[0], ',');
        }
      }
      if exists p :: p in parts && Strip(p) != [] && x == Strip(p) {
        var p :| p in parts && Strip(p) != [] && x == Strip(p);
        if p != parts[0] {
          assert p in parts[1..];
        }
      }
    }
  }

  /** Ids that are already stripped and non-blank survive being joined
      with commas and read back. */
  lemma {:induction false} ServerIdsRoundTrip(ids: seq<string>)
    requires |ids| >= 1
    requires forall i :: 0 <= i < |ids| ==> ids[i] != [] && ',' !in ids[i] && Strip(ids[i]) == ids[i]
    ensures ServerIds(Join(ids, ',')) == ids
  {
    SplitJoin(ids, ',');
    KeptAll(ids);
  }

  lemma {:induction false} KeptAll(ids: seq<string>)
    requires forall i :: 0 <= i < |ids| ==> ids[i] != [] && Strip(ids[i]) == ids[i]
    ensures Kept(ids) == ids
    decreases |ids|
  {
    if ids != [] {
      KeptAll(ids[1..]);
    }
  }

  /** Why the configuration cannot be built. */
  datatype ConfigError =
    | NoServerIds              // `SERVERS` names no server
    | InvalidServer(sid: string)  // that server's settings do not validate

  /**
   * The configuration table for `ids`, given each id's validated settings
   * (None when validation raises). By `ConfigsSpec`, the table has exactly
   * the listed ids, each with its own settings; otherwise the first id, in
   * list order, whose settings do not validate is reported.
   */
  function Configs(ids: seq<string>, load: string -> Option<ServerConfig>)
    : Result<map<string, ServerConfig>, ConfigError>
    decreases |ids|
  {
    if ids == [] then Ok(map[])
    else
      var before := Configs(ids[..|ids| - 1], load);
      var sid := ids[|ids| - 1];
      if before.Err? then before
      else if load(sid).None? then Err(InvalidServer(sid))
      else Ok(before.value[sid := load(sid).value])
  }

  lemma {:induction false} ConfigsSpec(ids: seq<string>, load: string -> Option<ServerConfig>)
    ensures var r := Configs(ids, load);
            && (r.Ok? ==> (forall s :: s in r.value <==> s in ids) && forall s :: s in r.value ==> load(s) == Some(r.value[s]))
            && (r.Err? ==> exists i :: 0 <= i < |ids| && r.error == InvalidServer(ids[i]) && load(ids[i]).None?
                                       && forall j :: 0 <= j < i ==> load(ids[j]).Some?)
    decreases |ids|
  {
    if ids != [] {
      var init := ids[..|ids| - 1];
      var sid := ids[|ids| - 1];
      ConfigsSpec(init, load);
      var before := Configs(init, load);
      if before.Err? {
        var i :| 0 <= i < |init| && before.error == InvalidServer(init[i]) && load(init[i]).None?
                 && forall j :: 0 <= j < i ==> load(init[j]).Some?;
        assert ids[i] == init[i];
        assert forall j :: 0 <= j < i ==> ids[j] == init[j];
      } else if load(sid).None? {
        assert forall j :: 0 <= j < |ids| - 1 ==> ids[j] in init;
      } else {
        assert forall s :: s in ids <==> s in init || s == sid;
      }
    }
  }

  /** Once a prefix of the ids fails, the whole list fails the same way. */
  lemma {:induction false} ConfigsErrStays(ids: seq<string>, i: nat, load: string -> Option<ServerConfig>)
    requires i <= |ids|
    requires Configs(ids[..i], load).Err?
    ensures Configs(ids, load) == Configs(ids[..i], load)
    decreases |ids| - i
  {
    if i < |ids| {
      assert ids[..i + 1][..i] == ids[..i];
      ConfigsErrStays(ids, i + 1, load);
    } else {
      assert ids[..i] == ids;
    }
  }

  /** `build_all_servers()` */
  method BuildAllServers(env: string, load: string -> Option<ServerConfig>)
    returns (r: Result<map<string, ServerConfig>, ConfigError>)
    ensures ServerIds(env) == [] ==> r == Err(NoServerIds)
    ensures ServerIds(env) != [] ==> r == Configs(ServerIds(env), load)
  {
    var ids := ServerIds(env);
    if ids == [] {
      return Err(NoServerIds);
    }
    r := FillConfigs(ids, load);
  }

  /** The loop of `build_all_servers` over the ids. */
  method FillConfigs(ids: seq<string>, load: string -> Option<ServerConfig>)
    returns (r: Result<map<string, ServerConfig>, ConfigError>)
    ensures r == Configs(ids, load)
  {
    var configs := map[];
    for i := 0 to |ids|
      invariant Configs(ids[..i], load) == Ok(configs)
    {
      assert ids[..i + 1][..i] == ids[..i];
      var cfg := load(ids[i]);
      if cfg.None? {
        ConfigsErrStays(ids, i + 1, load);
        return Err(InvalidServer(ids[i]));
      }
      configs := configs[ids[i] := cfg.value];
    }
    assert ids[..|ids|] == ids;
    r := Ok(configs);
  }
}
