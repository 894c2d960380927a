/**
 * The decision pieces of the admin handlers (admin.py): the paginated
 * delete list and its keyboard, the callbacks it sends back, the lookup of
 * the client a delete callback names, the add-client name check, and the
 * "last seen" wording.
 *
 * Panel listings reach the model as parameters (rows of
 * `server_manager.list_clients`); messages and the FSM storage are left
 * out.
 */
module Admin {
  import opened Wrappers
  import opened Text
  import opened ServerManager

  // ---------------------------------------------------------------------
  // Pagination of the delete list

  /** Cards per page. */
  const PageSize: nat := 5

  /** `ClientCard` */
  datatype Card = Card(uuid: string, email: string, inboundId: int, page: nat)

  /** The cards of a listing, in listing order: the card at index `idx`
      goes to page `idx // 5`. */
  function CardsOf(rows: seq<ClientRow>): (cards: seq<Card>)
    ensures |cards| == |rows|
    ensures forall i :: 0 <= i < |rows| ==> cards[i] == Card(rows[i].uuid, rows[i].Email(), rows[i].inboundId, i / PageSize)
  {
    seq(|rows|, i requires 0 <= i < |rows| => Card(rows[i].uuid, rows[i].Email(), rows[i].inboundId, i / PageSize))
  }

  /** The cards are numbered as `CardsOf` numbers them. */
  predicate Paged(cards: seq<Card>) {
    forall i :: 0 <= i < |cards| ==> cards[i].page == i / PageSize
  }

  /** `pages.setdefault(card.page, []).append(card)` over the cards. */
  function Group(cards: seq<Card>): map<nat, seq<Card>>
    decreases |cards|
  {
    if cards == [] then map[]
    else
      var m := Group(cards[..|cards| - 1]);
      var c := cards[|cards| - 1];
      m[c.page := (if c.page in m then m[c.page] else []) + [c]]
  }

  /** The grouping loop of `admin_del_start` (and of the two refreshes in
      `cb_del_client`). */
  method Paginate(cards: seq<Card>) returns (pages: map<nat, seq<Card>>)
    ensures pages == Group(cards)
  {
    pages := map[];
    for i := 0 to |cards|
      invariant pages == Group(cards[..i])
    {
      assert cards[..i + 1][..i] == cards[..i];
      var card := cards[i];
      var bucket := if card.page in pages then pages[card.page] else [];
      pages := pages[card.page := bucket + [card]];
    }
    assert cards[..|cards|] == cards;
  }

  function Min(a: int, b: int): int { if a <= b then a else b }

  /** `len(pages)` for `n` cards. */
  function PageCount(n: nat): nat { (n + PageSize - 1) / PageSize }

  /** `m` holds the pages of `cards`: pages `0 .. ceil(n/5) - 1`, page
      `k` holding the cards `5k .. 5k+4` (fewer on the last page). */
  ghost predicate PagesOf(m: map<nat, seq<Card>>, cards: seq<Card>) {
    && (forall k: nat :: k in m <==> k < PageCount(|cards|))
    && (forall k: nat :: k in m ==> m[k] == cards[PageSize * k .. Min(PageSize * k + PageSize, |cards|)])
  }

  /** Grouping numbered cards gives the pages of five cards each. */
  lemma {:induction false} GroupPaged(cards: seq<Card>)
    requires Paged(cards)
    ensures PagesOf(Group(cards), cards)
    decreases |cards|
  {
    if cards != [] {
      var init := cards[..|cards| - 1];
      assert Paged(init);
      GroupPaged(init);
      if (|cards| - 1) % PageSize == 0 {
        OpenPageStep(Group(init), cards);
      } else {
        SamePageStep(Group(init), cards);
      }
    }
  }

  /** The pages before the last card's page are not touched by it. */
  lemma EarlierPagesStay(m: map<nat, seq<Card>>, cards: seq<Card>)
    requires cards != [] && PagesOf(m, cards[..|cards| - 1])
    ensures forall k: nat :: k in m && k < (|cards| - 1) / PageSize ==>
              m[k] == cards[PageSize * k .. Min(PageSize * k + PageSize, |cards|)]
  {
  }

  /** A card at an index divisible by five opens a new page. */
  lemma OpenPageStep(m: map<nat, seq<Card>>, cards: seq<Card>)
    requires cards != [] && Paged(cards) && PagesOf(m, cards[..|cards| - 1])
    requires (|cards| - 1) % PageSize == 0
    ensures var c := cards[|cards| - 1]; PagesOf(m[c.page := (if c.page in m then m[c.page] else []) + [c]], cards)
  {
    var n := |cards|;
    var p := (n - 1) / PageSize;
    assert PageSize * p == n - 1;
    assert PageCount(n - 1) == p && PageCount(n) == p + 1;
    assert p !in m;
    EarlierPagesStay(m, cards);
    assert cards[PageSize * p .. Min(PageSize * p + PageSize, n)] == [cards[n - 1]];
  }

  /** Any other card joins the page of the card before it. */
  lemma SamePageStep(m: map<nat, seq<Card>>, cards: seq<Card>)
    requires cards != [] && Paged(cards) && PagesOf(m, cards[..|cards| - 1])
    requires (|cards| - 1) % PageSize != 0
    ensures var c := cards[|cards| - 1]; PagesOf(m[c.page := (if c.page in m then m[c.page] else []) + [c]], cards)
  {
    var n := |cards|;
    var p := (n - 1) / PageSize;
    InsidePage(n, p);
    var c := cards[n - 1];
    assert c.page == p;
    assert p in m;
    var m' := m[p := m[p] + [c]];
    EarlierPagesStay(m, cards);
    assert m'[p] == cards[PageSize * p .. n] by {
      assert m[p] == cards[PageSize * p .. n - 1];
      assert cards[PageSize * p .. n] == cards[PageSize * p .. n - 1] + [cards[n - 1]];
    }
    assert forall k: nat :: k in m' ==> m'[k] == cards[PageSize * k .. Min(PageSize * k + PageSize, n)];
  }

  /** Index `n - 1`, not a multiple of five, lies strictly inside page `p`. */
  lemma InsidePage(n: nat, p: nat)
    requires n >= 1 && p == (n - 1) / PageSize && (n - 1) % PageSize != 0
    ensures PageSize * p < n - 1 < PageSize * p + PageSize
    ensures PageCount(n - 1) == p + 1 && PageCount(n) == p + 1
    ensures Min(PageSize * p + PageSize, n) == n
  {
  }

  /** The pages `0 .. t-1`, concatenated in order. */
  function Concat(pages: map<nat, seq<Card>>, t: nat): seq<Card>
    requires forall k: nat :: k < t ==> k in pages
  {
    if t == 0 then [] else Concat(pages, t - 1) + pages[t - 1]
  }

  /** Reading the pages in order gives back the cards in listing order. */
  lemma PagesConcat(cards: seq<Card>)
    requires Paged(cards)
    ensures forall k: nat :: k < PageCount(|cards|) ==> k in Group(cards)
    ensures Concat(Group(cards), PageCount(|cards|)) == cards
  {
    GroupPaged(cards);
    PagesConcatUpTo(Group(cards), cards, PageCount(|cards|));
    assert Min(PageSize * PageCount(|cards|), |cards|) == |cards|;
  }

  lemma {:induction false} PagesConcatUpTo(m: map<nat, seq<Card>>, cards: seq<Card>, t: nat)
    requires PagesOf(m, cards) && t <= PageCount(|cards|)
    ensures Concat(m, t) == cards[..Min(PageSize * t, |cards|)]
  {
    if t > 0 {
      PagesConcatUpTo(m, cards, t - 1);
      assert PageSize * (t - 1) < |cards|;
      assert cards[..Min(PageSize * t, |cards|)] ==
             cards[..PageSize * (t - 1)] + cards[PageSize * (t - 1) .. Min(PageSize * t, |cards|)];
    }
  }

  /** A card found on page `k` of numbered cards is numbered `k`. */
  lemma OnItsPage(cards: seq<Card>, k: nat, c: Card)
    requires Paged(cards) && PageSize * k <= |cards|
    requires c in cards[PageSize * k .. Min(PageSize * k + PageSize, |cards|)]
    ensures c.page == k
  {
    var s := cards[PageSize * k .. Min(PageSize * k + PageSize, |cards|)];
    var j :| 0 <= j < |s| && s[j] == c;
    assert c == cards[PageSize * k + j];
  }

  /** The page shown after a delete: the same page, or the last one when
      it is gone; 0 when no page is left. */
  function NewPage(page: nat, total: nat): (p: nat)
    ensures total > 0 ==> p < total
    ensures page < total ==> p == page
    ensures total == 0 ==> p == 0
  {
    if total > 0 then Min(page, total - 1) else 0
  }

  // ---------------------------------------------------------------------
  // The delete keyboard and its callbacks

  datatype Button = Button(text: string, callback: string)

  /** `back_button("admin_back")` */
  const BackButton: Button := Button("⬅️ Назад", "admin_back")

  function DelCallback(uuid: string): string { "del_" + uuid }
  function PrevCallback(page: int): string { "prev_del:" + IntToDecimal(page) }
  function NextCallback(page: int): string { "next_del:" + IntToDecimal(page) }

  /** The navigation row of `make_del_kb`: a back arrow exactly when there
      is a page before, the position label, a forward arrow exactly when
      there is a page after. */
  function NavRow(page: int, total: int): (nav: seq<Button>)
    ensures |nav| == 1 + (if page > 0 then 1 else 0) + (if page < total - 1 then 1 else 0)
    ensures page > 0 ==> nav[0] == Button("⏪", PrevCallback(page - 1))
    ensures page < total - 1 ==> nav[|nav| - 1] == Button("⏩", NextCallback(page + 1))
    ensures nav[if page > 0 then 1 else 0] == Button(IntToDecimal(page + 1) + "/" + IntToDecimal(total), "noop")
  {
    var prev := if page > 0 then [Button("⏪", PrevCallback(page - 1))] else [];
    var next := if page < total - 1 then [Button("⏩", NextCallback(page + 1))] else [];
    prev + [Button(IntToDecimal(page + 1) + "/" + IntToDecimal(total), "noop")] + next
  }

  /** `make_del_kb(cards, page, total)`: one row per card, then the
      navigation row, then the back row. */
  method MakeDelKb(cards: seq<Card>, page: int, total: int) returns (rows: seq<seq<Button>>)
    ensures |rows| == |cards| + 2
    ensures forall i :: 0 <= i < |cards| ==> rows[i] == [Button(cards[i].email, DelCallback(cards[i].uuid))]
    ensures rows[|cards|] == NavRow(page, total)
    ensures rows[|cards| + 1] == [BackButton]
  {
    rows := [];
    for i := 0 to |cards|
      invariant |rows| == i
      invariant forall j :: 0 <= j < i ==> rows[j] == [Button(cards[j].email, DelCallback(cards[j].uuid))]
    {
      rows := rows + [[Button(cards[i].email, DelCallback(cards[i].uuid))]];
    }
    var nav: seq<Button> := [];
    if page > 0 {
      nav := nav + [Button("⏪", PrevCallback(page - 1))];
    }
    nav := nav + [Button(IntToDecimal(page + 1) + "/" + IntToDecimal(total), "noop")];
    if page < total - 1 {
      nav := nav + [Button("⏩", NextCallback(page + 1))];
    }
    rows := rows + [nav] + [[BackButton]];
  }

  /** `int(q.data.split(":")[1])`, failing where Python raises. */
  function PageOfCallback(data: string): Option<int> {
    var parts := SplitOn(data, ':');
    if |parts| < 2 then None else ParseInt(parts[1])
  }

  /** `q.data.split("_", 1)[1]` for a callback starting with `del_`. */
  function UuidOfCallback(data: string): string
    requires '_' in data
  {
    AfterFirst(data, '_')
  }

  /** Splitting `a:b` where only the separator is a colon. */
  lemma SplitAtColon(a: string, b: string)
    requires ':' !in a && ':' !in b
    ensures SplitOn(a + ":" + b, ':') == [a, b]
  {
    IndexOfAfter(a, ':', b);
    var s := a + ":" + b;
    assert s[..|a|] == a && s[|a| + 1..] == b;
  }

  lemma NoColonInDecimal(n: int)
    ensures ':' !in IntToDecimal(n)
  {
  }

  /** The back arrow's callback gives back the page it names. */
  lemma PrevCallbackRoundTrip(page: int)
    ensures PageOfCallback(PrevCallback(page)) == Some(page)
  {
    NoColonInDecimal(page);
    SplitAtColon("prev_del", IntToDecimal(page));
    ParseIntToDecimal(page);
  }

  /** The forward arrow's callback gives back the page it names. */
  lemma NextCallbackRoundTrip(page: int)
    ensures PageOfCallback(NextCallback(page)) == Some(page)
  {
    NoColonInDecimal(page);
    SplitAtColon("next_del", IntToDecimal(page));
    ParseIntToDecimal(page);
  }

  /** The delete callback gives back the card's uuid, whatever it holds. */
  lemma DelCallbackRoundTrip(uuid: string)
    ensures '_' in DelCallback(uuid)
    ensures UuidOfCallback(DelCallback(uuid)) == uuid
  {
    var s := DelCallback(uuid);
    assert s == "del" + ['_'] + uuid;
    assert s[3] == '_';
    IndexOfAfter("del", '_', uuid);
    var r := AfterFirst(s, '_');
    assert s == "del" + ['_'] + r;
    assert r == s[4..];
  }

  /** The arrows of the navigation row lead to the neighbouring pages, so
      from a valid page they never leave the range `0 .. total-1`. */
  lemma NavTargets(page: int, total: int)
    requires 0 <= page < total
    ensures var nav := NavRow(page, total);
            page > 0 ==> PageOfCallback(nav[0].callback) == Some(page - 1) && 0 <= page - 1
    ensures var nav := NavRow(page, total);
            page < total - 1 ==> PageOfCallback(nav[|nav| - 1].callback) == Some(page + 1) && page + 1 < total
  {
    PrevCallbackRoundTrip(page - 1);
    NextCallbackRoundTrip(page + 1);
  }

  // ---------------------------------------------------------------------
  // Finding the card a delete callback names

  /** `next((c for c in cards if str(c.uuid) == str(uuid)), None)` */
  function FirstWithUuid(cards: seq<Card>, uuid: string): (r: Option<Card>)
    ensures r.Some? ==> r.value in cards && r.value.uuid == uuid
    ensures r.None? ==> forall c :: c in cards ==> c.uuid != uuid
    decreases |cards|
  {
    if cards == [] then None
    else if cards[0].uuid == uuid then Some(cards[0])
    else FirstWithUuid(cards[1..], uuid)
  }

  lemma {:induction false} FirstWithUuidAppend(a: seq<Card>, b: seq<Card>, uuid: string)
    ensures FirstWithUuid(a + b, uuid) == if FirstWithUuid(a, uuid).Some? then FirstWithUuid(a, uuid) else FirstWithUuid(b, uuid)
    decreases |a|
  {
    if a == [] {
      assert a + b == b;
    } else {
      assert (a + b)[1..] == a[1..] + b;
      FirstWithUuidAppend(a[1..], b, uuid);
    }
  }

  lemma {:induction false} FirstInLongerConcat(pages: map<nat, seq<Card>>, p: nat, t: nat, uuid: string)
    requires p <= t && forall k: nat :: k < t ==> k in pages
    requires FirstWithUuid(Concat(pages, p), uuid).Some?
    ensures FirstWithUuid(Concat(pages, t), uuid) == FirstWithUuid(Concat(pages, p), uuid)
    decreases t - p
  {
    if p < t {
      FirstInLongerConcat(pages, p, t - 1, uuid);
      FirstWithUuidAppend(Concat(pages, t - 1), pages[t - 1], uuid);
    }
  }

  /** The search over `pages.items()` in `cb_del_client`: the first page,
      in page order, holding a card with the uuid, and that card. It finds
      the first such card of the pages read in order. */
  method LocateCard(pages: map<nat, seq<Card>>, total: nat, uuid: string) returns (r: Option<(Card, nat)>)
    requires forall k: nat :: k < total ==> k in pages
    ensures r.None? <==> FirstWithUuid(Concat(pages, total), uuid).None?
    ensures r.Some? ==> r.value.1 < total && r.value.0 in pages[r.value.1]
                        && Some(r.value.0) == FirstWithUuid(Concat(pages, total), uuid)
  {
    for p := 0 to total
      invariant FirstWithUuid(Concat(pages, p), uuid).None?
    {
      var card := FirstWithUuid(pages[p], uuid);
      FirstWithUuidAppend(Concat(pages, p), pages[p], uuid);
      if card.Some? {
        FirstInLongerConcat(pages, p + 1, total, uuid);
        return Some((card.value, p));
      }
    }
    return None;
  }

  /** Where the delete of `uuid` is looked for: the card on the current
      page if it is there, otherwise the first card with that uuid in a
      fresh listing, with its page. */
  method DeleteTarget(current: seq<Card>, page: nat, listing: seq<ClientRow>, uuid: string)
    returns (r: Option<(Card, nat)>)
    ensures FirstWithUuid(current, uuid).Some? ==> r == Some((FirstWithUuid(current, uuid).value, page))
    ensures FirstWithUuid(current, uuid).None? ==>
              (r.None? <==> FirstWithUuid(CardsOf(listing), uuid).None?)
              && (r.Some? ==> Some(r.value.0) == FirstWithUuid(CardsOf(listing), uuid) && r.value.1 == r.value.0.page)
  {
    var card := FirstWithUuid(current, uuid);
    if card.Some? {
      return Some((card.value, page));
    }
    var cards := CardsOf(listing);
    var pages := Paginate(cards);
    PagesConcat(cards);
    r := LocateCard(pages, PageCount(|cards|), uuid);
    if r.Some? {
      GroupPaged(cards);
      OnItsPage(cards, r.value.1, r.value.0);
    }
  }

  // ---------------------------------------------------------------------
  // Adding a client

  datatype AddVerdict =
    | InvalidName                         // not 3-20 letters a-z
    | Taken(name: string)                 // an existing email matches, ignoring case
    | Accepted(name: string, inboundId: int)

  /** `admin_add_process`: the name is the stripped, lower-cased text; it
      must be 3-20 letters a-z and differ, ignoring case, from every listed
      email; the new client goes to the first listed client's inbound, or
      to inbound 1 on an empty server. */
  function CheckNewClient(text: string, rows: seq<ClientRow>): (v: AddVerdict)
    ensures v == InvalidName <==> !IsLatinName(Lower(Strip(text)))
    ensures v.Taken? ==> v.name == Lower(Strip(text)) && exists i :: 0 <= i < |rows| && Lower(rows[i].Email()) == v.name
    ensures v.Accepted? ==>
              && v.name == Lower(Strip(text)) && IsLatinName(v.name)
              && (forall i :: 0 <= i < |rows| ==> Lower(rows[i].Email()) != v.name)
              && v.inboundId == (if rows == [] then 1 else rows[0].inboundId)
  {
    var name := Lower(Strip(text));
    if !IsLatinName(name) then InvalidName
    else if exists i :: 0 <= i < |rows| && Lower(rows[i].Email()) == name then Taken(name)
    else Accepted(name, if rows == [] then 1 else rows[0].inboundId)
  }

  /** Once a name was added, adding it again, in any case, is refused. */
  lemma AddedNameIsTaken(text: string, again: string, rows: seq<ClientRow>, added: ClientRow)
    requires CheckNewClient(text, rows).Accepted?
    requires added.Email() == CheckNewClient(text, rows).name
    requires Lower(Strip(again)) == Lower(Strip(text))
    ensures CheckNewClient(again, rows + [added]) == Taken(Lower(Strip(text)))
  {
    var name := Lower(Strip(text));
    assert forall i :: 0 <= i < |name| ==> 'a' <= name[i] <= 'z';
    assert !HasUpper(name);
    LowerWithoutUpper(name);
    assert (rows + [added])[|rows|] == added;
  }

  // ---------------------------------------------------------------------
  // humanize_last_seen

  /** The wording for an age of `mins` whole minutes. */
  function AgeText(mins: int): (s: string)
    ensures mins < 1 ==> s == "только что"
    ensures 1 <= mins < 60 ==> s == IntToDecimal(mins) + " мин назад"
    ensures mins >= 60 ==> s == IntToDecimal(mins / 60) + " ч назад"
  {
    if mins < 1 then "только что"
    else if mins == 1 then "1 мин назад"
    else if mins < 60 then IntToDecimal(mins) + " мин назад"
    else IntToDecimal(mins / 60) + " ч назад"
  }

  /** The hour count shown is the age in whole hours. */
  lemma AgeHours(mins: int)
    requires mins >= 60
    ensures var h := mins / 60; 1 <= h && 60 * h <= mins < 60 * h + 60
  {
  }

  /**
   * `humanize_last_seen(ts)` as written, at UTC time `nowUtc` (seconds) on
   * a host whose local time is `utcOffset` seconds ahead of UTC: the
   * timestamp is turned into local time (`datetime.fromtimestamp`) but
   * compared with UTC (`datetime.utcnow`), so it answers as the
   * one-clock version would at an instant `utcOffset` seconds earlier.
   */
  function HumanizeLastSeenAsWritten(ts: Option<int>, nowUtc: int, utcOffset: int): (s: string)
    ensures s == HumanizeLastSeen(ts, nowUtc - utcOffset)
  {
    if ts.None? || ts.value == 0 then "никогда"
    else AgeText((nowUtc - (ts.value + utcOffset)) / 60)
  }

  /** `humanize_last_seen(ts)` with both instants on the same clock: the
      age is the time since `ts`, whatever the host's time zone. */
  function HumanizeLastSeen(ts: Option<int>, now: int): (s: string)
    ensures ts.None? || ts.value == 0 ==> s == "никогда"
    ensures ts.Some? && ts.value != 0 ==> s == AgeText((now - ts.value) / 60)
  {
    if ts.None? || ts.value == 0 then "никогда" else AgeText((now - ts.value) / 60)
  }

  /** The two agree on a host that runs on UTC. */
  lemma HumanizeAgreesOnUtc(ts: Option<int>, now: int)
    ensures HumanizeLastSeenAsWritten(ts, now, 0) == HumanizeLastSeen(ts, now)
  {
  }

  /** Two hours ago, on a host three hours ahead of UTC, reads as "just
      now"; with one clock it reads as two hours ago. */
  lemma TimeZoneSkew(now: int)
    requires now != 7200
    ensures HumanizeLastSeenAsWritten(Some(now - 7200), now, 3 * 3600) == "только что"
    ensures HumanizeLastSeen(Some(now - 7200), now) == "2 ч назад"
  {
    assert (now - (now - 7200 + 3 * 3600)) / 60 == -60;
    assert (now - (now - 7200)) / 60 == 120;
    assert IntToDecimal(2) == "2";
  }
}
