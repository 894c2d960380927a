/**
 * The anti-flood middleware (rate_limit.py): a dictionary whose entries
 * expire, and the per-message decision that either passes a message on,
 * asks for a captcha, or checks a captcha answer.
 *
 * Time is an integer clock in milliseconds, so that the one-second rate
 * limit stays a strict comparison between whole numbers.
 */
module RateLimit {
  import opened Wrappers
  import opened Text

  /** `USER_RATE_LIMIT`: one second between accepted messages. */
  const UserRateLimit: int := 1000
  /** `CAPTCHA_TTL`: a captcha stays pending for a minute. */
  const CaptchaTtl: int := 60 * 1000
  /** The last-accepted-message table keeps entries for ten rate limits. */
  const LastTimeTtl: int := UserRateLimit * 10

  /** The stored pairs `(value, expires)` of a TTL dictionary, by user id. */
  type Entries<V> = map<int, (V, int)>

  /** `get(key, default)` at time `now`: the stored value unless the entry is
      missing or `now` is past its expiry. */
  function Lookup<V>(d: Entries<V>, key: int, default: V, now: int): (v: V)
    ensures key !in d ==> v == default
    ensures key in d && now > d[key].1 ==> v == default
    ensures key in d && now <= d[key].1 ==> v == d[key].0
  {
    if key !in d then default
    else if now > d[key].1 then default
    else d[key].0
  }

  /** The entries left after `get(key)` at `now`: an expired entry for that
      key is dropped, nothing else changes. */
  function AfterGet<V>(d: Entries<V>, key: int, now: int): (d': Entries<V>)
    ensures key in d && now > d[key].1 ==> d' == d - {key}
    ensures !(key in d && now > d[key].1) ==> d' == d
  {
    if key in d && now > d[key].1 then d - {key} else d
  }

  /** The entries left after `cleanup()` at `now`: exactly those that have
      not expired before `now`. */
  function Cleaned<V>(d: Entries<V>, now: int): (d': Entries<V>)
    ensures forall k :: k in d' <==> k in d && d[k].1 >= now
    ensures forall k :: k in d' ==> d'[k] == d[k]
  {
    map k | k in d && d[k].1 >= now :: d[k]
  }

  /** `cleanup()` never changes what `get` answers at the same instant, and a
      `get` after it has nothing left to drop. */
  lemma CleanupKeepsAnswers<V>(d: Entries<V>, key: int, default: V, now: int)
    ensures Lookup(Cleaned(d, now), key, default, now) == Lookup(d, key, default, now)
    ensures AfterGet(Cleaned(d, now), key, now) == Cleaned(d, now)
  {
  }

  /** After `set(key, v)` at `now`, `get(key)` answers `v` until the entry's
      expiry and the default after it; other keys answer as before. */
  lemma SetThenGet<V>(d: Entries<V>, key: int, v: V, ttl: int, now: int, other: int, default: V, t: int)
    requires other != key
    ensures Lookup(d[key := (v, now + ttl)], key, default, t) == (if t > now + ttl then default else v)
    ensures Lookup(d[key := (v, now + ttl)], other, default, t) == Lookup(d, other, default, t)
  {
  }

  /** `TTLDict`: values that expire `ttl` milliseconds after they are set. */
  class TTLDict<V> {
    const ttl: int
    var data: Entries<V>

    constructor (ttl: int)
      ensures this.ttl == ttl && data == map[]
    {
      this.ttl := ttl;
      data := map[];
    }

    /** `set(key, value)`: overwrites any earlier entry. */
    method Set(key: int, value: V, now: int)
      modifies this
      ensures data == old(data)[key := (value, now + ttl)]
    {
      data := data[key := (value, now + ttl)];
    }

    /** `get(key, default)` */
    method Get(key: int, default: V, now: int) returns (v: V)
      modifies this
      ensures v == Lookup(old(data), key, default, now)
      ensures data == AfterGet(old(data), key, now)
    {
      if key !in data {
        return default;
      }
      var (value, expires) := data[key];
      if now > expires {
        data := data - {key};
        return default;
      }
      v := value;
    }

    /** `cleanup()`: drops every entry that expired before `now`. */
    method Cleanup(now: int)
      modifies this
      ensures data == Cleaned(old(data), now)
    {
      var keys := data.Keys;
      while keys != {}
        invariant keys <= old(data).Keys
        invariant forall k :: k in data <==> k in old(data) && (k in keys || old(data)[k].1 >= now)
        invariant forall k :: k in data ==> data[k] == old(data)[k]
        decreases keys
      {
        SomeKey(keys);
        var k :| k in keys;
        if data[k].1 < now {
          data := data - {k};
        }
        keys := keys - {k};
      }
      assert forall k :: k in data <==> k in Cleaned(old(data), now);
      assert forall k :: k in data ==> data[k] == Cleaned(old(data), now)[k];
    }
  }

  /** A non-empty key set has a key to pick. */
  lemma SomeKey(s: set<int>)
    requires s != {}
    ensures exists k :: k in s
  {
    if forall k :: k !in s {
      assert false;
    }
  }

  // ---------------------------------------------------------------------
  // The middleware decision

  /** What the middleware answers the user with. */
  datatype Notice =
    | EnterNumber               // a captcha is pending and the text is not an integer
    | Solved                    // the captcha answer was right
    | Wrong                     // the captcha answer was wrong
    | SolveCaptcha(a: int, b: int)  // too many requests: solve a + b

  /** The answers sent, and whether the message was passed to the handler. */
  datatype Decision = Decision(notices: seq<Notice>, handled: bool)

  /** `int(text.strip())`, failing for a message without text. */
  function AnswerOf(text: Option<string>): Option<int> {
    if text.None? then None else ParseInt(Strip(text.value))
  }

  /** The rate check that follows the captcha check. */
  function RateCheck(notices: seq<Notice>, last: Entries<int>, cap: Entries<Option<int>>,
                     user: int, now: int, a: int, b: int)
    : (out: (Decision, Entries<int>, Entries<Option<int>>))
    ensures var seen := Lookup(last, user, 0, now);
            && (now - seen < UserRateLimit ==>
                  out == (Decision(notices + [SolveCaptcha(a, b)], false), AfterGet(last, user, now),
                          cap[user := (Some(a + b), now + CaptchaTtl)]))
            && (now - seen >= UserRateLimit ==>
                  out == (Decision(notices, true), AfterGet(last, user, now)[user := (now, now + LastTimeTtl)], cap))
  {
    var seen := Lookup(last, user, 0, now);
    var last' := AfterGet(last, user, now);
    if now - seen < UserRateLimit then
      (Decision(notices + [SolveCaptcha(a, b)], false), last', cap[user := (Some(a + b), now + CaptchaTtl)])
    else
      (Decision(notices, true), last'[user := (now, now + LastTimeTtl)], cap)
  }

  /**
   * One call of the middleware for a message from `user` at `now` whose
   * text reads as the number `answer` (`AnswerOf`), where `a` and `b` are
   * the two numbers a new captcha would show: the decision and the two
   * tables afterwards.
   */
  function Step(last: Entries<int>, cap: Entries<Option<int>>, user: int, now: int, answer: Option<int>,
                a: int, b: int)
    : (out: (Decision, Entries<int>, Entries<Option<int>>))
    requires 1 <= a <= 9 && 1 <= b <= 9
    ensures var pending := Lookup(cap, user, None, now);
            && (pending.Some? && answer.None? ==> out.0 == Decision([EnterNumber], false))
            && (pending.Some? && answer.Some? && answer.value != pending.value ==>
                  out.0 == Decision([Wrong], false))
            && (pending.Some? && answer == Some(pending.value) ==>
                  |out.0.notices| >= 1 && out.0.notices[0] == Solved)
            && (pending.Some? && !(answer == Some(pending.value)) ==>
                  out.1 == Cleaned(last, now) && out.2 == Cleaned(cap, now))
    ensures out.0.handled ==>
              out.0.notices == (if Lookup(cap, user, None, now).Some? then [Solved] else [])
              && user in out.1 && out.1[user] == (now, now + LastTimeTtl)
              && now - Lookup(last, user, 0, now) >= UserRateLimit
    ensures !out.0.handled && SolveCaptcha(a, b) in out.0.notices ==>
              user in out.2 && out.2[user] == (Some(a + b), now + CaptchaTtl)
              && 2 <= a + b <= 18
    ensures Lookup(cap, user, None, now).None? ==>
              out == RateCheck([], Cleaned(last, now), AfterGet(Cleaned(cap, now), user, now), user, now, a, b)
    ensures var pending := Lookup(cap, user, None, now);
            pending.Some? && answer == Some(pending.value) ==>
              out == RateCheck([Solved], Cleaned(last, now),
                               AfterGet(Cleaned(cap, now), user, now)[user := (None, now + CaptchaTtl)],
                               user, now, a, b)
    ensures var pending := Lookup(cap, user, None, now);
            var cleared := pending.None? || answer == Some(pending.value);
            var seen := Lookup(last, user, 0, now);
            && (cleared && now - seen >= UserRateLimit ==>
                  out.0 == Decision(if pending.None? then [] else [Solved], true))
            && (cleared && now - seen < UserRateLimit ==>
                  out.0 == Decision((if pending.None? then [] else [Solved]) + [SolveCaptcha(a, b)], false))
  {
    var last1 := Cleaned(last, now);
    var cap1 := Cleaned(cap, now);
    CleanupKeepsAnswers(last, user, 0, now);
    CleanupKeepsAnswers(cap, user, None, now);
    var pending := Lookup(cap1, user, None, now);
    var cap2 := AfterGet(cap1, user, now);
    if pending.None? then RateCheck([], last1, cap2, user, now, a, b)
    else
      if answer.None? then (Decision([EnterNumber], false), last1, cap2)
      else if answer.value != pending.value then (Decision([Wrong], false), last1, cap2)
      else RateCheck([Solved], last1, cap2[user := (None, now + CaptchaTtl)], user, now, a, b)
  }

  /** A solved captcha is cleared: unless the same message is itself too
      soon, no captcha is pending for the user right after it. */
  lemma SolvedClearsCaptcha(last: Entries<int>, cap: Entries<Option<int>>, user: int, now: int,
                            answer: Option<int>, a: int, b: int)
    requires 1 <= a <= 9 && 1 <= b <= 9
    requires Lookup(cap, user, None, now).Some? && answer == Some(Lookup(cap, user, None, now).value)
    requires now - Lookup(last, user, 0, now) >= UserRateLimit
    ensures var out := Step(last, cap, user, now, answer, a, b);
            out.0 == Decision([Solved], true) && Lookup(out.2, user, None, now) == None
  {
    CleanupKeepsAnswers(last, user, 0, now);
  }

  /** `RateLimitMiddleware` */
  class Middleware {
    const lastTime: TTLDict<int>
    const captcha: TTLDict<Option<int>>

    constructor ()
      ensures fresh(lastTime) && fresh(captcha) && Valid()
      ensures lastTime.ttl == LastTimeTtl && captcha.ttl == CaptchaTtl
      ensures lastTime.data == map[] && captcha.data == map[]
    {
      lastTime := new TTLDict(LastTimeTtl);
      captcha := new TTLDict(CaptchaTtl);
    }

    ghost predicate Valid()
      reads this, lastTime, captcha
    {
      lastTime.ttl == LastTimeTtl && captcha.ttl == CaptchaTtl && lastTime as object != captcha as object
    }

    /** `__call__` for a message from `user` with text `text` at `now`;
        `a` and `b` are the numbers `random.randint(1, 9)` would draw. */
    method Call(user: int, now: int, text: Option<string>, a: int, b: int) returns (d: Decision)
      requires Valid()
      requires 1 <= a <= 9 && 1 <= b <= 9
      modifies lastTime, captcha
      ensures Valid()
      ensures (d, lastTime.data, captcha.data) == Step(old(lastTime.data), old(captcha.data), user, now, AnswerOf(text), a, b)
    {
      var answer := AnswerOf(text);
      d := Handle(user, now, answer, a, b);
    }

    /** `__call__` once the message text has been read as a number. */
    method Handle(user: int, now: int, answer: Option<int>, a: int, b: int) returns (d: Decision)
      requires Valid()
      requires 1 <= a <= 9 && 1 <= b <= 9
      modifies lastTime, captcha
      ensures Valid()
      ensures (d, lastTime.data, captcha.data) == Step(old(lastTime.data), old(captcha.data), user, now, answer, a, b)
    {
      ghost var last0, cap0 := lastTime.data, captcha.data;
      lastTime.Cleanup(now);
      captcha.Cleanup(now);
      var pending := captcha.Get(user, None, now);
      assert lastTime.data == Cleaned(last0, now);
      assert pending == Lookup(Cleaned(cap0, now), user, None, now);
      assert captcha.data == AfterGet(Cleaned(cap0, now), user, now);
      var notices: seq<Notice> := [];
      if pending.Some? {
        if answer.None? {
          return Decision([EnterNumber], false);
        }
        if answer.value != pending.value {
          return Decision([Wrong], false);
        }
        captcha.Set(user, None, now);
        notices := [Solved];
      }
      ghost var last1, cap1 := lastTime.data, captcha.data;
      assert Step(last0, cap0, user, now, answer, a, b) == RateCheck(notices, last1, cap1, user, now, a, b);
      var seen := lastTime.Get(user, 0, now);
      if now - seen < UserRateLimit {
        captcha.Set(user, Some(a + b), now);
        return Decision(notices + [SolveCaptcha(a, b)], false);
      }
      lastTime.Set(user, now, now);
      d := Decision(notices, true);
    }
  }
}
