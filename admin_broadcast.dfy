/**
 * The administrator's messaging commands (admin_broadcast.py): `/send`, a
 * message to one user named by id or `@username`, and `/bc`, a broadcast to
 * every known chat with running tallies, progress edits and pauses.
 *
 * Telegram is a parameter: the chat lookup, the outcome of each delivery
 * (already passed through `safe_send`) and the administrator check.
 */
module AdminBroadcast {
  import opened Wrappers
  import opened Text
  import opened TelegramUtils

  // ---------------------------------------------------------------------
  // /send

  /** What `/send <uid|@username> <text…>` asks for. */
  datatype SendCommand =
    | SendUsage                                  // fewer than three parts
    | Lookup(username: string, text: string)     // target starts with "@"
    | SendToId(chatId: int, text: string)
    | BadUserId                                  // `int(target)` fails

  /** The argument parsing of `cmd_send`: `msg.text.split(maxsplit=2)`. */
  function ParseSend(text: string): (c: SendCommand)
    ensures c == SendUsage <==> |SplitWords(text, 2)| < 3
  {
    CommandOf(SplitWords(text, 2))
  }

  /** The command named by the words of `/send`. */
  function CommandOf(parts: seq<string>): (c: SendCommand)
    requires |parts| <= 3
    ensures c == SendUsage <==> |parts| < 3
    ensures c.Lookup? ==> StartsWith(parts[1], "@") && c.username == parts[1] && c.text == parts[2]
    ensures c.SendToId? ==> !StartsWith(parts[1], "@") && ParseInt(parts[1]) == Some(c.chatId) && c.text == parts[2]
    ensures c == BadUserId <==> |parts| == 3 && !StartsWith(parts[1], "@") && ParseInt(parts[1]).None?
  {
    if |parts| < 3 then SendUsage
    else if StartsWith(parts[1], "@") then Lookup(parts[1], parts[2])
    else match ParseInt(parts[1])
      case None => BadUserId
      case Some(id) => SendToId(id, parts[2])
  }

  /** A leading blank is skipped by the word split. */
  lemma StripLeftBlank(x: string)
    ensures StripLeft(" " + x) == StripLeft(x)
  {
    assert (" " + x)[1..] == x;
  }

  lemma {:induction false} WordLengthOfWord(w: string, rest: string)
    requires forall i :: 0 <= i < |w| ==> !IsSpace(w[i])
    requires rest == [] || IsSpace(rest[0])
    ensures WordLength(w + rest) == |w|
  {
    if w != [] {
      assert (w + rest)[1..] == w[1..] + rest;
      WordLengthOfWord(w[1..], rest);
    }
  }

  /** Splitting `w + " " + rest` with one split more peels off the word `w`. */
  lemma SplitWordThen(w: string, rest: string, k: nat)
    requires w != [] && forall i :: 0 <= i < |w| ==> !IsSpace(w[i])
    ensures SplitWords(w + " " + rest, k + 1) == [w] + SplitWords(rest, k)
  {
    var s := w + " " + rest;
    assert StripLeft(s) == s;
    WordLengthOfWord(w, " " + rest);
    assert s == w + (" " + rest);
    assert s[..|w|] == w && s[|w|..] == " " + rest;
    StripLeftBlank(rest);
  }

  /** The last part keeps the rest of the text, inner blanks included. */
  lemma SplitWordsLast(msg: string)
    requires msg != [] && !IsSpace(msg[0])
    ensures SplitWords(msg, 0) == [msg]
  {
  }

  /** Two one-word arguments followed by the rest of the text. */
  lemma SplitTwoWords(cmd: string, target: string, msg: string, k: nat)
    requires cmd != [] && forall i :: 0 <= i < |cmd| ==> !IsSpace(cmd[i])
    requires target != [] && forall i :: 0 <= i < |target| ==> !IsSpace(target[i])
    ensures SplitWords(cmd + " " + (target + " " + msg), k + 2) == [cmd, target] + SplitWords(msg, k)
  {
    SplitWordThen(cmd, target + " " + msg, k + 1);
    SplitWordThen(target, msg, k);
  }

  /** The three words of `/send <target> <text…>` when the target is one word. */
  lemma SendSplit(cmd: string, target: string, msg: string)
    requires cmd != [] && forall i :: 0 <= i < |cmd| ==> !IsSpace(cmd[i])
    requires target != [] && forall i :: 0 <= i < |target| ==> !IsSpace(target[i])
    requires msg != [] && !IsSpace(msg[0])
    ensures SplitWords(cmd + " " + target + " " + msg, 2) == [cmd, target, msg]
  {
    assert cmd + " " + target + " " + msg == cmd + " " + (target + " " + msg);
    SplitTwoWords(cmd, target, msg, 0);
    SplitWordsLast(msg);
  }

  /** `/send 42 hi there` reaches user 42 with `hi there`. */
  lemma SendToIdRoundTrip(cmd: string, id: int, msg: string)
    requires cmd != [] && forall i :: 0 <= i < |cmd| ==> !IsSpace(cmd[i])
    requires msg != [] && !IsSpace(msg[0])
    ensures ParseSend(cmd + " " + IntToDecimal(id) + " " + msg) == SendToId(id, msg)
  {
    var d := IntToDecimal(id);
    SendSplit(cmd, d, msg);
    ParseIntToDecimal(id);
    NumericCommand(cmd, d, msg, id);
  }

  lemma NumericCommand(cmd: string, target: string, msg: string, id: int)
    requires target != [] && target[0] != '@'
    requires ParseInt(target) == Some(id)
    ensures CommandOf([cmd, target, msg]) == SendToId(id, msg)
  {
  }

  /** `/send @name hi` looks `@name` up and keeps `hi` as the text. */
  lemma LookupRoundTrip(cmd: string, name: string, msg: string)
    requires cmd != [] && forall i :: 0 <= i < |cmd| ==> !IsSpace(cmd[i])
    requires forall i :: 0 <= i < |name| ==> !IsSpace(name[i])
    requires msg != [] && !IsSpace(msg[0])
    ensures ParseSend(cmd + " @" + name + " " + msg) == Lookup("@" + name, msg)
  {
    var target := "@" + name;
    assert cmd + " @" + name + " " + msg == cmd + " " + target + " " + msg;
    assert forall i :: 0 <= i < |target| ==> !IsSpace(target[i]) by {
      forall i | 0 <= i < |target| ensures !IsSpace(target[i]) {
        if i > 0 { assert target[i] == name[i - 1]; }
      }
    }
    SendSplit(cmd, target, msg);
    assert target[..1] == "@";
  }

  /** What `cmd_send` answers. */
  datatype SendReply =
    | SendIgnored                                // not an administrator
    | SendUsageReply
    | UserNotFound                               // get_chat raised TelegramBadRequest
    | InvalidUserId
    | Delivered                                  // "✅ Отправлено"
    | NotDelivered(error: Exception)             // TelegramBadRequest / TelegramForbiddenError
    | SendCrashed(result: SendResult<()>)        // any other exception leaves the handler

  /**
   * `cmd_send`. `lookup(name)` is `bot.get_chat(name).id`, `None` when it
   * raises TelegramBadRequest; `deliver(id, text)` is what
   * `safe_send(bot.send_message, id, text)` did. The result also says
   * which message, if any, was handed to `safe_send`.
   */
  function CmdSend(isAdmin: bool, text: string, lookup: string -> Option<int>,
                   deliver: (int, string) -> SendResult<()>): (out: (SendReply, Option<(int, string)>))
    ensures out.1.None? <==>
              !isAdmin || ParseSend(text) in {SendUsage, BadUserId}
              || (ParseSend(text).Lookup? && lookup(ParseSend(text).username).None?)
    ensures !isAdmin ==> out.0 == SendIgnored
    ensures isAdmin && ParseSend(text) == SendUsage ==> out.0 == SendUsageReply
    ensures isAdmin && ParseSend(text) == BadUserId ==> out.0 == InvalidUserId
    ensures out.0 == UserNotFound <==> isAdmin && ParseSend(text).Lookup? && lookup(ParseSend(text).username).None?
    ensures out.1.Some? ==>
              var (id, msg) := out.1.value;
              msg == ParseSend(text).text
              && (ParseSend(text).SendToId? ==> id == ParseSend(text).chatId)
              && (ParseSend(text).Lookup? ==> lookup(ParseSend(text).username) == Some(id))
              && (out.0 == Delivered <==> deliver(id, msg).Returned?)
              && (out.0.NotDelivered? <==>
                    deliver(id, msg).Raised? && deliver(id, msg).error.kind in {BadRequest, Forbidden})
  {
    if !isAdmin then (SendIgnored, None)
    else match ParseSend(text)
      case SendUsage => (SendUsageReply, None)
      case BadUserId => (InvalidUserId, None)
      case Lookup(name, msg) =>
        (match lookup(name)
         case None => (UserNotFound, None)
         case Some(id) => (Answer(deliver(id, msg)), Some((id, msg))))
      case SendToId(id, msg) => (Answer(deliver(id, msg)), Some((id, msg)))
  }

  /** The answer to one delivery: the request errors are reported, any
      other exception (including safe_send's RuntimeError) propagates. */
  function Answer(r: SendResult<()>): (a: SendReply)
    ensures a == Delivered <==> r.Returned?
    ensures a.NotDelivered? <==> r.Raised? && r.error.kind in {BadRequest, Forbidden}
    ensures a.NotDelivered? ==> a.error == r.error
    ensures a.SendCrashed? <==> !r.Returned? && !a.NotDelivered?
  {
    match r
    case Returned(_) => Delivered
    case Raised(e) => if e.kind == BadRequest || e.kind == Forbidden then NotDelivered(e) else SendCrashed(r)
    case GaveUp => SendCrashed(r)
  }

  // ---------------------------------------------------------------------
  // /bc

  /** `BATCH`: the loop pauses after every 25th recipient. */
  const Batch: nat := 25

  /** The progress message is edited every 5th recipient and after the last. */
  const ProgressEvery: nat := 5

  /** Recipient `i` (counted from 1) of `total` triggers a progress edit. */
  predicate Checkpoint(i: nat, total: nat) {
    i % ProgressEvery == 0 || i == total
  }

  /** A progress edit: recipients done, and the counters shown. */
  datatype Progress = Progress(done: nat, ok: nat, err: nat)

  /** The state of `cmd_bc`'s loop: the counters, the failures with their
      exception class names, the progress edits and the pauses made. */
  datatype Tally = Tally(ok: nat, err: nat, failed: seq<(int, string)>, progress: seq<Progress>, pauses: seq<nat>)

  /**
   * One iteration for recipient `i` (from 1) with chat id `cid`;
   * `outcome` is the class name of the exception the send raised, `None`
   * when it went through.
   */
  function Step(t: Tally, i: nat, total: nat, cid: int, outcome: Option<string>): Tally {
    var ok := if outcome.None? then t.ok + 1 else t.ok;
    var err := if outcome.Some? then t.err + 1 else t.err;
    var failed := if outcome.Some? then t.failed + [(cid, outcome.value)] else t.failed;
    Tally(ok, err, failed,
          if Checkpoint(i, total) then t.progress + [Progress(i, ok, err)] else t.progress,
          if i % Batch == 0 then t.pauses + [i] else t.pauses)
  }

  /** The loop's state after the first `n` recipients. */
  function TallyOf(ids: seq<int>, outcomes: seq<Option<string>>, n: nat): Tally
    requires n <= |ids| == |outcomes|
  {
    if n == 0 then Tally(0, 0, [], [], [])
    else Step(TallyOf(ids, outcomes, n - 1), n, |ids|, ids[n - 1], outcomes[n - 1])
  }

  /** Every send is counted once, and every failure is recorded with the
      chat id and the class name, in recipient order. */
  lemma {:induction false} TallyCounts(ids: seq<int>, outcomes: seq<Option<string>>, n: nat)
    requires n <= |ids| == |outcomes|
    ensures var t := TallyOf(ids, outcomes, n);
            t.ok + t.err == n && |t.failed| == t.err
    ensures forall k :: 0 <= k < n && outcomes[k].Some? ==> (ids[k], outcomes[k].value) in TallyOf(ids, outcomes, n).failed
    ensures forall p :: p in TallyOf(ids, outcomes, n).failed ==> exists k :: 0 <= k < n && outcomes[k] == Some(p.1) && ids[k] == p.0
  {
    if n > 0 {
      TallyCounts(ids, outcomes, n - 1);
    }
  }

  /** All sends succeed exactly when nothing is recorded as failed. */
  lemma NothingFailed(ids: seq<int>, outcomes: seq<Option<string>>)
    requires |ids| == |outcomes|
    ensures TallyOf(ids, outcomes, |ids|).failed == [] <==> forall k :: 0 <= k < |ids| ==> outcomes[k].None?
  {
    TallyCounts(ids, outcomes, |ids|);
    var t := TallyOf(ids, outcomes, |ids|);
    if t.failed != [] {
      var p := t.failed[0];
      assert p in t.failed;
    }
  }

  /** A progress edit is made after recipient `i` exactly when `i` is a
      checkpoint, in order, and it shows the counters after `i` sends. */
  lemma {:induction false} ProgressExactly(ids: seq<int>, outcomes: seq<Option<string>>, n: nat)
    requires n <= |ids| == |outcomes|
    ensures forall i :: 1 <= i <= n ==> (Checkpoint(i, |ids|) <==> exists j :: 0 <= j < |TallyOf(ids, outcomes, n).progress| && TallyOf(ids, outcomes, n).progress[j].done == i)
    ensures forall j :: 0 <= j < |TallyOf(ids, outcomes, n).progress| ==> 1 <= TallyOf(ids, outcomes, n).progress[j].done <= n
    ensures forall j, j' :: 0 <= j < j' < |TallyOf(ids, outcomes, n).progress| ==> TallyOf(ids, outcomes, n).progress[j].done < TallyOf(ids, outcomes, n).progress[j'].done
    ensures forall j :: 0 <= j < |TallyOf(ids, outcomes, n).progress| ==>
              var d := TallyOf(ids, outcomes, n).progress[j].done;
              d <= n && TallyOf(ids, outcomes, n).progress[j] == Progress(d, TallyOf(ids, outcomes, d).ok, TallyOf(ids, outcomes, d).err)
  {
    if n > 0 {
      ProgressExactly(ids, outcomes, n - 1);
      var prev := TallyOf(ids, outcomes, n - 1).progress;
      var t := TallyOf(ids, outcomes, n);
      assert t.progress[..|prev|] == prev;
      forall i | 1 <= i <= n
        ensures Checkpoint(i, |ids|) <==> exists j :: 0 <= j < |t.progress| && t.progress[j].done == i
      {
        if i == n && Checkpoint(n, |ids|) {
          assert t.progress[|prev|].done == n;
        }
        if i < n && Checkpoint(i, |ids|) {
          var j :| 0 <= j < |prev| && prev[j].done == i;
          assert t.progress[j].done == i;
        }
      }
    }
  }

  /** The last edit of a finished broadcast shows every recipient. */
  lemma FinalProgress(ids: seq<int>, outcomes: seq<Option<string>>)
    requires |ids| == |outcomes| && |ids| > 0
    ensures var t := TallyOf(ids, outcomes, |ids|);
            |t.progress| > 0 && t.progress[|t.progress| - 1] == Progress(|ids|, t.ok, t.err)
  {
  }

  /** A pause follows recipient `i` exactly when `i` is a multiple of 25. */
  lemma {:induction false} PausesExactly(ids: seq<int>, outcomes: seq<Option<string>>, n: nat)
    requires n <= |ids| == |outcomes|
    ensures forall i :: 1 <= i <= n ==> (i % Batch == 0 <==> i in TallyOf(ids, outcomes, n).pauses)
    ensures forall i :: i in TallyOf(ids, outcomes, n).pauses ==> 1 <= i <= n
  {
    if n > 0 {
      PausesExactly(ids, outcomes, n - 1);
      var prev := TallyOf(ids, outcomes, n - 1).pauses;
      var t := TallyOf(ids, outcomes, n);
      if n % Batch == 0 {
        assert t.pauses == prev + [n];
      } else {
        assert t.pauses == prev;
        assert n !in prev;
      }
    }
  }

  /** The send loop of `cmd_bc`. */
  method Broadcast(ids: seq<int>, outcomes: seq<Option<string>>) returns (t: Tally)
    requires |ids| == |outcomes|
    ensures t == TallyOf(ids, outcomes, |ids|)
  {
    var total := |ids|;
    var ok, err := 0, 0;
    var failed: seq<(int, string)> := [];
    var progress: seq<Progress> := [];
    var pauses: seq<nat> := [];
    for k := 0 to total
      invariant Tally(ok, err, failed, progress, pauses) == TallyOf(ids, outcomes, k)
    {
      var i := k + 1;
      if outcomes[k].None? {
        ok := ok + 1;
      } else {
        err := err + 1;
        failed := failed + [(ids[k], outcomes[k].value)];
      }
      if i % ProgressEvery == 0 || i == total {
        progress := progress + [Progress(i, ok, err)];
      }
      if i % Batch == 0 {
        pauses := pauses + [i];
      }
    }
    t := Tally(ok, err, failed, progress, pauses);
  }

  /** How the list of undelivered chats reaches the administrator. */
  datatype Report = NoReport | Inline(details: string) | AsDocument(details: string)

  /** `f"{cid} — {reason}"` */
  function FailureLine(p: (int, string)): string {
    IntToDecimal(p.0) + " — " + p.1
  }

  /** `"\n".join(...)` of the failure lines, one per failed chat. */
  function Details(failed: seq<(int, string)>): (d: string)
    requires failed != []
  {
    Join(seq(|failed|, k requires 0 <= k < |failed| => FailureLine(failed[k])), '\n')
  }

  /** The details text splits back into one line per failure, as long as
      no class name holds a line break. */
  lemma DetailsLines(failed: seq<(int, string)>)
    requires failed != []
    requires forall k :: 0 <= k < |failed| ==> '\n' !in failed[k].1
    ensures SplitOn(Details(failed), '\n') == seq(|failed|, k requires 0 <= k < |failed| => FailureLine(failed[k]))
  {
    var lines := seq(|failed|, k requires 0 <= k < |failed| => FailureLine(failed[k]));
    forall k | 0 <= k < |lines| ensures '\n' !in lines[k] {
      var d := IntToDecimal(failed[k].0);
      assert lines[k] == d + " — " + failed[k].1;
      assert '\n' !in d;
    }
    SplitJoin(lines, '\n');
  }

  /** Inline when `len(details) < MAX_MSG_LEN - 100`, a document otherwise. */
  function ReportOf(failed: seq<(int, string)>, maxMsgLen: int): (r: Report)
    ensures r == NoReport <==> failed == []
    ensures r.Inline? ==> |r.details| < maxMsgLen - 100
    ensures r.AsDocument? ==> |r.details| >= maxMsgLen - 100
    ensures !r.NoReport? ==> r.details == Details(failed)
  {
    if failed == [] then NoReport
    else
      var d := Details(failed);
      if |d| < maxMsgLen - 100 then Inline(d) else AsDocument(d)
  }

  // ---------------------------------------------------------------------
  // The error log written before the report

  /** A `broadcast_error_log` row: the broadcast it belongs to, the chat
      and the exception's class name. */
  datatype ErrorLogRow = ErrorLogRow(bcId: Option<int>, chatId: int, reason: string)

  /** One row per failed chat, in order, all for broadcast `bcId`. */
  function ErrorLog(failed: seq<(int, string)>, bcId: Option<int>): (rows: seq<ErrorLogRow>)
    ensures |rows| == |failed|
    ensures forall k :: 0 <= k < |rows| ==> rows[k] == ErrorLogRow(bcId, failed[k].0, failed[k].1)
  {
    seq(|failed|, k requires 0 <= k < |failed| => ErrorLogRow(bcId, failed[k].0, failed[k].1))
  }

  /** The table declares `bc_id` NOT NULL (db.py:37), so a commit succeeds
      iff every row it adds carries a broadcast id; otherwise the whole
      commit raises `IntegrityError`. */
  predicate Commits(rows: seq<ErrorLogRow>) {
    forall k :: 0 <= k < |rows| ==> rows[k].bcId.Some?
  }

  /** Rows that all carry the broadcast's id are committed. */
  lemma LogWithIdCommits(failed: seq<(int, string)>, bcId: int)
    ensures Commits(ErrorLog(failed, Some(bcId)))
  {
  }

  /** How the end of `cmd_bc` goes once the final progress edit is sent. */
  datatype BcEnd = Reported(report: Report) | CommitRaised

  /**
   * The end of `cmd_bc` as written: with failures, the rows are added with
   * `bc_id=None` and committed before the report is sent, so the commit
   * raises and the handler ends there; without failures nothing is written
   * and nothing reported.
   */
  function BcEndAsWritten(failed: seq<(int, string)>, maxMsgLen: int): (e: BcEnd)
    ensures e == CommitRaised <==> failed != []
    ensures failed == [] ==> e == Reported(NoReport)
  {
    if failed == [] then Reported(NoReport)
    else
      var rows := ErrorLog(failed, None);
      assert rows[0].bcId.None?;
      if !Commits(rows) then CommitRaised else Reported(ReportOf(failed, maxMsgLen))
  }

  /** As written, a broadcast with a failed delivery never shows the
      administrator the undelivered list that `ReportOf` would give. */
  lemma FailedBroadcastNeverReported(failed: seq<(int, string)>, maxMsgLen: int)
    requires failed != []
    ensures ReportOf(failed, maxMsgLen) != NoReport
    ensures BcEndAsWritten(failed, maxMsgLen) == CommitRaised
  {
  }

  /** What `cmd_bc` answers. */
  datatype BcReply =
    | BcIgnored                   // not an administrator
    | BcUsage                     // no text after the command
    | NoRecipients
    | BcDone(text: string, tally: Tally, log: seq<ErrorLogRow>, report: Report)

  /**
   * `cmd_bc` with the error log written for broadcast `bcId`, as intended.
   * `ids` is `list_all_chat_ids()`; `outcomes[k]` is the class name of the
   * exception sending to `ids[k]` raised, `None` on success.
   */
  method CmdBc(isAdmin: bool, msgText: string, ids: seq<int>, outcomes: seq<Option<string>>, maxMsgLen: int,
               bcId: int)
    returns (reply: BcReply)
    requires |ids| == |outcomes|
    ensures reply == BcIgnored <==> !isAdmin
    ensures reply == BcUsage <==> isAdmin && |SplitWords(msgText, 1)| < 2
    ensures reply == NoRecipients <==> isAdmin && |SplitWords(msgText, 1)| == 2 && ids == []
    ensures reply.BcDone? ==>
              ids != [] && reply.text == SplitWords(msgText, 1)[1]
              && reply.tally == TallyOf(ids, outcomes, |ids|)
              && reply.log == ErrorLog(reply.tally.failed, Some(bcId)) && Commits(reply.log)
              && reply.report == ReportOf(reply.tally.failed, maxMsgLen)
  {
    if !isAdmin {
      return BcIgnored;
    }
    var parts := SplitWords(msgText, 1);
    if |parts| < 2 {
      return BcUsage;
    }
    if ids == [] {
      return NoRecipients;
    }
    var t := Broadcast(ids, outcomes);
    reply := BcDone(parts[1], t, ErrorLog(t.failed, Some(bcId)), ReportOf(t.failed, maxMsgLen));
  }

  /** `/bc hello world` broadcasts `hello world`. */
  lemma BcTextRoundTrip(cmd: string, msg: string)
    requires cmd != [] && forall i :: 0 <= i < |cmd| ==> !IsSpace(cmd[i])
    requires msg != [] && !IsSpace(msg[0])
    ensures SplitWords(cmd + " " + msg, 1) == [cmd, msg]
  {
    SplitWordThen(cmd, msg, 0);
    SplitWordsLast(msg);
  }
}
