/** The /hualao chat-activity leaderboard: per-sender message counts over the
    messages of the last seven days, ranked by count, the top ten written
    out in Telegram Markdown. */
module Leaderboard {
  import opened Common
  import opened Telegram
  import opened Messages
  import opened Decimal
  import opened Sorting
  import opened ChatHistory

  /** A message is counted when its update carries a message with a sender. */
  predicate Counted(m: Message)
  {
    m.update.Some? && m.update.value.message.Some? && m.update.value.message.value.from.Some?
  }

  function Sender(m: Message): User
    requires Counted(m)
  {
    m.update.value.message.value.from.value
  }

  /** Whether `m` is a counted message of the user with ID `u`. */
  predicate CountedFor(m: Message, u: int)
  {
    Counted(m) && Sender(m).id == u
  }

  /** How many counted messages of `ms` the user `u` sent. */
  function CountOf(ms: seq<Message>, u: int): nat
  {
    if ms == [] then 0
    else CountOf(ms[..|ms| - 1], u) + (if CountedFor(ms[|ms| - 1], u) then 1 else 0)
  }

  /** How many messages of `ms` are counted at all. */
  function NumCounted(ms: seq<Message>): nat
  {
    if ms == [] then 0
    else NumCounted(ms[..|ms| - 1]) + (if Counted(ms[|ms| - 1]) then 1 else 0)
  }

  /** The sender on the first counted message of user `u`, if any. */
  function FirstFrom(ms: seq<Message>, u: int): Option<User>
  {
    if ms == [] then None
    else
      var earlier := FirstFrom(ms[..|ms| - 1], u);
      if earlier.Some? then earlier
      else if CountedFor(ms[|ms| - 1], u) then Some(Sender(ms[|ms| - 1]))
      else None
  }

  /** Every user with a counted message has a first one, and it is theirs. */
  lemma {:induction false} FirstFromExists(ms: seq<Message>, u: int)
    ensures CountOf(ms, u) > 0 <==> FirstFrom(ms, u).Some?
    ensures FirstFrom(ms, u).Some? ==> FirstFrom(ms, u).value.id == u
  {
    if ms != [] {
      FirstFromExists(ms[..|ms| - 1], u);
    }
  }

  /** `userStats`: the name fields of the first message seen and the count. */
  datatype UserStats = UserStats(firstName: string, lastName: string, username: string, count: nat)

  /** `stats` holds exactly the senders of `ms`, each with their count and
      with the names of their first counted message. */
  ghost predicate StatsFor(stats: map<int, UserStats>, ms: seq<Message>)
  {
    (forall u :: u in stats <==> CountOf(ms, u) > 0) &&
    (forall u :: u in stats ==>
      stats[u].count == CountOf(ms, u) &&
      FirstFrom(ms, u) == Some(User(u, stats[u].username, stats[u].firstName, stats[u].lastName)))
  }

  lemma CountStep(ms: seq<Message>, m: Message, u: int)
    ensures CountOf(ms + [m], u) == CountOf(ms, u) + (if CountedFor(m, u) then 1 else 0)
    ensures FirstFrom(ms + [m], u) ==
      (if FirstFrom(ms, u).Some? then FirstFrom(ms, u)
       else if CountedFor(m, u) then Some(Sender(m)) else None)
    ensures NumCounted(ms + [m]) == NumCounted(ms) + (if Counted(m) then 1 else 0)
  {
    assert (ms + [m])[..|ms|] == ms;
  }

  /** The counting loop: one map update per counted message. A message whose
      `Update` is nil is a nil dereference in the source, hence the precondition. */
  method CountMessages(messages: seq<Message>) returns (stats: map<int, UserStats>)
    requires AllHaveUpdates(messages)
    ensures StatsFor(stats, messages)
  {
    stats := map[];
    var i := 0;
    while i < |messages|
      invariant 0 <= i <= |messages|
      invariant StatsFor(stats, messages[..i])
    {
      var m := messages[i];
      assert messages[..i + 1] == messages[..i] + [m];
      forall u ensures CountOf(messages[..i + 1], u) == CountOf(messages[..i], u) + (if CountedFor(m, u) then 1 else 0)
        && FirstFrom(messages[..i + 1], u) ==
          (if FirstFrom(messages[..i], u).Some? then FirstFrom(messages[..i], u)
           else if CountedFor(m, u) then Some(Sender(m)) else None)
      {
        CountStep(messages[..i], m, u);
      }
      if m.update.value.message.Some? && m.update.value.message.value.from.Some? {
        var from := m.update.value.message.value.from.value;
        FirstFromExists(messages[..i], from.id);
        if from.id !in stats {
          stats := stats[from.id := UserStats(from.firstName, from.lastName, from.username, 0)];
        }
        stats := stats[from.id := stats[from.id].(count := stats[from.id].count + 1)];
      }
      i := i + 1;
    }
    assert messages[..i] == messages;
  }

  /** One row of `rankings`. */
  datatype Ranking = Ranking(userId: int, stats: UserStats)

  /** The entries of the map, as rows. */
  function Entries(stats: map<int, UserStats>): set<Ranking>
  {
    set u | u in stats :: Ranking(u, stats[u])
  }

  function NegCount(r: Ranking): int { 0 - r.stats.count as int }

  /** Map-to-slice conversion and `sort.Slice` by count, descending. The Go
      map is visited in no particular order, and equal counts may end up in
      any order. */
  method Rank(stats: map<int, UserStats>) returns (rankings: seq<Ranking>)
    ensures multiset(rankings) == multiset(Entries(stats))
    ensures forall i, j :: 0 <= i < j < |rankings| ==> rankings[i].stats.count >= rankings[j].stats.count
  {
    var pending := Entries(stats);
    var rows: seq<Ranking> := [];
    while pending != {}
      invariant multiset(rows) + multiset(pending) == multiset(Entries(stats))
      decreases |pending|
    {
      var r :| r in pending;
      assert multiset(pending) == multiset(pending - {r}) + multiset{r};
      rows := rows + [r];
      pending := pending - {r};
    }
    var arr := new Ranking[|rows|](i requires 0 <= i < |rows| => rows[i]);
    assert arr[..] == rows;
    SortBy(arr, NegCount);
    rankings := arr[..];
    assert forall i, j :: 0 <= i < j < |rankings| ==> NegCount(rankings[i]) <= NegCount(rankings[j]);
  }

  /** What a ranking of `ms` is: each user with a counted message appears
      once, with their count and first-seen names, by count, descending. */
  ghost predicate IsRanking(rs: seq<Ranking>, ms: seq<Message>)
  {
    (forall i, j :: 0 <= i < j < |rs| ==> rs[i].userId != rs[j].userId) &&
    (forall i :: 0 <= i < |rs| ==>
      CountOf(ms, rs[i].userId) > 0 &&
      rs[i].stats.count == CountOf(ms, rs[i].userId) &&
      FirstFrom(ms, rs[i].userId) ==
        Some(User(rs[i].userId, rs[i].stats.username, rs[i].stats.firstName, rs[i].stats.lastName))) &&
    (forall u :: CountOf(ms, u) > 0 ==> exists i :: 0 <= i < |rs| && rs[i].userId == u) &&
    (forall i, j :: 0 <= i < j < |rs| ==> rs[i].stats.count >= rs[j].stats.count)
  }

  lemma MultisetTwice<T>(s: seq<T>, i: nat, j: nat)
    requires i < j < |s| && s[i] == s[j]
    ensures multiset(s)[s[i]] >= 2
  {
    assert s == s[..j] + [s[j]] + s[j + 1..];
    assert s[i] in multiset(s[..j]) by { assert s[..j][i] == s[i]; }
  }

  /** Counting and ranking together produce a ranking of the messages. */
  lemma RankedStats(ms: seq<Message>, stats: map<int, UserStats>, rs: seq<Ranking>)
    requires StatsFor(stats, ms)
    requires multiset(rs) == multiset(Entries(stats))
    requires forall i, j :: 0 <= i < j < |rs| ==> rs[i].stats.count >= rs[j].stats.count
    ensures IsRanking(rs, ms)
  {
    forall i | 0 <= i < |rs|
      ensures rs[i].userId in stats && rs[i] == Ranking(rs[i].userId, stats[rs[i].userId])
    {
      assert rs[i] in multiset(rs);
    }
    forall i, j | 0 <= i < j < |rs| ensures rs[i].userId != rs[j].userId
    {
      assert multiset(Entries(stats))[rs[i]] <= 1;
      if rs[i].userId == rs[j].userId {
        MultisetTwice(rs, i, j);
      }
    }
    forall u | CountOf(ms, u) > 0 ensures exists i :: 0 <= i < |rs| && rs[i].userId == u
    {
      assert Ranking(u, stats[u]) in Entries(stats);
      assert Ranking(u, stats[u]) in multiset(rs);
      var i :| 0 <= i < |rs| && rs[i] == Ranking(u, stats[u]);
    }
  }

  /** Sum of the counts of rows. */
  function TotalCount(rs: seq<Ranking>): nat
  {
    if rs == [] then 0 else rs[0].stats.count + TotalCount(rs[1..])
  }

  /** The user IDs of the rows. */
  function Ids(rs: seq<Ranking>): (ids: seq<int>)
    ensures |ids| == |rs| && forall i :: 0 <= i < |rs| ==> ids[i] == rs[i].userId
  {
    if rs == [] then [] else [rs[0].userId] + Ids(rs[1..])
  }

  /** The counts in `ms` of a list of users. */
  function SumCounts(ms: seq<Message>, ids: seq<int>): nat
  {
    if ids == [] then 0 else CountOf(ms, ids[0]) + SumCounts(ms, ids[1..])
  }

  /** How often `u` occurs in `ids`. */
  function Occurrences(ids: seq<int>, u: int): nat
  {
    if ids == [] then 0 else (if ids[0] == u then 1 else 0) + Occurrences(ids[1..], u)
  }

  lemma {:induction false} OccursOnce(ids: seq<int>, u: int)
    requires forall i, j :: 0 <= i < j < |ids| ==> ids[i] != ids[j]
    requires u in ids
    ensures Occurrences(ids, u) == 1
  {
    if ids[0] != u {
      assert forall i, j :: 0 <= i < j < |ids[1..]| ==> ids[1..][i] != ids[1..][j] by {
        forall i, j | 0 <= i < j < |ids[1..]| ensures ids[1..][i] != ids[1..][j] {
          assert ids[1..][i] == ids[i + 1] && ids[1..][j] == ids[j + 1];
        }
      }
      OccursOnce(ids[1..], u);
    } else {
      OccursNot(ids[1..], u);
    }
  }

  lemma {:induction false} OccursNot(ids: seq<int>, u: int)
    requires u !in ids
    ensures Occurrences(ids, u) == 0
  {
    if ids != [] {
      assert u !in ids[1..];
      OccursNot(ids[1..], u);
    }
  }

  lemma {:induction false} SumCountsEmpty(ids: seq<int>)
    ensures SumCounts([], ids) == 0
  {
    if ids != [] {
      SumCountsEmpty(ids[1..]);
    }
  }

  lemma {:induction false} SumCountsStep(ms: seq<Message>, m: Message, ids: seq<int>)
    ensures SumCounts(ms + [m], ids) ==
      SumCounts(ms, ids) + (if Counted(m) then Occurrences(ids, Sender(m).id) else 0)
  {
    if ids != [] {
      CountStep(ms, m, ids[0]);
      SumCountsStep(ms, m, ids[1..]);
    }
  }

  /** Over a duplicate-free list of users that covers every sender, the
      counts add up to the number of counted messages. */
  lemma {:induction false} SumCountsCovering(ms: seq<Message>, ids: seq<int>)
    requires forall i, j :: 0 <= i < j < |ids| ==> ids[i] != ids[j]
    requires forall u :: CountOf(ms, u) > 0 ==> u in ids
    ensures SumCounts(ms, ids) == NumCounted(ms)
    decreases |ms|
  {
    if ms == [] {
      SumCountsEmpty(ids);
    } else {
      var init, m := ms[..|ms| - 1], ms[|ms| - 1];
      assert ms == init + [m];
      forall u | CountOf(init, u) > 0 ensures u in ids {
        CountStep(init, m, u);
      }
      SumCountsCovering(init, ids);
      SumCountsStep(init, m, ids);
      CountStep(init, m, 0);
      if Counted(m) {
        CountStep(init, m, Sender(m).id);
        OccursOnce(ids, Sender(m).id);
      }
    }
  }

  lemma {:induction false} TotalIsSum(rs: seq<Ranking>, ms: seq<Message>)
    requires forall i :: 0 <= i < |rs| ==> rs[i].stats.count == CountOf(ms, rs[i].userId)
    ensures TotalCount(rs) == SumCounts(ms, Ids(rs))
  {
    if rs != [] {
      assert Ids(rs)[1..] == Ids(rs[1..]);
      TotalIsSum(rs[1..], ms);
    }
  }

  /** The counts of a ranking add up to the number of messages that have a
      sender; `Total Messages` (every fetched message) is at least that. */
  lemma RankingTotal(rs: seq<Ranking>, ms: seq<Message>)
    requires IsRanking(rs, ms)
    ensures TotalCount(rs) == NumCounted(ms) <= |ms|
  {
    TotalIsSum(rs, ms);
    var ids := Ids(rs);
    forall u | CountOf(ms, u) > 0 ensures u in ids {
      var i :| 0 <= i < |rs| && rs[i].userId == u;
      assert ids[i] == u;
    }
    SumCountsCovering(ms, ids);
    NumCountedAtMost(ms);
  }

  lemma {:induction false} NumCountedAtMost(ms: seq<Message>)
    ensures NumCounted(ms) <= |ms|
  {
    if ms != [] {
      NumCountedAtMost(ms[..|ms| - 1]);
    }
  }

  /** The medal of the row at position `i`: gold, silver, bronze, then a bust. */
  function Medal(i: nat): string
  {
    if i == 0 then "🥇" else if i == 1 then "🥈" else if i == 2 then "🥉" else "👤"
  }

  /** First name, then " " and the last name when there is one. */
  function FullName(s: UserStats): string
  {
    s.firstName + (if s.lastName != "" then " " + s.lastName else "")
  }

  /** `"%d\\. %s *%s*%s \\- %d messages\n"`; `escape` is `bot.EscapeMarkdown`. */
  function RankLine(i: nat, r: Ranking, escape: string -> string): string
  {
    var username := if r.stats.username != "" then " \\(@" + r.stats.username + "\\)" else "";
    PadInt(i + 1, 0) + "\\. " + Medal(i) + " *" + escape(FullName(r.stats)) + "*" + username +
      " \\- " + PadInt(r.stats.count, 0) + " messages\n"
  }

  const ShownRows := 10

  /** The lines of the first `n` rows. */
  function Lines(rs: seq<Ranking>, n: nat, escape: string -> string): string
    requires n <= |rs|
  {
    if n == 0 then "" else Lines(rs, n - 1, escape) + RankLine(n - 1, rs[n - 1], escape)
  }

  /** The rows written out: the first ten, or all when there are fewer. */
  function Shown(rs: seq<Ranking>, escape: string -> string): string
  {
    Lines(rs, if |rs| < ShownRows then |rs| else ShownRows, escape)
  }

  lemma {:induction false} LinesOfPrefix(rs: seq<Ranking>, extra: seq<Ranking>, n: nat, escape: string -> string)
    requires n <= |rs|
    ensures Lines(rs + extra, n, escape) == Lines(rs, n, escape)
  {
    if n > 0 {
      assert (rs + extra)[n - 1] == rs[n - 1];
      LinesOfPrefix(rs, extra, n - 1, escape);
    }
  }

  /** Rows after the tenth never show. */
  lemma TopTenOnly(rs: seq<Ranking>, extra: seq<Ranking>, escape: string -> string)
    requires |rs| >= ShownRows
    ensures Shown(rs + extra, escape) == Shown(rs, escape)
  {
    LinesOfPrefix(rs, extra, ShownRows, escape);
  }

  /** One row of the ranking loop, written after the rows before it. */
  method WriteRow(rankings: seq<Ranking>, i: nat, escape: string -> string, s: string) returns (r: string)
    requires i < |rankings| && s == Lines(rankings, i, escape)
    ensures r == Lines(rankings, i + 1, escape)
  {
    r := s + RankLine(i, rankings[i], escape);
  }

  /** The ranking loop with its `break` at ten. */
  method WriteRankings(rankings: seq<Ranking>, escape: string -> string) returns (s: string)
    ensures s == Shown(rankings, escape)
  {
    s := "";
    var i := 0;
    while i < |rankings|
      invariant i <= |rankings| && i <= ShownRows
      invariant s == Lines(rankings, i, escape)
    {
      if i >= ShownRows {
        break;
      }
      s := WriteRow(rankings, i, escape, s);
      i := i + 1;
    }
  }

  function Header(total: nat): string
  {
    "*Chat Activity Leaderboard \\(Last 7 Days\\)*\n\n" + "Total Messages: *" + PadInt(total, 0) + "*\n\n"
  }

  /** The footer; `generatedAt` is the local time as "2006-01-02 15:04:05". */
  function Footer(generatedAt: string, escape: string -> string): string
  {
    "\n_Generated at: " + escape(generatedAt) + "_"
  }

  const FetchFailedText := "Error: Failed to retrieve chat messages."
  const NoMessagesText := "No messages found in the last 7 days."

  /** The text the loading message is edited to, from the fetched messages
      of the chat. The ranking the text was written from is returned as a
      ghost result. */
  method LeaderboardText(fetched: Result<seq<Message>, ExtError>, escape: string -> string, generatedAt: string)
    returns (text: string, ghost rankings: seq<Ranking>)
    requires fetched.Ok? ==> AllHaveUpdates(fetched.value)
    ensures fetched.Err? ==> text == FetchFailedText
    ensures fetched.Ok? && fetched.value == [] ==> text == NoMessagesText
    ensures fetched.Ok? && fetched.value != [] ==>
      IsRanking(rankings, fetched.value) &&
      text == Header(|fetched.value|) + Shown(rankings, escape) + Footer(generatedAt, escape)
  {
    rankings := [];
    if fetched.Err? {
      return FetchFailedText, rankings;
    }
    var messages := fetched.value;
    if |messages| == 0 {
      return NoMessagesText, rankings;
    }
    var stats := CountMessages(messages);
    var rows := Rank(stats);
    RankedStats(messages, stats, rows);
    rankings := rows;
    var lines := WriteRankings(rows, escape);
    text := Header(|messages|) + lines + Footer(generatedAt, escape);
  }
}
