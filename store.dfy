/**
 * The conversation store of database.js, with its three SQLite tables held in
 * memory: the append-only turn log `conversations`, the dedup table
 * `processed_messages` (id to insertion time) and the follow-up counters
 * `poke_counts`. Timestamps are whole seconds and the clock is a parameter.
 *
 * `ORDER BY timestamp` leaves ties open; here rows with equal timestamps keep the
 * order in which they were logged, as if the query also ordered by the row id.
 */
module Store {
  import opened Wrappers
  import opened Seqs

  const Week: int := 7 * 24 * 60 * 60
  const Day: int := 24 * 60 * 60
  const HalfDay: int := 12 * 60 * 60

  const UserRole := "user"
  const AssistantRole := "assistant"

  /** A row of `conversations`. */
  datatype Turn = Turn(number: string, role: string, content: string, timestamp: int)

  /** A row as `getConversationHistory` selects it. */
  datatype Entry = Entry(role: string, content: string, timestamp: int)

  /** A row of `poke_counts`. */
  datatype PokeRow = PokeRow(count: nat, lastPoke: int)

  datatype Tables = Tables(turns: seq<Turn>, processed: map<string, int>, pokes: map<string, PokeRow>)

  /** A row of `getAllConversations`. */
  datatype Summary = Summary(waId: string, messageCount: nat, lastMessage: int)

  /** A row of `getClientsNeedingPoke`. */
  datatype Candidate = Candidate(waId: string, lastUserMsg: int, lastAnyMsg: int)

  // ---------------------------------------------------------------------------
  // Reading the turn log

  function EntryOf(t: Turn): Entry {
    Entry(t.role, t.content, t.timestamp)
  }

  function Entries(ts: seq<Turn>): (es: seq<Entry>)
    ensures |es| == |ts| && forall i | 0 <= i < |ts| :: es[i] == EntryOf(ts[i])
  {
    if ts == [] then [] else Entries(ts[..|ts| - 1]) + [EntryOf(ts[|ts| - 1])]
  }

  /** `WHERE whatsapp_number = n`, in log order. */
  function TurnsOf(turns: seq<Turn>, n: string): (r: seq<Turn>)
    ensures |r| <= |turns|
    ensures forall t :: t in r <==> t in turns && t.number == n
  {
    if turns == [] then []
    else
      var last := turns[|turns| - 1];
      TurnsOf(turns[..|turns| - 1], n) + (if last.number == n then [last] else [])
  }

  function UserTurns(ts: seq<Turn>): (r: seq<Turn>)
    ensures forall t :: t in r <==> t in ts && t.role == UserRole
  {
    if ts == [] then []
    else
      var last := ts[|ts| - 1];
      UserTurns(ts[..|ts| - 1]) + (if last.role == UserRole then [last] else [])
  }

  /** The sort key that orders turns by ascending timestamp. */
  function Age(t: Turn): int {
    -t.timestamp
  }

  ghost predicate Chronological(ts: seq<Turn>) {
    forall i, j | 0 <= i < j < |ts| :: ts[i].timestamp <= ts[j].timestamp
  }

  /**
   * `getConversationHistory(n, limit)`: the `limit` most recent turns of `n`
   * (`ORDER BY timestamp DESC LIMIT limit`), turned back into ascending order.
   */
  function History(turns: seq<Turn>, n: string, limit: nat): seq<Entry> {
    var asc := SortDesc(TurnsOf(turns, n), Age);
    var k := if limit <= |asc| then limit else |asc|;
    Entries(asc[|asc| - k..])
  }

  /** One logged turn joins its own number's conversation, at the end, and no other. */
  lemma TurnsOfLogged(turns: seq<Turn>, n: string, role: string, content: string, now: int, m: string)
    ensures TurnsOf(Logged(turns, n, role, content, now), m)
         == TurnsOf(turns, m) + (if n == m then [Turn(n, role, content, now)] else [])
  {
    assert Logged(turns, n, role, content, now)[..|turns|] == turns;
  }

  /** A conversation filtered again by its own number is itself, so its history is the same. */
  lemma TurnsOfOwn(turns: seq<Turn>, n: string, limit: nat)
    ensures TurnsOf(TurnsOf(turns, n), n) == TurnsOf(turns, n)
    ensures History(TurnsOf(turns, n), n, limit) == History(turns, n, limit)
  {
    TurnsOfNumber(turns, n);
    AllOfNumber(TurnsOf(turns, n), n);
  }

  lemma TurnsOfNumber(turns: seq<Turn>, n: string)
    ensures forall i | 0 <= i < |TurnsOf(turns, n)| :: TurnsOf(turns, n)[i].number == n
  {
    var mine := TurnsOf(turns, n);
    forall i | 0 <= i < |mine|
      ensures mine[i].number == n
    {
      assert mine[i] in mine;
    }
  }

  lemma {:induction false} AllOfNumber(s: seq<Turn>, n: string)
    requires forall i | 0 <= i < |s| :: s[i].number == n
    ensures TurnsOf(s, n) == s
  {
    if s != [] {
      var init := s[..|s| - 1];
      AllOfNumber(init, n);
      assert init + [s[|s| - 1]] == s;
    }
  }

  /** `MAX(timestamp)`, which is NULL over no rows. */
  function MaxStamp(ts: seq<Turn>): (r: Option<int>)
    ensures r.None? <==> ts == []
    ensures r.Some? ==>
      (exists i | 0 <= i < |ts| :: ts[i].timestamp == r.value) && (forall i | 0 <= i < |ts| :: ts[i].timestamp <= r.value)
  {
    if ts == [] then None
    else
      var last := ts[|ts| - 1].timestamp;
      var m := MaxStamp(ts[..|ts| - 1]);
      assert forall i | 0 <= i < |ts| - 1 :: ts[..|ts| - 1][i] == ts[i];
      if m.Some? && m.value >= last then m else Some(last)
  }

  /** The numbers that occur in the log, each once, in order of first appearance. */
  function Numbers(turns: seq<Turn>): (ns: seq<string>)
    ensures Distinct(ns)
    ensures forall n :: n in ns <==> TurnsOf(turns, n) != []
  {
    if turns == [] then []
    else
      var last := turns[|turns| - 1];
      var init := Numbers(turns[..|turns| - 1]);
      assert last in TurnsOf(turns, last.number);
      if last.number in init then init else init + [last.number]
  }

  // ---------------------------------------------------------------------------
  // Queries

  /** `isMessageProcessed` */
  predicate IsProcessed(processed: map<string, int>, id: string) {
    id in processed
  }

  /** `getPokeCount`: the stored count, 0 for a number without a row. */
  function PokeCount(pokes: map<string, PokeRow>, n: string): nat {
    if n in pokes then pokes[n].count else 0
  }

  function LastUser(turns: seq<Turn>, n: string): Option<int> {
    MaxStamp(UserTurns(TurnsOf(turns, n)))
  }

  function LastAny(turns: seq<Turn>, n: string): Option<int> {
    MaxStamp(TurnsOf(turns, n))
  }

  /**
   * The `WHERE` of `getClientsNeedingPoke`: a user turn in the last 24 hours (a
   * number without user turns has a NULL maximum and fails), and no turn of any
   * role in the last 12.
   */
  function NeedsPoke(turns: seq<Turn>, n: string, now: int): (r: Option<Candidate>)
    ensures r.Some? ==> r.value.waId == n
  {
    match (LastUser(turns, n), LastAny(turns, n))
    case (Some(u), Some(a)) =>
      if u > now - Day && a < now - HalfDay then Some(Candidate(n, u, a)) else None
    case _ => None
  }

  function Candidates(turns: seq<Turn>, ns: seq<string>, now: int): (r: seq<Candidate>)
    ensures forall c | c in r :: c.waId in ns
  {
    if ns == [] then []
    else
      var c := NeedsPoke(turns, ns[|ns| - 1], now);
      Candidates(turns, ns[..|ns| - 1], now) + (if c.Some? then [c.value] else [])
  }

  /** `getClientsNeedingPoke`, its rows in order of the numbers' first appearance in the log. */
  function ClientsNeedingPoke(turns: seq<Turn>, now: int): seq<Candidate> {
    Candidates(turns, Numbers(turns), now)
  }

  function SummaryOf(turns: seq<Turn>, n: string): Summary {
    Summary(n, |TurnsOf(turns, n)|, LastAny(turns, n).GetOr(0))
  }

  function Summaries(turns: seq<Turn>, ns: seq<string>): (r: seq<Summary>)
    ensures |r| == |ns| && forall i | 0 <= i < |ns| :: r[i] == SummaryOf(turns, ns[i])
  {
    if ns == [] then [] else Summaries(turns, ns[..|ns| - 1]) + [SummaryOf(turns, ns[|ns| - 1])]
  }

  function LastMessage(s: Summary): int {
    s.lastMessage
  }

  /**
   * `getAllConversations`: one row per number, most recent conversation first; ties
   * keep the order of the numbers' first appearance in the log.
   */
  function AllConversations(turns: seq<Turn>): seq<Summary> {
    SortDesc(Summaries(turns, Numbers(turns)), LastMessage)
  }

  // ---------------------------------------------------------------------------
  // Table updates

  /** `logMessage`: one row appended, stamped with the current time. */
  function Logged(turns: seq<Turn>, n: string, role: string, content: string, now: int): seq<Turn> {
    turns + [Turn(n, role, content, now)]
  }

  /** The records that `timestamp < cutoff` does not delete. */
  function Prune(processed: map<string, int>, cutoff: int): map<string, int> {
    map k | k in processed && processed[k] >= cutoff :: processed[k]
  }

  /** The `INSERT OR IGNORE` of `markMessageProcessed`: an existing record keeps its timestamp. */
  function Inserted(processed: map<string, int>, id: string, now: int): map<string, int> {
    if id in processed then processed else processed[id := now]
  }

  /** `markMessageProcessed`: the insert, then the delete of every record older than seven days. */
  function Marked(processed: map<string, int>, id: string, now: int): map<string, int> {
    Prune(Inserted(processed, id, now), now - Week)
  }

  /** `incrementPokeCount`: the upsert that starts a count at 1 and otherwise adds 1. */
  function Incremented(pokes: map<string, PokeRow>, n: string, now: int): map<string, PokeRow> {
    pokes[n := PokeRow(PokeCount(pokes, n) + 1, now)]
  }

  /** `resetPokeCount` */
  function Reset(pokes: map<string, PokeRow>, n: string): map<string, PokeRow> {
    pokes - {n}
  }

  /** The database, as an object whose methods update its tables. */
  class ConversationStore {
    var turns: seq<Turn>
    var processed: map<string, int>
    var pokes: map<string, PokeRow>

    /**
     * `initDB`: the database file is reopened with the rows it already holds
     * (`initial`; all three tables empty for a new file), creating any missing table.
     */
    constructor (initial: Tables)
      ensures Snapshot() == initial
    {
      turns := initial.turns;
      processed := initial.processed;
      pokes := initial.pokes;
    }

    function Snapshot(): Tables
      reads this
    {
      Tables(turns, processed, pokes)
    }

    method LogMessage(n: string, role: string, content: string, now: int)
      modifies this
      ensures turns == Logged(old(turns), n, role, content, now)
      ensures processed == old(processed) && pokes == old(pokes)
    {
      turns := turns + [Turn(n, role, content, now)];
    }

    method MarkMessageProcessed(id: string, now: int)
      modifies this
      ensures processed == Marked(old(processed), id, now)
      ensures turns == old(turns) && pokes == old(pokes)
    {
      if id !in processed {
        processed := processed[id := now];
      }
      processed := Prune(processed, now - Week);
    }

    /** The insert of `markMessageProcessed` alone, as it stands when the prune after it throws. */
    method InsertProcessed(id: string, now: int)
      modifies this
      ensures processed == Inserted(old(processed), id, now)
      ensures turns == old(turns) && pokes == old(pokes)
    {
      if id !in processed {
        processed := processed[id := now];
      }
    }

    method IncrementPokeCount(n: string, now: int)
      modifies this
      ensures pokes == Incremented(old(pokes), n, now)
      ensures turns == old(turns) && processed == old(processed)
    {
      if n in pokes {
        pokes := pokes[n := PokeRow(pokes[n].count + 1, now)];
      } else {
        pokes := pokes[n := PokeRow(1, now)];
      }
    }

    method ResetPokeCount(n: string)
      modifies this
      ensures pokes == Reset(old(pokes), n)
      ensures turns == old(turns) && processed == old(processed)
    {
      pokes := pokes - {n};
    }
  }

  // ---------------------------------------------------------------------------
  // Conversation history

  lemma HistoryLength(turns: seq<Turn>, n: string, limit: nat)
    ensures var c := |TurnsOf(turns, n)|;
      |History(turns, n, limit)| == if limit <= c then limit else c
  {
    SortDescPermutes(TurnsOf(turns, n), Age);
  }

  /** The history is in ascending time order. */
  lemma HistoryAscending(turns: seq<Turn>, n: string, limit: nat)
    ensures var h := History(turns, n, limit);
      forall i, j | 0 <= i < j < |h| :: h[i].timestamp <= h[j].timestamp
  {
    var h := History(turns, n, limit);
    forall i, j | 0 <= i < j < |h| ensures h[i].timestamp <= h[j].timestamp {
      HistoryPairAscending(turns, n, limit, i, j);
    }
  }

  lemma HistoryPairAscending(turns: seq<Turn>, n: string, limit: nat, i: nat, j: nat)
    requires i < j < |History(turns, n, limit)|
    ensures History(turns, n, limit)[i].timestamp <= History(turns, n, limit)[j].timestamp
  {
    var asc := SortDesc(TurnsOf(turns, n), Age);
    SortDescSorted(TurnsOf(turns, n), Age);
    var k := if limit <= |asc| then limit else |asc|;
    WindowAscending(asc, k, i, j);
  }

  lemma WindowAscending(asc: seq<Turn>, k: nat, i: nat, j: nat)
    requires SortedDesc(asc, Age) && i < j < k <= |asc|
    ensures Entries(asc[|asc| - k..])[i].timestamp <= Entries(asc[|asc| - k..])[j].timestamp
  {
    assert Age(asc[|asc| - k + i]) >= Age(asc[|asc| - k + j]);
  }

  /** In an ascending sequence, a strictly later timestamp sits at a strictly later position. */
  lemma LaterIsAfter(asc: seq<Turn>, a: nat, b: nat)
    requires SortedDesc(asc, Age) && a < |asc| && b < |asc|
    requires asc[a].timestamp > asc[b].timestamp
    ensures a > b
  {
  }

  /** Only turns of `n` are returned. */
  lemma HistoryOfNumber(turns: seq<Turn>, n: string, limit: nat)
    ensures forall e | e in History(turns, n, limit) :: exists t | t in turns :: t.number == n && EntryOf(t) == e
  {
    forall e | e in History(turns, n, limit)
      ensures exists t | t in turns :: t.number == n && EntryOf(t) == e
    {
      HistoryEntryFrom(turns, n, limit, e);
    }
  }

  lemma HistoryEntryFrom(turns: seq<Turn>, n: string, limit: nat, e: Entry)
    requires e in History(turns, n, limit)
    ensures exists t | t in turns :: t.number == n && EntryOf(t) == e
  {
    var mine := TurnsOf(turns, n);
    var asc := SortDesc(mine, Age);
    var k := if limit <= |asc| then limit else |asc|;
    var t := EntryFromWindow(asc[|asc| - k..], e);
    assert t in asc;
    SortDescPermutes(mine, Age);
    assert t in multiset(mine);
  }

  /** An entry of a window of turns is the entry of one of them. */
  lemma EntryFromWindow(w: seq<Turn>, e: Entry) returns (t: Turn)
    requires e in Entries(w)
    ensures t in w && EntryOf(t) == e
  {
    var i :| 0 <= i < |w| && Entries(w)[i] == e;
    t := w[i];
  }

  /**
   * The entries returned are the most recent ones: a turn of `n` newer than some
   * returned entry is itself returned.
   */
  lemma HistoryMostRecent(turns: seq<Turn>, n: string, limit: nat)
    ensures var h := History(turns, n, limit);
      forall t, i | t in turns && t.number == n && 0 <= i < |h| && t.timestamp > h[i].timestamp :: EntryOf(t) in h
  {
    var h := History(turns, n, limit);
    forall t, i | t in turns && t.number == n && 0 <= i < |h| && t.timestamp > h[i].timestamp
      ensures EntryOf(t) in h
    {
      NewerIsKept(turns, n, limit, t, i);
    }
  }

  lemma NewerIsKept(turns: seq<Turn>, n: string, limit: nat, t: Turn, i: nat)
    requires t in turns && t.number == n
    requires i < |History(turns, n, limit)| && t.timestamp > History(turns, n, limit)[i].timestamp
    ensures EntryOf(t) in History(turns, n, limit)
  {
    var mine := TurnsOf(turns, n);
    var asc := SortDesc(mine, Age);
    SortDescPermutes(mine, Age);
    SortDescSorted(mine, Age);
    var k := if limit <= |asc| then limit else |asc|;
    assert t in mine;
    assert t in multiset(asc);
    WindowKeepsNewer(asc, k, t, i);
    EntryInEntries(asc[|asc| - k..], t);
  }

  /** The last `k` of an ascending sequence hold every element newer than one of them. */
  lemma WindowKeepsNewer(asc: seq<Turn>, k: nat, t: Turn, i: nat)
    requires SortedDesc(asc, Age) && t in asc && i < k <= |asc|
    requires t.timestamp > asc[|asc| - k + i].timestamp
    ensures t in asc[|asc| - k..]
  {
    var j :| 0 <= j < |asc| && asc[j] == t;
    LaterIsAfter(asc, j, |asc| - k + i);
    assert asc[|asc| - k..][j - (|asc| - k)] == t;
  }

  lemma EntryInEntries(w: seq<Turn>, t: Turn)
    requires t in w
    ensures EntryOf(t) in Entries(w)
  {
    var j :| 0 <= j < |w| && w[j] == t;
    assert Entries(w)[j] == EntryOf(t);
  }

  lemma {:induction false} TurnsOfChronological(turns: seq<Turn>, n: string)
    requires Chronological(turns)
    ensures Chronological(TurnsOf(turns, n))
  {
    if turns != [] {
      var init := turns[..|turns| - 1];
      var last := turns[|turns| - 1];
      assert Chronological(init) by {
        forall i, j | 0 <= i < j < |init| ensures init[i].timestamp <= init[j].timestamp {
          assert init[i] == turns[i] && init[j] == turns[j];
        }
      }
      TurnsOfChronological(init, n);
      var r := TurnsOf(init, n);
      forall t | t in r ensures t.timestamp <= last.timestamp {
        var i :| 0 <= i < |init| && init[i] == t;
        assert turns[i] == t;
      }
    }
  }

  /**
   * With a clock that never goes back, the history is simply the last `limit` turns
   * of `n` in the order they were logged: the sort changes nothing.
   */
  lemma HistoryInLogOrder(turns: seq<Turn>, n: string, limit: nat)
    requires Chronological(turns)
    ensures var mine := TurnsOf(turns, n);
      var k := if limit <= |mine| then limit else |mine|;
      History(turns, n, limit) == Entries(mine[|mine| - k..])
  {
    var mine := TurnsOf(turns, n);
    TurnsOfChronological(turns, n);
    SortDescOfSorted(mine, Age);
  }

  lemma LoggedChronological(turns: seq<Turn>, n: string, role: string, content: string, now: int)
    requires Chronological(turns) && forall t | t in turns :: t.timestamp <= now
    ensures Chronological(Logged(turns, n, role, content, now))
  {
    var after := Logged(turns, n, role, content, now);
    forall i, j | 0 <= i < j < |after| ensures after[i].timestamp <= after[j].timestamp {
      if j < |turns| {
        assert after[i] == turns[i] && after[j] == turns[j];
      } else {
        assert after[i] == turns[i];
        assert turns[i] in turns;
      }
    }
  }

  /**
   * Read after write: once a turn is logged at a time no earlier than the log's
   * turns, it is the last entry of its number's history.
   */
  lemma HistoryEndsWithLatest(turns: seq<Turn>, n: string, role: string, content: string, now: int, limit: nat)
    requires Chronological(turns) && forall t | t in turns :: t.timestamp <= now
    requires limit > 0
    ensures var h := History(Logged(turns, n, role, content, now), n, limit);
      |h| > 0 && h[|h| - 1] == Entry(role, content, now)
  {
    var after := Logged(turns, n, role, content, now);
    LoggedChronological(turns, n, role, content, now);
    HistoryInLogOrder(after, n, limit);
    assert after[..|after| - 1] == turns;
    var mine := TurnsOf(after, n);
    assert mine == TurnsOf(turns, n) + [Turn(n, role, content, now)];
    var k := if limit <= |mine| then limit else |mine|;
    assert mine[|mine| - k..][k - 1] == Turn(n, role, content, now);
  }

  // ---------------------------------------------------------------------------
  // Processed messages

  /**
   * After marking, the id is recorded unless it already was and that record is more
   * than seven days old: the prune then removes it, the insert having been ignored.
   */
  lemma MarkedContains(processed: map<string, int>, id: string, now: int)
    ensures IsProcessed(Marked(processed, id, now), id) <==> id !in processed || processed[id] >= now - Week
  {
  }

  /** Every record that remains is at most seven days old, and it kept its own time. */
  lemma MarkedFresh(processed: map<string, int>, id: string, now: int)
    ensures var m := Marked(processed, id, now);
      forall k | k in m :: m[k] >= now - Week && m[k] == (if k in processed then processed[k] else now)
  {
  }

  /** Other ids are kept exactly when they are fresh, with their timestamps. */
  lemma MarkedOthers(processed: map<string, int>, id: string, now: int, other: string)
    requires other != id
    ensures var m := Marked(processed, id, now);
      (other in m <==> other in processed && processed[other] >= now - Week)
      && (other in m ==> m[other] == processed[other])
  {
  }

  /** Marking an id that is recorded a second time keeps its single record and its time. */
  lemma MarkedIdempotent(processed: map<string, int>, id: string, now: int)
    requires id in Marked(processed, id, now)
    ensures Marked(Marked(processed, id, now), id, now) == Marked(processed, id, now)
  {
  }

  // ---------------------------------------------------------------------------
  // Poke counters

  lemma PokeCounters(pokes: map<string, PokeRow>, n: string, other: string, now: int)
    requires other != n
    ensures PokeCount(map[], n) == 0
    ensures PokeCount(Incremented(pokes, n, now), n) == PokeCount(pokes, n) + 1
    ensures PokeCount(Reset(pokes, n), n) == 0
    ensures PokeCount(Incremented(pokes, n, now), other) == PokeCount(pokes, other)
    ensures PokeCount(Reset(pokes, n), other) == PokeCount(pokes, other)
  {
  }

  // ---------------------------------------------------------------------------
  // Clients needing a poke

  lemma {:induction false} CandidatesMembers(turns: seq<Turn>, ns: seq<string>, now: int, c: Candidate)
    ensures c in Candidates(turns, ns, now) <==> c.waId in ns && NeedsPoke(turns, c.waId, now) == Some(c)
  {
    if ns != [] {
      var init := ns[..|ns| - 1];
      CandidatesMembers(turns, init, now, c);
      assert ns == init + [ns[|ns| - 1]];
    }
  }

  ghost predicate DistinctIds(r: seq<Candidate>) {
    forall i, j | 0 <= i < j < |r| :: r[i].waId != r[j].waId
  }

  lemma {:induction false} CandidatesDistinct(turns: seq<Turn>, ns: seq<string>, now: int)
    requires Distinct(ns)
    ensures DistinctIds(Candidates(turns, ns, now))
  {
    if ns != [] {
      var init, n := ns[..|ns| - 1], ns[|ns| - 1];
      assert Distinct(init) by {
        forall i, j | 0 <= i < j < |init| ensures init[i] != init[j] {
          assert init[i] == ns[i] && init[j] == ns[j];
        }
      }
      assert n !in init by {
        forall j | 0 <= j < |init| ensures init[j] != n {
          assert init[j] == ns[j];
        }
      }
      CandidatesDistinct(turns, init, now);
      var r0 := Candidates(turns, init, now);
      var r := Candidates(turns, ns, now);
      var c := NeedsPoke(turns, n, now);
      assert r == r0 + (if c.Some? then [c.value] else []);
      forall i, j | 0 <= i < j < |r| ensures r[i].waId != r[j].waId {
        if j >= |r0| {
          assert c.Some? && r[j] == c.value && r[j].waId == n;
          assert r[i] == r0[i] && r0[i] in r0;
          assert r0[i].waId in init;
        } else {
          assert r[i] == r0[i] && r[j] == r0[j];
        }
      }
    }
  }

  lemma UserTurnsLater(ts: seq<Turn>, bound: int)
    ensures var u := MaxStamp(UserTurns(ts));
      (u.Some? && u.value > bound) <==> exists t | t in ts :: t.role == UserRole && t.timestamp > bound
  {
    var us := UserTurns(ts);
    var u := MaxStamp(us);
    if exists t | t in ts :: t.role == UserRole && t.timestamp > bound {
      var t :| t in ts && t.role == UserRole && t.timestamp > bound;
      assert t in us;
      var i :| 0 <= i < |us| && us[i] == t;
    }
    if u.Some? && u.value > bound {
      var i :| 0 <= i < |us| && us[i].timestamp == u.value;
      assert us[i] in us;
    }
  }

  lemma AllTurnsEarlier(ts: seq<Turn>, bound: int)
    ensures var a := MaxStamp(ts);
      (a.Some? && a.value < bound) <==> ts != [] && forall t | t in ts :: t.timestamp < bound
  {
    var a := MaxStamp(ts);
    if a.Some? && a.value < bound {
      forall t | t in ts ensures t.timestamp < bound {
        var i :| 0 <= i < |ts| && ts[i] == t;
      }
    }
    if ts != [] && forall t | t in ts :: t.timestamp < bound {
      var i :| 0 <= i < |ts| && ts[i].timestamp == a.value;
      assert ts[i] in ts;
    }
  }

  /** The condition on one number, stated on its turns. */
  lemma NeedsPokeIff(turns: seq<Turn>, n: string, now: int)
    ensures NeedsPoke(turns, n, now).Some? <==>
      (exists t | t in turns :: t.number == n && t.role == UserRole && t.timestamp > now - Day)
      && (forall t | t in turns && t.number == n :: t.timestamp < now - HalfDay)
  {
    var mine := TurnsOf(turns, n);
    UserTurnsLater(mine, now - Day);
    AllTurnsEarlier(mine, now - HalfDay);
    assert (exists t | t in mine :: t.role == UserRole && t.timestamp > now - Day)
      == (exists t | t in turns :: t.number == n && t.role == UserRole && t.timestamp > now - Day);
    assert (forall t | t in mine :: t.timestamp < now - HalfDay)
      == (forall t | t in turns && t.number == n :: t.timestamp < now - HalfDay);
  }

  /**
   * A number needs a poke exactly when it has a user turn less than 24 hours old
   * and every one of its turns is more than 12 hours old. A number without user
   * turns is never returned.
   */
  lemma PokeEligibility(turns: seq<Turn>, now: int, n: string)
    ensures (exists c | c in ClientsNeedingPoke(turns, now) :: c.waId == n) <==>
      (exists t | t in turns :: t.number == n && t.role == UserRole && t.timestamp > now - Day)
      && (forall t | t in turns && t.number == n :: t.timestamp < now - HalfDay)
  {
    var r := ClientsNeedingPoke(turns, now);
    var ns := Numbers(turns);
    NeedsPokeIff(turns, n, now);
    if exists c | c in r :: c.waId == n {
      var c :| c in r && c.waId == n;
      CandidatesMembers(turns, ns, now, c);
    }
    var p := NeedsPoke(turns, n, now);
    if p.Some? {
      assert LastAny(turns, n).Some?;
      CandidatesMembers(turns, ns, now, p.value);
    }
  }

  /**
   * Each row holds the time of its number's latest user turn and latest turn, and
   * no number is returned twice.
   */
  lemma PokeRows(turns: seq<Turn>, now: int)
    ensures var r := ClientsNeedingPoke(turns, now);
      && (forall c | c in r :: Some(c.lastUserMsg) == LastUser(turns, c.waId) && Some(c.lastAnyMsg) == LastAny(turns, c.waId))
      && DistinctIds(r)
  {
    var r := ClientsNeedingPoke(turns, now);
    var ns := Numbers(turns);
    CandidatesDistinct(turns, ns, now);
    forall c | c in r ensures Some(c.lastUserMsg) == LastUser(turns, c.waId) && Some(c.lastAnyMsg) == LastAny(turns, c.waId) {
      CandidatesMembers(turns, ns, now, c);
    }
  }

  // ---------------------------------------------------------------------------
  // All conversations

  lemma AllConversationsPermutes(turns: seq<Turn>)
    ensures var ns, r := Numbers(turns), AllConversations(turns);
      |r| == |ns| && forall s :: s in r <==> s in Summaries(turns, ns)
  {
    var ns := Numbers(turns);
    var ss := Summaries(turns, ns);
    var r := AllConversations(turns);
    SortDescPermutes(ss, LastMessage);
    forall s ensures s in r <==> s in ss {
      assert s in r <==> s in multiset(r);
      assert s in ss <==> s in multiset(ss);
    }
  }

  /**
   * `getAllConversations` has a row for every number in the log and for no other,
   * each holding the number's count of turns and its latest timestamp.
   */
  lemma AllConversationsRows(turns: seq<Turn>)
    ensures var r := AllConversations(turns);
      && |r| == |Numbers(turns)|
      && (forall n :: (exists s | s in r :: s.waId == n) <==> TurnsOf(turns, n) != [])
      && (forall s | s in r :: s.messageCount == |TurnsOf(turns, s.waId)| > 0 && Some(s.lastMessage) == LastAny(turns, s.waId))
  {
    var r := AllConversations(turns);
    AllConversationsPermutes(turns);
    forall n ensures (exists s | s in r :: s.waId == n) <==> TurnsOf(turns, n) != [] {
      RowForNumber(turns, n);
    }
    forall s | s in r ensures s.messageCount == |TurnsOf(turns, s.waId)| > 0 && Some(s.lastMessage) == LastAny(turns, s.waId) {
      SummaryFromNumber(turns, Numbers(turns), s);
    }
  }

  lemma RowForNumber(turns: seq<Turn>, n: string)
    requires forall s :: s in AllConversations(turns) <==> s in Summaries(turns, Numbers(turns))
    ensures (exists s | s in AllConversations(turns) :: s.waId == n) <==> TurnsOf(turns, n) != []
  {
    var ns := Numbers(turns);
    var ss := Summaries(turns, ns);
    if TurnsOf(turns, n) != [] {
      var i :| 0 <= i < |ns| && ns[i] == n;
      assert ss[i] in ss;
    }
    if exists s | s in AllConversations(turns) :: s.waId == n {
      var s :| s in AllConversations(turns) && s.waId == n;
      SummaryFromNumber(turns, ns, s);
    }
  }

  /** A summary row is the summary of one of the listed numbers. */
  lemma SummaryFromNumber(turns: seq<Turn>, ns: seq<string>, s: Summary)
    requires s in Summaries(turns, ns)
    ensures s.waId in ns && s == SummaryOf(turns, s.waId)
  {
    var ss := Summaries(turns, ns);
    var i :| 0 <= i < |ss| && ss[i] == s;
    assert ns[i] in ns;
  }

  /** One row per number, and the most recently active number comes first. */
  lemma AllConversationsOrder(turns: seq<Turn>)
    ensures var r := AllConversations(turns);
      && (forall i, j | 0 <= i < j < |r| :: r[i].waId != r[j].waId)
      && (forall i, j | 0 <= i < j < |r| :: r[i].lastMessage >= r[j].lastMessage)
  {
    var r := AllConversations(turns);
    AllConversationsSorted(turns);
    AllConversationsDistinct(turns);
    AllConversationsPermutes(turns);
    forall i, j | 0 <= i < j < |r| ensures r[i].waId != r[j].waId {
      assert r[i] in r && r[j] in r;
      SummaryFromNumber(turns, Numbers(turns), r[i]);
      SummaryFromNumber(turns, Numbers(turns), r[j]);
    }
  }

  /** The rows come in non-increasing order of last message. */
  lemma AllConversationsSorted(turns: seq<Turn>)
    ensures var r := AllConversations(turns);
      forall i, j | 0 <= i < j < |r| :: r[i].lastMessage >= r[j].lastMessage
  {
    var r := AllConversations(turns);
    SortDescSorted(Summaries(turns, Numbers(turns)), LastMessage);
    assert forall i, j | 0 <= i < j < |r| :: LastMessage(r[i]) >= LastMessage(r[j]);
  }

  /** No row is listed twice. */
  lemma AllConversationsDistinct(turns: seq<Turn>)
    ensures Distinct(AllConversations(turns))
  {
    var ns := Numbers(turns);
    var ss := Summaries(turns, ns);
    SortDescPermutes(ss, LastMessage);
    assert Distinct(ss) by {
      forall i, j | 0 <= i < j < |ss| ensures ss[i] != ss[j] {
        assert ss[i].waId == ns[i] && ss[j].waId == ns[j];
      }
    }
    DistinctPermutation(ss, AllConversations(turns));
  }
}
