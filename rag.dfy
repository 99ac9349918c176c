/**
 * The keyword context retriever of rag.js: a bag-of-words scorer over an
 * in-memory list of chunks, a stable ranking by score, and greedy packing of the
 * best chunks into a prompt section under a character budget.
 *
 * Scores are kept in tenths: a query word found n times in a chunk adds 10 + n,
 * where the source adds the float 1 + 0.1 * n.
 */
module Rag {
  import opened Wrappers
  import opened Strings
  import opened Seqs

  /** How much of a chunk's content goes into the context. */
  const PreviewLength: nat := 800

  datatype Chunk = Chunk(id: string, source: string, content: string)

  /** A search hit; `score` is in tenths. */
  datatype Scored = Scored(score: nat, chunk: Chunk)

  /** What the retriever reports for each chunk it put into the context; the score as `toFixed(2)` prints it. */
  datatype UsedChunk = UsedChunk(id: string, source: string, score: string)

  datatype Retrieval = Retrieval(context: string, chunks: seq<UsedChunk>, used: bool)

  /** The module state `ragChunks` / `isLoaded`, as a value. */
  datatype Corpus = Corpus(chunks: seq<Chunk>, loaded: bool)

  /** JavaScript's `\w`. */
  predicate IsWordChar(c: char) {
    'a' <= c <= 'z' || 'A' <= c <= 'Z' || '0' <= c <= '9' || c == '_'
  }

  /** `w.replace(/[^\w]/g, '')` */
  function StripNonWord(w: string): (r: string)
    ensures |r| <= |w|
    ensures forall k | 0 <= k < |r| :: IsWordChar(r[k])
  {
    if w == [] then [] else (if IsWordChar(w[0]) then [w[0]] else []) + StripNonWord(w[1..])
  }

  /** Keeps the words longer than two characters and only then strips their punctuation. */
  function Keywords(ws: seq<string>): seq<string> {
    if ws == [] then [] else (if |ws[0]| > 2 then [StripNonWord(ws[0])] else []) + Keywords(ws[1..])
  }

  /** The query's search words: lower-cased, split on white space, filtered, stripped. */
  function QueryWords(query: string): seq<string> {
    Keywords(Words(Lower(query)))
  }

  /**
   * `s.match(new RegExp(w, 'gi')).length` (0 for no match), for a pattern made of
   * word characters and a lower-case `s`: the non-overlapping matches found left to
   * right. The empty pattern matches at every one of the |s| + 1 positions.
   */
  function Occurrences(s: string, w: string): nat
    decreases |s|
  {
    if w == [] then |s| + 1
    else if |s| < |w| then 0
    else if s[..|w|] == w then 1 + Occurrences(s[|w|..], w)
    else Occurrences(s[1..], w)
  }

  ghost predicate OccursAt(s: string, w: string, i: int) {
    0 <= i && i + |w| <= |s| && s[i..i + |w|] == w
  }

  /** The score of one query word against a lower-cased chunk content. */
  function WordScore(content: string, w: string): nat {
    var n := Occurrences(content, w);
    if n > 0 then 10 + n else 0
  }

  /** The sum of the word scores, one term per query word, repeats included. */
  function ChunkScore(content: string, ws: seq<string>): nat {
    if ws == [] then 0 else ChunkScore(content, ws[..|ws| - 1]) + WordScore(content, ws[|ws| - 1])
  }

  function ScoreOf(x: Scored): int {
    x.score
  }

  /** The chunks with a positive score, in corpus order, each with its score. */
  function ScoreAll(chunks: seq<Chunk>, ws: seq<string>): seq<Scored> {
    if chunks == [] then []
    else
      var last := chunks[|chunks| - 1];
      var s := ChunkScore(Lower(last.content), ws);
      ScoreAll(chunks[..|chunks| - 1], ws) + (if s > 0 then [Scored(s, last)] else [])
  }

  /** `scores.sort((a, b) => b.score - a.score)`: a stable sort by descending score. */
  function Ranked(chunks: seq<Chunk>, ws: seq<string>): seq<Scored> {
    SortDesc(ScoreAll(chunks, ws), ScoreOf)
  }

  /** What `search(query, topK)` returns. */
  function SearchResult(c: Corpus, query: string, topK: nat): seq<Scored> {
    if !c.loaded || |c.chunks| == 0 then []
    else
      var ws := QueryWords(query);
      if |ws| == 0 then [] else Take(Ranked(c.chunks, ws), topK)
  }

  /** The text one chunk adds to the context. */
  function Addition(ch: Chunk): string {
    "\n--- From: " + ch.source + " ---\n" + Take(ch.content, PreviewLength) + "\n"
  }

  /** `score.toFixed(2)` for a score of `tenths` tenths: the whole part, a point, the tenths digit, and 0. */
  function ScoreText(tenths: nat): string {
    NatToString(tenths / 10) + "." + [DigitChar(tenths % 10), '0']
  }

  /** The untrimmed context built from `rs`, in order. */
  function Context(rs: seq<Scored>): string {
    if rs == [] then [] else Context(rs[..|rs| - 1]) + Addition(rs[|rs| - 1].chunk)
  }

  function Used(rs: seq<Scored>): seq<UsedChunk> {
    if rs == [] then []
    else
      var x := rs[|rs| - 1];
      Used(rs[..|rs| - 1]) + [UsedChunk(x.chunk.id, x.chunk.source, ScoreText(x.score))]
  }

  /**
   * How many results the packing loop takes, going on from result `i`: it stops at
   * the first result whose addition would take the context past `maxChars`.
   */
  function Packed(rs: seq<Scored>, maxChars: nat, i: nat): (k: nat)
    requires i <= |rs|
    decreases |rs| - i
    ensures i <= k <= |rs|
  {
    if i == |rs| || |Context(rs[..i])| + |Addition(rs[i].chunk)| > maxChars then i
    else Packed(rs, maxChars, i + 1)
  }

  /** What `retrieveContext(query, topK, maxChars)` returns. */
  function RetrievalFor(c: Corpus, query: string, topK: nat, maxChars: nat): Retrieval {
    var rs := SearchResult(c, query, topK);
    if |rs| == 0 then Retrieval("", [], false)
    else
      var k := Packed(rs, maxChars, 0);
      var raw := Context(rs[..k]);
      Retrieval(Trim(raw), Used(rs[..k]), |raw| > 0)
  }

  /** The retriever's module state and its operations. */
  class Retriever {
    var chunks: seq<Chunk>
    var isLoaded: bool

    constructor ()
      ensures chunks == [] && !isLoaded
    {
      chunks := [];
      isLoaded := false;
    }

    function State(): Corpus
      reads this
    {
      Corpus(chunks, isLoaded)
    }

    /**
     * `loadChunks`, with the file already read and parsed: `None` stands for a
     * missing file or one that does not parse, which leaves the state as it was.
     */
    method Load(parsed: Option<seq<Chunk>>) returns (ok: bool)
      modifies this
      ensures ok == parsed.Some?
      ensures ok ==> chunks == parsed.value && isLoaded
      ensures !ok ==> chunks == old(chunks) && isLoaded == old(isLoaded)
    {
      match parsed
      case None => ok := false;
      case Some(cs) =>
        chunks := cs;
        isLoaded := true;
        ok := true;
    }

    /** The inner loop of `search`: one chunk's score against every query word. */
    static method ScoreChunk(contentLower: string, queryWords: seq<string>) returns (score: nat)
      ensures score == ChunkScore(contentLower, queryWords)
    {
      score := 0;
      for j := 0 to |queryWords|
        invariant score == ChunkScore(contentLower, queryWords[..j])
      {
        var matches := Occurrences(contentLower, queryWords[j]);
        if matches > 0 {
          score := score + 10 + matches;
        }
        assert queryWords[..j + 1][..j] == queryWords[..j];
      }
      assert queryWords[..|queryWords|] == queryWords;
    }

    /** `search`: score every chunk, keep the positive ones, rank them, take `topK`. */
    method Search(query: string, topK: nat) returns (results: seq<Scored>)
      ensures results == SearchResult(State(), query, topK)
    {
      if !isLoaded || |chunks| == 0 {
        return [];
      }
      var queryWords := QueryWords(query);
      if |queryWords| == 0 {
        return [];
      }
      var scores: seq<Scored> := [];
      for i := 0 to |chunks|
        invariant scores == ScoreAll(chunks[..i], queryWords)
      {
        var score := ScoreChunk(Lower(chunks[i].content), queryWords);
        if score > 0 {
          scores := scores + [Scored(score, chunks[i])];
        }
        assert chunks[..i + 1][..i] == chunks[..i];
      }
      assert chunks[..|chunks|] == chunks;
      results := Take(SortDesc(scores, ScoreOf), topK);
    }

    /** `retrieveContext`: pack the search results greedily, stopping at the first overflow. */
    method RetrieveContext(query: string, topK: nat, maxChars: nat) returns (r: Retrieval)
      ensures r == RetrievalFor(State(), query, topK, maxChars)
    {
      var results := Search(query, topK);
      if |results| == 0 {
        return Retrieval("", [], false);
      }
      var context := "";
      var usedChunks: seq<UsedChunk> := [];
      var i := 0;
      while i < |results|
        invariant 0 <= i <= |results|
        invariant context == Context(results[..i]) && usedChunks == Used(results[..i])
        invariant Packed(results, maxChars, i) == Packed(results, maxChars, 0)
      {
        var addition := Addition(results[i].chunk);
        if |context| + |addition| > maxChars {
          break;
        }
        PackedSnoc(results, i);
        context := context + addition;
        usedChunks := usedChunks + [UsedChunk(results[i].chunk.id, results[i].chunk.source, ScoreText(results[i].score))];
        i := i + 1;
      }
      assert results == SearchResult(State(), query, topK);
      assert Packed(results, maxChars, i) == i;
      r := Retrieval(Trim(context), usedChunks, |context| > 0);
    }
  }

  /** One more result packed adds its text to the context and its entry to the list. */
  lemma PackedSnoc(rs: seq<Scored>, i: nat)
    requires i < |rs|
    ensures Context(rs[..i + 1]) == Context(rs[..i]) + Addition(rs[i].chunk)
    ensures Used(rs[..i + 1]) == Used(rs[..i]) + [UsedChunk(rs[i].chunk.id, rs[i].chunk.source, ScoreText(rs[i].score))]
  {
    assert rs[..i + 1][..i] == rs[..i];
  }

  // ---------------------------------------------------------------------------
  // Tokenisation and matching

  /**
   * Every search word consists of word characters and comes from a white-space
   * separated word of the lower-cased query that was longer than two characters.
   */
  lemma {:induction false} KeywordsShape(ws: seq<string>)
    ensures |Keywords(ws)| <= |ws|
    ensures forall w | w in Keywords(ws) ::
      (forall k | 0 <= k < |w| :: IsWordChar(w[k])) && exists v | v in ws :: |v| > 2 && w == StripNonWord(v)
  {
    if ws != [] {
      KeywordsShape(ws[1..]);
      forall w | w in Keywords(ws)
        ensures exists v | v in ws :: |v| > 2 && w == StripNonWord(v)
      {
        if w in Keywords(ws[1..]) {
          var v :| v in ws[1..] && |v| > 2 && w == StripNonWord(v);
          assert v in ws;
        } else {
          assert ws[0] in ws;
        }
      }
    }
  }

  /** How many of the words are longer than two characters. */
  function LongCount(ws: seq<string>): (r: nat)
    ensures r <= |ws|
  {
    if ws == [] then 0 else (if |ws[0]| > 2 then 1 else 0) + LongCount(ws[1..])
  }

  /**
   * Every word longer than two characters yields its stripped form, in order and
   * repeats included: the i-th word is the keyword after one per long word before it,
   * and there are no other keywords.
   */
  lemma {:induction false} KeywordsComplete(ws: seq<string>, i: nat)
    requires i < |ws| && |ws[i]| > 2
    ensures |Keywords(ws)| == LongCount(ws)
    ensures LongCount(ws[..i]) < |Keywords(ws)| && Keywords(ws)[LongCount(ws[..i])] == StripNonWord(ws[i])
  {
    KeywordsCount(ws);
    if i > 0 {
      KeywordsComplete(ws[1..], i - 1);
      assert ws[..i][1..] == ws[1..][..i - 1];
    }
  }

  lemma {:induction false} KeywordsCount(ws: seq<string>)
    ensures |Keywords(ws)| == LongCount(ws)
  {
    if ws != [] {
      KeywordsCount(ws[1..]);
    }
  }

  /**
   * The length filter looks at the word before its punctuation is stripped: a
   * keyword of two characters or fewer appears exactly when some word longer than
   * two characters strips down to one, as "hi!" does.
   */
  lemma PunctuationCountsTowardsLength(ws: seq<string>)
    ensures (exists k | 0 <= k < |Keywords(ws)| :: |Keywords(ws)[k]| <= 2)
        <==> (exists v | v in ws :: |v| > 2 && |StripNonWord(v)| <= 2)
  {
    KeywordsShape(ws);
    if exists v | v in ws :: |v| > 2 && |StripNonWord(v)| <= 2 {
      var v :| v in ws && |v| > 2 && |StripNonWord(v)| <= 2;
      var i :| 0 <= i < |ws| && ws[i] == v;
      KeywordsComplete(ws, i);
    }
    if exists k | 0 <= k < |Keywords(ws)| :: |Keywords(ws)[k]| <= 2 {
      var k :| 0 <= k < |Keywords(ws)| && |Keywords(ws)[k]| <= 2;
      assert Keywords(ws)[k] in Keywords(ws);
    }
  }

  /** The query "hi! ok" searches for "hi": "hi!" passes the length filter, "ok" does not. */
  lemma HiKeyword()
    ensures Keywords(["hi!", "ok"]) == ["hi"]
  {
    var hi := ["hi!", "ok"];
    assert hi[1..] == ["ok"];
    assert Keywords(["ok"]) == [] by {
      assert ["ok"][1..] == [];
    }
    StripHi();
    assert Keywords(hi) == [StripNonWord("hi!")] + Keywords(["ok"]);
  }

  lemma StripHi()
    ensures StripNonWord("hi!") == "hi"
  {
    assert "hi!"[1..] == "i!" && "i!"[1..] == "!" && "!"[1..] == "";
    assert StripNonWord("!") == "";
    assert StripNonWord("i!") == "i";
  }

  /** A word matches at least once exactly when it occurs somewhere in the content. */
  lemma {:induction false} OccurrencesPositive(s: string, w: string)
    decreases |s|
    ensures Occurrences(s, w) > 0 <==> exists i :: OccursAt(s, w, i)
  {
    if w == [] {
      assert OccursAt(s, w, 0);
    } else if |s| < |w| {
    } else if s[..|w|] == w {
      assert OccursAt(s, w, 0);
    } else {
      OccurrencesPositive(s[1..], w);
      if exists i :: OccursAt(s[1..], w, i) {
        var i :| OccursAt(s[1..], w, i);
        assert s[1..][i..i + |w|] == s[i + 1..i + 1 + |w|];
        assert OccursAt(s, w, i + 1);
      }
      if exists i :: OccursAt(s, w, i) {
        var i :| OccursAt(s, w, i);
        assert i != 0;
        assert s[1..][i - 1..i - 1 + |w|] == s[i..i + |w|];
        assert OccursAt(s[1..], w, i - 1);
      }
    }
  }

  /** Matches do not overlap: n matches of a non-empty word take n times its length. */
  lemma {:induction false} OccurrencesBound(s: string, w: string)
    requires w != []
    decreases |s|
    ensures Occurrences(s, w) * |w| <= |s|
  {
    if |s| >= |w| {
      if s[..|w|] == w {
        OccurrencesBound(s[|w|..], w);
      } else {
        OccurrencesBound(s[1..], w);
      }
    }
  }

  // ---------------------------------------------------------------------------
  // Scoring

  /** The number of query words (repeats included) that occur in the content. */
  function MatchCount(content: string, ws: seq<string>): nat {
    if ws == [] then 0
    else MatchCount(content, ws[1..]) + (if Occurrences(content, ws[0]) > 0 then 1 else 0)
  }

  /** The total number of matches of the query words that occur in the content. */
  function MatchTotal(content: string, ws: seq<string>): nat {
    if ws == [] then 0
    else MatchTotal(content, ws[1..]) + (if Occurrences(content, ws[0]) > 0 then Occurrences(content, ws[0]) else 0)
  }

  lemma {:induction false} MatchAppend(content: string, ws: seq<string>, w: string)
    ensures MatchCount(content, ws + [w]) == MatchCount(content, ws) + MatchCount(content, [w])
    ensures MatchTotal(content, ws + [w]) == MatchTotal(content, ws) + MatchTotal(content, [w])
  {
    if ws != [] {
      assert (ws + [w])[1..] == ws[1..] + [w];
      MatchAppend(content, ws[1..], w);
    } else {
      assert ws + [w] == [w];
    }
  }

  /**
   * The score, in tenths, is one whole point for every query word that occurs and a
   * tenth for every match: 1 + 0.1 * n per matching word.
   */
  lemma {:induction false} ChunkScoreDecomposes(content: string, ws: seq<string>)
    ensures ChunkScore(content, ws) == 10 * MatchCount(content, ws) + MatchTotal(content, ws)
  {
    if ws != [] {
      var init, w := ws[..|ws| - 1], ws[|ws| - 1];
      assert ws == init + [w];
      ChunkScoreDecomposes(content, init);
      MatchAppend(content, init, w);
      assert [w][1..] == [];
    }
  }

  /** A chunk scores above 0 exactly when some query word matches in it. */
  lemma {:induction false} ChunkScorePositive(content: string, ws: seq<string>)
    ensures ChunkScore(content, ws) > 0 <==> exists i | 0 <= i < |ws| :: Occurrences(content, ws[i]) > 0
  {
    if ws != [] {
      var init := ws[..|ws| - 1];
      ChunkScorePositive(content, init);
      assert forall i | 0 <= i < |init| :: init[i] == ws[i];
    }
  }

  /** The scored list holds exactly the corpus chunks that score above 0, with their scores. */
  lemma {:induction false} ScoreAllMembers(chunks: seq<Chunk>, ws: seq<string>, x: Scored)
    ensures x in ScoreAll(chunks, ws) <==>
      x.chunk in chunks && x.score == ChunkScore(Lower(x.chunk.content), ws) && x.score > 0
  {
    if chunks != [] {
      var init := chunks[..|chunks| - 1];
      ScoreAllMembers(init, ws, x);
      assert chunks == init + [chunks[|chunks| - 1]];
    }
  }

  lemma {:induction false} ScoreAllLength(chunks: seq<Chunk>, ws: seq<string>)
    ensures |ScoreAll(chunks, ws)| <= |chunks|
  {
    if chunks != [] {
      ScoreAllLength(chunks[..|chunks| - 1], ws);
    }
  }

  /**
   * A query word that is all punctuation ("...", "?!?") is stripped to "", and the
   * empty pattern matches everywhere: every chunk of the corpus is then a hit.
   */
  lemma {:induction false} EmptyWordMatchesAll(chunks: seq<Chunk>, ws: seq<string>)
    requires "" in ws
    ensures |ScoreAll(chunks, ws)| == |chunks|
  {
    if chunks != [] {
      EmptyWordMatchesAll(chunks[..|chunks| - 1], ws);
      var i :| 0 <= i < |ws| && ws[i] == "";
      ChunkScorePositive(Lower(chunks[|chunks| - 1].content), ws);
    }
  }

  // ---------------------------------------------------------------------------
  // Search

  /** `search` returns nothing when the corpus is not loaded, is empty, or the query has no search words. */
  lemma SearchEmptyCases(c: Corpus, query: string, topK: nat)
    ensures (!c.loaded || c.chunks == [] || QueryWords(query) == [] || topK == 0) ==> SearchResult(c, query, topK) == []
  {
  }

  /** At most `topK` hits, and no more than there are chunks. */
  lemma SearchBounded(c: Corpus, query: string, topK: nat)
    ensures |SearchResult(c, query, topK)| <= topK
    ensures |SearchResult(c, query, topK)| <= |c.chunks|
  {
    if c.loaded && |c.chunks| > 0 && |QueryWords(query)| > 0 {
      ScoreAllLength(c.chunks, QueryWords(query));
      SortDescPermutes(ScoreAll(c.chunks, QueryWords(query)), ScoreOf);
    }
  }

  /** The hits come in non-increasing score order. */
  lemma SearchSorted(c: Corpus, query: string, topK: nat)
    ensures SortedDesc(SearchResult(c, query, topK), ScoreOf)
  {
    if c.loaded && |c.chunks| > 0 && |QueryWords(query)| > 0 {
      var ranked := Ranked(c.chunks, QueryWords(query));
      SortDescSorted(ScoreAll(c.chunks, QueryWords(query)), ScoreOf);
      var r := SearchResult(c, query, topK);
      assert forall i | 0 <= i < |r| :: r[i] == ranked[i];
    }
  }

  /**
   * Every hit is a corpus chunk with a positive score (a chunk scoring 0 never
   * appears), and its score is the chunk's score against the query words.
   */
  lemma SearchMembers(c: Corpus, query: string, topK: nat)
    ensures forall x | x in SearchResult(c, query, topK) ::
      x.chunk in c.chunks && x.score > 0 && x.score == ChunkScore(Lower(x.chunk.content), QueryWords(query))
  {
    if c.loaded && |c.chunks| > 0 && |QueryWords(query)| > 0 {
      var ws := QueryWords(query);
      var all := ScoreAll(c.chunks, ws);
      SortDescPermutes(all, ScoreOf);
      forall x | x in SearchResult(c, query, topK)
        ensures x.chunk in c.chunks && x.score > 0 && x.score == ChunkScore(Lower(x.chunk.content), ws)
      {
        assert x in Ranked(c.chunks, ws);
        assert x in multiset(Ranked(c.chunks, ws));
        assert x in all;
        ScoreAllMembers(c.chunks, ws, x);
      }
    }
  }

  /**
   * The hits are the first `topK` entries of the full ranking, and in that ranking
   * the chunks of any one score keep their corpus order (the sort is stable).
   */
  lemma SearchIsRankingPrefix(c: Corpus, query: string, topK: nat)
    requires c.loaded && c.chunks != [] && QueryWords(query) != []
    ensures var ranked := Ranked(c.chunks, QueryWords(query));
      var r := SearchResult(c, query, topK);
      && |r| == (if topK <= |ranked| then topK else |ranked|)
      && r == ranked[..|r|]
      && forall k :: WithKey(ranked, ScoreOf, k) == WithKey(ScoreAll(c.chunks, QueryWords(query)), ScoreOf, k)
  {
    var ws := QueryWords(query);
    forall k ensures WithKey(Ranked(c.chunks, ws), ScoreOf, k) == WithKey(ScoreAll(c.chunks, ws), ScoreOf, k) {
      SortDescStable(ScoreAll(c.chunks, ws), ScoreOf, k);
    }
  }

  // ---------------------------------------------------------------------------
  // Packing

  /**
   * The printed score reads back as the score: its digits before the point and the
   * digit after it give the number of tenths, and the second decimal is always 0.
   */
  lemma ScoreTextRoundTrip(tenths: nat)
    ensures var t := ScoreText(tenths); var n := |t|;
      && n >= 4 && t[n - 3] == '.' && t[n - 1] == '0'
      && IsDigit(t[n - 2])
      && (forall k | 0 <= k < n - 3 :: IsDigit(t[k]))
      && DigitsValue(t[..n - 3]) * 10 + (t[n - 2] as int - '0' as int) == tenths
  {
    var t := ScoreText(tenths);
    var w := NatToString(tenths / 10);
    assert t[..|t| - 3] == w;
    NatToStringRoundTrip(tenths / 10);
  }

  lemma AdditionShape(ch: Chunk)
    ensures |Addition(ch)| > 1 && Addition(ch)[1] == '-'
  {
  }

  lemma {:induction false} ContextLength(rs: seq<Scored>)
    ensures |Context(rs)| >= |rs|
  {
    if rs != [] {
      ContextLength(rs[..|rs| - 1]);
    }
  }

  lemma {:induction false} UsedLength(rs: seq<Scored>)
    ensures |Used(rs)| == |rs|
  {
    if rs != [] {
      UsedLength(rs[..|rs| - 1]);
    }
  }

  /** The packing loop keeps the context within budget and stops only where the next addition would not fit. */
  lemma {:induction false} PackedFits(rs: seq<Scored>, maxChars: nat, i: nat)
    requires i <= |rs| && |Context(rs[..i])| <= maxChars
    decreases |rs| - i
    ensures var k := Packed(rs, maxChars, i);
      && i <= k <= |rs|
      && |Context(rs[..k])| <= maxChars
      && (k == |rs| || |Context(rs[..k])| + |Addition(rs[k].chunk)| > maxChars)
  {
    if i < |rs| && |Context(rs[..i])| + |Addition(rs[i].chunk)| <= maxChars {
      assert rs[..i + 1][..i] == rs[..i];
      PackedFits(rs, maxChars, i + 1);
    }
  }

  /** No search results: an empty, unused context. */
  lemma RetrieveNothing(c: Corpus, query: string, topK: nat, maxChars: nat)
    requires SearchResult(c, query, topK) == []
    ensures RetrievalFor(c, query, topK, maxChars) == Retrieval("", [], false)
  {
  }

  /**
   * The chunks reported are those of a prefix of the search results, one entry per
   * addition; the untrimmed context they make never exceeds `maxChars`, and the
   * returned context is that text trimmed. Packing stops at the first result that
   * does not fit rather than skipping it.
   */
  lemma RetrievePacksPrefix(c: Corpus, query: string, topK: nat, maxChars: nat)
    ensures var rs, r := SearchResult(c, query, topK), RetrievalFor(c, query, topK, maxChars);
      var k := |r.chunks|;
      && k <= |rs|
      && r.chunks == Used(rs[..k])
      && |Context(rs[..k])| <= maxChars
      && r.context == Trim(Context(rs[..k]))
      && (k == |rs| || |Context(rs[..k])| + |Addition(rs[k].chunk)| > maxChars)
  {
    var rs := SearchResult(c, query, topK);
    if |rs| > 0 {
      assert rs[..0] == [];
      PackedFits(rs, maxChars, 0);
      UsedLength(rs[..Packed(rs, maxChars, 0)]);
    }
  }

  /** Every addition holds a '-', so a context is blank exactly when no chunk went into it. */
  lemma ContextBlank(rs: seq<Scored>)
    ensures (Context(rs) == []) == (rs == [])
    ensures (Trim(Context(rs)) == []) == (rs == [])
  {
    if rs != [] {
      var p := Context(rs[..|rs| - 1]);
      var raw := Context(rs);
      AdditionShape(rs[|rs| - 1].chunk);
      assert raw[|p| + 1] == '-';
      TrimSpec(raw);
    }
  }

  /** `used` holds exactly when a chunk was added, which is exactly when the context is not empty. */
  lemma RetrieveUsedIff(c: Corpus, query: string, topK: nat, maxChars: nat)
    ensures var r := RetrievalFor(c, query, topK, maxChars);
      (r.used <==> |r.chunks| > 0) && (r.used <==> r.context != "")
  {
    var rs := SearchResult(c, query, topK);
    if |rs| > 0 {
      var k := Packed(rs, maxChars, 0);
      UsedLength(rs[..k]);
      ContextBlank(rs[..k]);
    }
  }
}
