/**
 * The keep-alive sweep of server.js: every client the database reports as idle
 * in the reply window is sent one follow-up, composed from the last turns of the
 * conversation, logged as an assistant turn and then sent. Each client is handled
 * inside its own `try`, so a failure stops that client's follow-up where it is and
 * the sweep goes on with the next one.
 */
module Poke {
  import opened Wrappers
  import Store
  import Ai
  import Rag
  import Server
  import Seqs

  /** How many turns of history a follow-up reads, and how many of those go into the prompt. */
  const PokeHistoryLimit: nat := 10
  const ContextEntries: nat := 5

  /** An engine-written follow-up is used only when its length lies strictly between these. */
  const MinPokeLength: nat := 10
  const MaxPokeLength: nat := 300

  /** The fixed follow-ups, one of which is picked at random. */
  const PokeTemplates: seq<string> := [
    "Based on our previous chat, I have a special offer just for you Sir. Are you still interested in automating your trading?",
    "Hello Sir, I wanted to follow up. We have a limited time discount available today. Shall I share the details?",
    "Sir, are you still looking for a reliable EA? I can offer you our best package at a reduced price today only.",
    "Just checking in Sir. Many traders started with us this week. Would you like to join them?",
    "Hello again Sir, I noticed you were interested earlier. I can give you an exclusive deal if you decide today."
  ]

  const PokeInstruction := "Generate a SHORT (1-2 sentences max) friendly follow-up message to re-engage this customer. Be helpful, offer a deal. Do NOT say hello again if you already did. Context of past chat:\n"

  /** The steps of one client's follow-up that can throw. */
  datatype PokeStage = AtPokeHistory | AtPokeLog | AtPokeSend

  /**
   * What the world supplies to one client's follow-up: the engine, the random
   * template index (reduced modulo the number of templates), a failing step, and
   * the clock when the follow-up is logged.
   */
  datatype PokeInput = PokeInput(engine: seq<Ai.ChatMessage> -> Ai.EngineResponse, pick: nat, fault: Option<PokeStage>, at: int)

  /** `slice(-k)`: the last k elements, or all of them when there are fewer. */
  function Last<T>(s: seq<T>, k: nat): (r: seq<T>)
    ensures |r| == if |s| < k then |s| else k
    ensures r == s[|s| - |r|..]
  {
    if |s| <= k then s else s[|s| - k..]
  }

  /** `join('\n')` */
  function JoinLines(ls: seq<string>): string {
    if ls == [] then "" else if |ls| == 1 then ls[0] else JoinLines(ls[..|ls| - 1]) + "\n" + ls[|ls| - 1]
  }

  function EntryLine(e: Store.Entry): string {
    e.role + ": " + e.content
  }

  function EntryLines(es: seq<Store.Entry>): (r: seq<string>)
    ensures |r| == |es| && forall i | 0 <= i < |es| :: r[i] == EntryLine(es[i])
  {
    if es == [] then [] else EntryLines(es[..|es| - 1]) + [EntryLine(es[|es| - 1])]
  }

  /** The instruction followed by the last five history entries, one `role: content` line each. */
  function PokePrompt(history: seq<Store.Entry>): string {
    PokeInstruction + JoinLines(EntryLines(Last(history, ContextEntries)))
  }

  function Template(pick: nat): string {
    PokeTemplates[pick % |PokeTemplates|]
  }

  /**
   * `generatePokeMessage` as written: the engine's answer is an object, whose
   * `length` is undefined, so the length test never passes and the template is
   * returned whatever the engine said.
   */
  function PokeMessageAsWritten(history: seq<Store.Entry>, pick: nat, reply: Ai.Reply): string {
    Template(pick)
  }

  /** `generatePokeMessage` with the length test applied to the reply's text, as evidently intended. */
  function PokeMessage(history: seq<Store.Entry>, pick: nat, reply: Ai.Reply): string {
    if |history| > 0 && reply.text.Some? && MinPokeLength < |reply.text.value| < MaxPokeLength
    then reply.text.value
    else Template(pick)
  }

  /**
   * How a follow-up is written for a number from that number's turns, in log
   * order, and what the world supplies to it.
   */
  type Composer = (string, seq<Store.Turn>, PokeInput) -> string

  /**
   * `generatePokeMessage(waId, getConversationHistory(waId, 10))`, as written,
   * against the given corpus and knowledge-base file; the engine is asked with no
   * history of its own, and its answer is then discarded.
   */
  function Compose(corpus: Rag.Corpus, kbFile: Option<string>): Composer {
    (n: string, mine: seq<Store.Turn>, input: PokeInput) =>
      var h := Store.History(mine, n, PokeHistoryLimit);
      PokeMessageAsWritten(h, input.pick, Ai.GenerateReply(corpus, kbFile, input.engine, PokePrompt(h), [], None))
  }

  /** The composer with the length test applied to the reply's text, as evidently intended. */
  function ComposeIntended(corpus: Rag.Corpus, kbFile: Option<string>): Composer {
    (n: string, mine: seq<Store.Turn>, input: PokeInput) =>
      var h := Store.History(mine, n, PokeHistoryLimit);
      PokeMessage(h, input.pick, Ai.GenerateReply(corpus, kbFile, input.engine, PokePrompt(h), [], None))
  }

  function PokeText(turns: seq<Store.Turn>, compose: Composer, n: string, input: PokeInput): string {
    compose(n, Store.TurnsOf(turns, n), input)
  }

  /** The assistant turn a client's follow-up logs, if it gets that far. */
  function Poked(w: Server.World, compose: Composer, n: string, input: PokeInput): Option<Store.Turn> {
    if n in w.excluded || input.fault == Some(AtPokeHistory) || input.fault == Some(AtPokeLog) then None
    else Some(Store.Turn(n, Store.AssistantRole, PokeText(w.db.turns, compose, n, input), input.at))
  }

  /** The send a client's follow-up attempts, if it gets that far; it fails exactly when the send throws. */
  function Attempt(w: Server.World, compose: Composer, n: string, input: PokeInput): Option<Server.SendAttempt> {
    if n in w.excluded || input.fault == Some(AtPokeHistory) || input.fault == Some(AtPokeLog) then None
    else Some(Server.SendAttempt(n, PokeText(w.db.turns, compose, n, input), input.fault != Some(AtPokeSend)))
  }

  function Listed<T>(o: Option<T>): seq<T> {
    if o.Some? then [o.value] else []
  }

  /** One pass of the loop body, for the client with number `n`. */
  function PokeStep(w: Server.World, compose: Composer, n: string, input: PokeInput): Server.World {
    PokeStepWith(w, n, input, PokeText(w.db.turns, compose, n, input))
  }

  /** The loop body, given the follow-up it composes when it gets that far. */
  function PokeStepWith(w: Server.World, n: string, input: PokeInput, text: string): Server.World {
    if n in w.excluded || input.fault == Some(AtPokeHistory) || input.fault == Some(AtPokeLog) then w
    else
      var w1 := w.(db := w.db.(turns := Store.Logged(w.db.turns, n, Store.AssistantRole, text, input.at)));
      w1.(sends := w.sends + [Server.SendAttempt(n, text, input.fault != Some(AtPokeSend))])
  }

  /** The loop from the i-th listed client on; `plan(j)` is what the world supplies to the j-th. */
  function Sweep(w: Server.World, compose: Composer, cs: seq<Store.Candidate>,
                 plan: nat -> PokeInput, i: nat): Server.World
    decreases |cs| - i
  {
    if i >= |cs| then w
    else Sweep(PokeStep(w, compose, cs[i].waId, plan(i)), compose, cs, plan, i + 1)
  }

  /** `runAutoPoke`: the clients are listed once, at `now`, and then swept in that order. */
  function AutoPoke(w: Server.World, corpus: Rag.Corpus, kbFile: Option<string>, now: int, plan: nat -> PokeInput): Server.World {
    Sweep(w, Compose(corpus, kbFile), Store.ClientsNeedingPoke(w.db.turns, now), plan, 0)
  }

  /** The sends the sweep from the i-th client on attempts, each computed against the world `w`. */
  function Attempts(w: Server.World, compose: Composer, cs: seq<Store.Candidate>,
                    plan: nat -> PokeInput, i: nat): seq<Server.SendAttempt>
    decreases |cs| - i
  {
    if i >= |cs| then [] else Listed(Attempt(w, compose, cs[i].waId, plan(i))) + Attempts(w, compose, cs, plan, i + 1)
  }

  // ---------------------------------------------------------------------------
  // Properties

  /**
   * A follow-up is the engine's text exactly when there is history, the reply has
   * a text and that text is longer than 10 and shorter than 300 characters; it is
   * the picked template otherwise. Either way it is a template or of that length.
   */
  lemma PokeMessageSpec(history: seq<Store.Entry>, pick: nat, reply: Ai.Reply)
    ensures var m := PokeMessage(history, pick, reply);
      && (reply.text == Some(m) && m !in PokeTemplates ==> |history| > 0)
      && (m != Template(pick) ==> |history| > 0 && reply.text == Some(m) && MinPokeLength < |m| < MaxPokeLength)
      && (|history| > 0 && reply.text.Some? && MinPokeLength < |reply.text.value| < MaxPokeLength ==> m == reply.text.value)
      && (m in PokeTemplates || MinPokeLength < |m| < MaxPokeLength)
  {
  }

  /** As written, the engine's answer never reaches the customer, however fitting it is. */
  lemma EngineAnswerDiscarded(history: seq<Store.Entry>, pick: nat, reply: Ai.Reply)
    ensures PokeMessageAsWritten(history, pick, reply) == Template(pick)
    ensures var e := Store.Entry(Store.UserRole, "Hi", 0);
      var r := Ai.Reply(Some("Still keen on the EA?"), false, []);
      PokeMessageAsWritten([e], 0, r) != PokeMessage([e], 0, r)
  {
    var r := Ai.Reply(Some("Still keen on the EA?"), false, []);
    assert |"Still keen on the EA?"| == 21;
    assert PokeMessage([Store.Entry(Store.UserRole, "Hi", 0)], 0, r) == "Still keen on the EA?";
    assert |Template(0)| > 21;
  }

  /** Every template is itself a follow-up the length test would admit. */
  lemma TemplatesFit(pick: nat)
    ensures Template(pick) in PokeTemplates && MinPokeLength < |Template(pick)| < MaxPokeLength
  {
    var k := pick % |PokeTemplates|;
    assert k in {0, 1, 2, 3, 4};
  }

  /**
   * One client's follow-up logs an assistant turn with the message at the given
   * time and then attempts to send that same message; an excluded number, or a
   * failure before logging, leaves everything as it was. Nothing else changes.
   */
  lemma PokeStepEffect(w: Server.World, compose: Composer, n: string, input: PokeInput)
    ensures var w1 := PokeStep(w, compose, n, input);
      var t, a := Poked(w, compose, n, input), Attempt(w, compose, n, input);
      && w1.db.turns == w.db.turns + Listed(t)
      && w1.sends == w.sends + Listed(a)
      && (t.Some? <==> a.Some?)
      && (t.Some? <==> n !in w.excluded && input.fault != Some(AtPokeHistory) && input.fault != Some(AtPokeLog))
      && (t.Some? ==> t.value.number == n && t.value.role == Store.AssistantRole && t.value.timestamp == input.at
                      && a.value.number == n && a.value.text == t.value.content
                      && (a.value.delivered <==> input.fault != Some(AtPokeSend)))
      && w1.excluded == w.excluded && w1.db.processed == w.db.processed && w1.db.pokes == w.db.pokes
  {
  }

  /** What a client's follow-up does depends on the world only through that client's own turns and the exclusions. */
  lemma PokeIsLocal(w: Server.World, v: Server.World, compose: Composer, n: string, input: PokeInput)
    requires Store.TurnsOf(w.db.turns, n) == Store.TurnsOf(v.db.turns, n) && w.excluded == v.excluded
    ensures Poked(w, compose, n, input) == Poked(v, compose, n, input)
    ensures Attempt(w, compose, n, input) == Attempt(v, compose, n, input)
  {
  }

  /** A step for one number leaves every other number's turns as they were. */
  lemma PokeStepOthers(w: Server.World, compose: Composer, n: string, input: PokeInput, m: string)
    ensures var w1 := PokeStep(w, compose, n, input);
      Store.TurnsOf(w1.db.turns, m) == Store.TurnsOf(w.db.turns, m) + (if n == m then Listed(Poked(w, compose, n, input)) else [])
  {
    var w1 := PokeStep(w, compose, n, input);
    var t := Poked(w, compose, n, input);
    PokeStepEffect(w, compose, n, input);
    if t.Some? {
      Store.TurnsOfLogged(w.db.turns, n, t.value.role, t.value.content, t.value.timestamp, m);
    }
  }

  lemma PokeStepSends(w: Server.World, compose: Composer, n: string, input: PokeInput)
    ensures var w1 := PokeStep(w, compose, n, input);
      w1.sends == w.sends + Listed(Attempt(w, compose, n, input)) && w1.excluded == w.excluded
  {
  }

  /** The sweep never touches the exclusions, the processed deliveries or the poke counters. */
  lemma {:induction false} SweepFrame(w: Server.World, compose: Composer, cs: seq<Store.Candidate>,
                                      plan: nat -> PokeInput, i: nat)
    ensures var r := Sweep(w, compose, cs, plan, i);
      r.excluded == w.excluded && r.db.processed == w.db.processed && r.db.pokes == w.db.pokes
    decreases |cs| - i
  {
    if i < |cs| {
      PokeStepEffect(w, compose, cs[i].waId, plan(i));
      SweepFrame(PokeStep(w, compose, cs[i].waId, plan(i)), compose, cs, plan, i + 1);
    }
  }

  ghost predicate ListedFrom(cs: seq<Store.Candidate>, i: nat, m: string) {
    exists j :: i <= j < |cs| && cs[j].waId == m
  }

  /**
   * With each client listed once, the sweep gives every listed client exactly the
   * follow-up it would get against the world the sweep started from, after that
   * client's existing turns, and leaves every unlisted number's turns as they were.
   */
  lemma {:induction false} SweepPerClient(w: Server.World, compose: Composer, cs: seq<Store.Candidate>,
                                          plan: nat -> PokeInput, i: nat, m: string)
    requires Store.DistinctIds(cs)
    ensures var r := Sweep(w, compose, cs, plan, i);
      && (forall j | i <= j < |cs| && cs[j].waId == m ::
            Store.TurnsOf(r.db.turns, m) == Store.TurnsOf(w.db.turns, m) + Listed(Poked(w, compose, m, plan(j))))
      && (!ListedFrom(cs, i, m) ==> Store.TurnsOf(r.db.turns, m) == Store.TurnsOf(w.db.turns, m))
    decreases |cs| - i
  {
    if i < |cs| {
      var n := cs[i].waId;
      var w1 := PokeStep(w, compose, n, plan(i));
      PokeStepEffect(w, compose, n, plan(i));
      PokeStepOthers(w, compose, n, plan(i), m);
      SweepPerClient(w1, compose, cs, plan, i + 1, m);
      if n == m {
        assert !ListedFrom(cs, i + 1, m);
      } else {
        PokeIsLocal(w1, w, compose, m, plan(i));
        forall j | i <= j < |cs| && cs[j].waId == m
          ensures Listed(Poked(w1, compose, m, plan(j))) == Listed(Poked(w, compose, m, plan(j)))
        {
          PokeIsLocal(w1, w, compose, m, plan(j));
        }
        if !ListedFrom(cs, i, m) {
          assert !ListedFrom(cs, i + 1, m);
        }
      }
    }
  }

  /**
   * With each client listed once, the sweep's sends are, in list order, the send of
   * every client that got that far, each as computed against the starting world.
   */
  lemma SweepSends(w: Server.World, compose: Composer, cs: seq<Store.Candidate>, plan: nat -> PokeInput, i: nat)
    requires Store.DistinctIds(cs)
    ensures Sweep(w, compose, cs, plan, i).sends == w.sends + Attempts(w, compose, cs, plan, i)
  {
    SweepAttemptsAlong(w, compose, cs, plan, i);
    AlongIsAttempts(w, compose, cs, plan, i);
  }

  /** The sends of the sweep, each computed against the world as the sweep reaches it. */
  function AttemptsAlong(w: Server.World, compose: Composer, cs: seq<Store.Candidate>, plan: nat -> PokeInput, i: nat): seq<Server.SendAttempt>
    decreases |cs| - i
  {
    if i >= |cs| then []
    else Listed(Attempt(w, compose, cs[i].waId, plan(i))) + AttemptsAlong(PokeStep(w, compose, cs[i].waId, plan(i)), compose, cs, plan, i + 1)
  }

  lemma {:induction false} SweepAttemptsAlong(w: Server.World, compose: Composer, cs: seq<Store.Candidate>, plan: nat -> PokeInput, i: nat)
    ensures Sweep(w, compose, cs, plan, i).sends == w.sends + AttemptsAlong(w, compose, cs, plan, i)
    decreases |cs| - i
  {
    if i < |cs| {
      var n := cs[i].waId;
      var w1 := PokeStep(w, compose, n, plan(i));
      var a := Listed(Attempt(w, compose, n, plan(i)));
      PokeStepSends(w, compose, n, plan(i));
      SweepAttemptsAlong(w1, compose, cs, plan, i + 1);
      Seqs.AppendAssoc(w.sends, a, AttemptsAlong(w1, compose, cs, plan, i + 1));
    }
  }

  /** No number is listed twice from the i-th client on. */
  ghost predicate DistinctFrom(cs: seq<Store.Candidate>, i: nat) {
    forall j, k | i <= j < k < |cs| :: cs[j].waId != cs[k].waId
  }

  lemma {:induction false} AlongIsAttempts(w: Server.World, compose: Composer, cs: seq<Store.Candidate>, plan: nat -> PokeInput, i: nat)
    requires DistinctFrom(cs, i)
    ensures AttemptsAlong(w, compose, cs, plan, i) == Attempts(w, compose, cs, plan, i)
    decreases |cs| - i
  {
    if i < |cs| {
      var n := cs[i].waId;
      AlongIsAttempts(PokeStep(w, compose, n, plan(i)), compose, cs, plan, i + 1);
      AttemptsUnchanged(w, compose, n, plan(i), cs, plan, i + 1);
    }
  }

  /** The later clients' sends do not see a step for a client not among them. */
  lemma {:induction false} AttemptsUnchanged(w: Server.World, compose: Composer, n: string, input: PokeInput,
                                             cs: seq<Store.Candidate>, plan: nat -> PokeInput, i: nat)
    requires forall k | i <= k < |cs| :: cs[k].waId != n
    ensures Attempts(PokeStep(w, compose, n, input), compose, cs, plan, i) == Attempts(w, compose, cs, plan, i)
    decreases |cs| - i
  {
    if i < |cs| {
      var w1 := PokeStep(w, compose, n, input);
      PokeStepOthers(w, compose, n, input, cs[i].waId);
      PokeIsLocal(w1, w, compose, cs[i].waId, plan(i));
      AttemptsUnchanged(w, compose, n, input, cs, plan, i + 1);
    }
  }

  /**
   * The composer the sweep runs with writes each follow-up as `generatePokeMessage`
   * does from `getConversationHistory(waId, 10)`, and so, as written, it is always
   * the picked template; the intended composer gives the corrected follow-up.
   */
  lemma ComposeReadsHistory(turns: seq<Store.Turn>, corpus: Rag.Corpus, kbFile: Option<string>, n: string, input: PokeInput)
    ensures var h := Store.History(turns, n, PokeHistoryLimit);
      var reply := Ai.GenerateReply(corpus, kbFile, input.engine, PokePrompt(h), [], None);
      && PokeText(turns, Compose(corpus, kbFile), n, input) == PokeMessageAsWritten(h, input.pick, reply)
      && PokeText(turns, Compose(corpus, kbFile), n, input) == Template(input.pick)
      && PokeText(turns, ComposeIntended(corpus, kbFile), n, input) == PokeMessage(h, input.pick, reply)
  {
    Store.TurnsOfOwn(turns, n, PokeHistoryLimit);
  }

  /**
   * `runAutoPoke` as a whole: every listed client (`Store.PokeEligibility` says
   * which those are) gains the one follow-up it would get
   * against the starting world (none when excluded or failing before the log;
   * `PokedIsTemplate` says what it holds);
   * every other number's turns stay as they were; the sends are those follow-ups in
   * list order; and the exclusions, processed deliveries and poke counters are
   * left alone.
   */
  lemma AutoPokeEffect(w: Server.World, corpus: Rag.Corpus, kbFile: Option<string>, now: int, plan: nat -> PokeInput, m: string)
    ensures var cs, r, compose := Store.ClientsNeedingPoke(w.db.turns, now), AutoPoke(w, corpus, kbFile, now, plan), Compose(corpus, kbFile);
      && (forall j | 0 <= j < |cs| && cs[j].waId == m ::
            Store.TurnsOf(r.db.turns, m) == Store.TurnsOf(w.db.turns, m) + Listed(Poked(w, compose, m, plan(j))))
      && (!(exists c | c in cs :: c.waId == m) ==> Store.TurnsOf(r.db.turns, m) == Store.TurnsOf(w.db.turns, m))
      && r.sends == w.sends + Attempts(w, compose, cs, plan, 0)
      && r.excluded == w.excluded && r.db.processed == w.db.processed && r.db.pokes == w.db.pokes
  {
    var cs := Store.ClientsNeedingPoke(w.db.turns, now);
    Store.PokeRows(w.db.turns, now);
    SweepEffect(w, Compose(corpus, kbFile), cs, plan, m);
  }

  /**
   * As written, the follow-up the sweep logs for a client, and the one it sends,
   * is that client's picked template.
   */
  lemma PokedIsTemplate(w: Server.World, corpus: Rag.Corpus, kbFile: Option<string>, n: string, input: PokeInput)
    ensures var compose := Compose(corpus, kbFile);
      && (Poked(w, compose, n, input).Some? ==> Poked(w, compose, n, input).value.content == Template(input.pick))
      && (Attempt(w, compose, n, input).Some? ==> Attempt(w, compose, n, input).value.text == Template(input.pick))
  {
    ComposeIsTemplate(w.db.turns, corpus, kbFile, n, input);
  }

  lemma ComposeIsTemplate(turns: seq<Store.Turn>, corpus: Rag.Corpus, kbFile: Option<string>, n: string, input: PokeInput)
    ensures PokeText(turns, Compose(corpus, kbFile), n, input) == Template(input.pick)
  {
  }

  /** The sweep's effect over a list naming each client once, for any composer. */
  lemma SweepEffect(w: Server.World, compose: Composer, cs: seq<Store.Candidate>, plan: nat -> PokeInput, m: string)
    requires Store.DistinctIds(cs)
    ensures var r := Sweep(w, compose, cs, plan, 0);
      && (forall j | 0 <= j < |cs| && cs[j].waId == m ::
            Store.TurnsOf(r.db.turns, m) == Store.TurnsOf(w.db.turns, m) + Listed(Poked(w, compose, m, plan(j))))
      && (!(exists c | c in cs :: c.waId == m) ==> Store.TurnsOf(r.db.turns, m) == Store.TurnsOf(w.db.turns, m))
      && r.sends == w.sends + Attempts(w, compose, cs, plan, 0)
      && r.excluded == w.excluded && r.db.processed == w.db.processed && r.db.pokes == w.db.pokes
  {
    SweepPerClient(w, compose, cs, plan, 0, m);
    SweepSends(w, compose, cs, plan, 0);
    SweepFrame(w, compose, cs, plan, 0);
    if !(exists c | c in cs :: c.waId == m) {
      assert !ListedFrom(cs, 0, m);
    }
  }
}
