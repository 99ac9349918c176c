/**
 * The message pipeline of server.js as a pure step on the bot's state: the
 * dedup re-check, the exclusion check, logging the user's turn, loading the
 * history, generating the reply, logging it, sending it and marking the delivery
 * processed. Each statement that can throw may be made to fail through `fault`;
 * the `catch` around the body, or the handler's for the first dedup check, then
 * stops the step where it is.
 */
module Server {
  import opened Wrappers
  import Rag
  import Store
  import Json
  import Gateway
  import Ai

  /** How many turns of history the reply sees. */
  const HistoryLimit: nat := 15

  /** A call of `sendMessage`; `delivered` is false when it threw. */
  datatype SendAttempt = SendAttempt(number: string, text: string, delivered: bool)

  /**
   * The steps that can throw: the dedup check before the lock (`AtFirstCheck`,
   * outside the processing body's `try`), its re-check inside the lock, the two logs,
   * the history, the send, and the two statements of `markMessageProcessed`: its
   * insert (`AtMark`) and the prune of stale keys that follows it (`AtPrune`).
   */
  datatype Stage = AtFirstCheck | AtRecheck | AtLogUser | AtHistory | AtLogReply | AtSend | AtMark | AtPrune

  /** A fault in one of the two dedup checks, which stops the step before it touches anything. */
  predicate CheckFault(fault: Option<Stage>) {
    fault == Some(AtFirstCheck) || fault == Some(AtRecheck)
  }

  /** What the world supplies to one processing step. */
  datatype Inputs = Inputs(kbFile: Option<string>, engine: seq<Ai.ChatMessage> -> Ai.EngineResponse, fault: Option<Stage>)

  /** `NoReplyText`: the engine's answer had no content, and `aiReply.substring` threw. */
  datatype Outcome = Duplicate | Skipped | Handled | Aborted(at: Stage) | NoReplyText

  /** The database, the excluded numbers and every send attempt so far. */
  datatype World = World(db: Store.Tables, excluded: set<string>, sends: seq<SendAttempt>)

  datatype Step = Step(outcome: Outcome, world: World)

  /** The turns one step logs: the user's message, then the reply. */
  function UserTurn(env: Gateway.Envelope, now: int): Store.Turn {
    Store.Turn(env.number, Store.UserRole, env.text, now)
  }

  /** The history the reply is generated from, read right after the user's turn is logged. */
  function HistoryFor(w: World, env: Gateway.Envelope, now: int): seq<Store.Entry> {
    Store.History(Store.Logged(w.db.turns, env.number, Store.UserRole, env.text, now), env.number, HistoryLimit)
  }

  function ReplyFor(w: World, corpus: Rag.Corpus, env: Gateway.Envelope, now: int, inputs: Inputs): Ai.Reply {
    Ai.GenerateReply(corpus, inputs.kbFile, inputs.engine, env.text, HistoryFor(w, env, now), None)
  }

  /**
   * One processing of an accepted message, given what `generateReply` resolves to
   * (it never throws, and it is only awaited once the user's turn is logged).
   */
  function Respond(w: World, env: Gateway.Envelope, now: int, fault: Option<Stage>, reply: Ai.Reply): Step {
    var db := w.db;
    if fault == Some(AtFirstCheck) then Step(Aborted(AtFirstCheck), w)
    else if Store.IsProcessed(db.processed, env.dedupKey) then Step(Duplicate, w)
    else if fault == Some(AtRecheck) then Step(Aborted(AtRecheck), w)
    else if env.number in w.excluded then Step(Skipped, w)
    else if fault == Some(AtLogUser) then Step(Aborted(AtLogUser), w)
    else
      var w1 := w.(db := db.(turns := Store.Logged(db.turns, env.number, Store.UserRole, env.text, now)));
      if fault == Some(AtHistory) then Step(Aborted(AtHistory), w1)
      else if reply.text.None? then Step(NoReplyText, w1)
      else if fault == Some(AtLogReply) then Step(Aborted(AtLogReply), w1)
      else
        var text := reply.text.value;
        var w2 := w1.(db := w1.db.(turns := Store.Logged(w1.db.turns, env.number, Store.AssistantRole, text, now)));
        if fault == Some(AtSend) then Step(Aborted(AtSend), w2.(sends := w.sends + [SendAttempt(env.number, text, false)]))
        else
          var w3 := w2.(sends := w.sends + [SendAttempt(env.number, text, true)]);
          if fault == Some(AtMark) then Step(Aborted(AtMark), w3)
          else if fault == Some(AtPrune) then
            Step(Aborted(AtPrune), w3.(db := w3.db.(processed := Store.Inserted(db.processed, env.dedupKey, now))))
          else Step(Handled, w3.(db := w3.db.(processed := Store.Marked(db.processed, env.dedupKey, now))))
  }

  /** One processing of an accepted message, inside the per-number lock. */
  function Process(w: World, corpus: Rag.Corpus, env: Gateway.Envelope, now: int, inputs: Inputs): Step {
    Respond(w, env, now, inputs.fault, ReplyFor(w, corpus, env, now, inputs))
  }

  /** The webhook's answer: an HTTP status and what processing did, or a payload outside the model. */
  datatype WebhookResult = Answered(status: int, outcome: Option<Outcome>) | OutsideModel

  /**
   * The whole webhook handler: classify, then process an accepted message. Only the
   * first dedup check throws past the processing body's `catch`, into the handler's.
   */
  function Webhook(w: World, corpus: Rag.Corpus, payload: Json.Object, now: int, inputs: Inputs): (WebhookResult, World) {
    match Gateway.Classify(payload)
    case Crashed => (Answered(500, None), w)
    case Unsupported => (OutsideModel, w)
    case Discarded(_) => (Answered(200, None), w)
    case Accepted(env) =>
      var s := Process(w, corpus, env, now, inputs);
      if s.outcome == Aborted(AtFirstCheck) then (Answered(500, None), s.world)
      else (Answered(200, Some(s.outcome)), s.world)
  }

  // ---------------------------------------------------------------------------
  // Properties

  /**
   * A delivery whose key is already processed changes nothing: the first dedup
   * check finds it, so it is a duplicate unless that check throws, and the re-check
   * inside the lock is never reached.
   */
  lemma DuplicateIsNoOp(w: World, env: Gateway.Envelope, now: int, fault: Option<Stage>, reply: Ai.Reply)
    requires Store.IsProcessed(w.db.processed, env.dedupKey)
    ensures var s := Respond(w, env, now, fault, reply);
      && s.world == w
      && (fault != Some(AtFirstCheck) ==> s.outcome == Duplicate)
      && (fault == Some(AtFirstCheck) ==> s.outcome == Aborted(AtFirstCheck))
  {
  }

  /** A message from an excluded number changes nothing, and its key stays unmarked. */
  lemma ExcludedIsNoOp(w: World, env: Gateway.Envelope, now: int, fault: Option<Stage>, reply: Ai.Reply)
    requires !Store.IsProcessed(w.db.processed, env.dedupKey) && env.number in w.excluded
    ensures var s := Respond(w, env, now, fault, reply);
      && s.world == w
      && (!CheckFault(fault) ==> s.outcome == Skipped)
      && (CheckFault(fault) ==> s.outcome == Aborted(fault.value))
    ensures !Store.IsProcessed(Respond(w, env, now, fault, reply).world.db.processed, env.dedupKey)
  {
  }

  /**
   * The turns a step leaves: none for a duplicate, an excluded number, a failing
   * dedup check or a failing first log; the user's turn alone when it stops before logging the reply; and the
   * user's turn followed by the reply's when it gets that far. The reply's turn is
   * always the reply that was sent.
   */
  lemma ProcessTurns(w: World, env: Gateway.Envelope, now: int, fault: Option<Stage>, reply: Ai.Reply)
    ensures var s := Respond(w, env, now, fault, reply);
      var user := UserTurn(env, now);
      && (s.outcome in {Aborted(AtFirstCheck), Aborted(AtRecheck), Duplicate, Skipped, Aborted(AtLogUser)} ==>
            s.world.db.turns == w.db.turns)
      && (s.outcome in {Aborted(AtHistory), NoReplyText, Aborted(AtLogReply)} ==> s.world.db.turns == w.db.turns + [user])
      && (s.outcome in {Aborted(AtSend), Aborted(AtMark), Aborted(AtPrune), Handled} ==>
            var reply := reply.text.value;
            && s.world.db.turns == w.db.turns + [user, Store.Turn(env.number, Store.AssistantRole, reply, now)]
            && s.world.sends == w.sends + [SendAttempt(env.number, reply, s.outcome != Aborted(AtSend))])
      && (s.outcome !in {Aborted(AtSend), Aborted(AtMark), Aborted(AtPrune), Handled} ==> s.world.sends == w.sends)
      && s.world.excluded == w.excluded && s.world.db.pokes == w.db.pokes
  {
  }

  /**
   * A step is handled exactly when the key is new, the number is not excluded, no
   * step fails and the engine's answer has content; only then is the key marked. A
   * step whose prune throws has inserted the key without pruning, and any step that
   * ends otherwise leaves the processed table as it was.
   */
  lemma HandledExactly(w: World, env: Gateway.Envelope, now: int, fault: Option<Stage>, reply: Ai.Reply)
    ensures var s := Respond(w, env, now, fault, reply);
      && (s.outcome == Handled <==>
            !Store.IsProcessed(w.db.processed, env.dedupKey) && env.number !in w.excluded
            && fault.None? && reply.text.Some?)
      && (s.outcome == Handled ==>
            s.world.db.processed == Store.Marked(w.db.processed, env.dedupKey, now)
            && Store.IsProcessed(s.world.db.processed, env.dedupKey))
      && (s.outcome == Aborted(AtPrune) ==>
            s.world.db.processed == Store.Inserted(w.db.processed, env.dedupKey, now)
            && Store.IsProcessed(s.world.db.processed, env.dedupKey))
      && (s.outcome != Handled && s.outcome != Aborted(AtPrune) ==> s.world.db.processed == w.db.processed)
  {
    Store.MarkedContains(w.db.processed, env.dedupKey, now);
    if fault.Some? {
      assert fault.value.AtFirstCheck? || fault.value.AtRecheck? || fault.value.AtLogUser? || fault.value.AtHistory?
          || fault.value.AtLogReply? || fault.value.AtSend? || fault.value.AtMark? || fault.value.AtPrune?;
    }
  }

  /**
   * Delivering a handled message again, whatever the engine now answers, changes
   * nothing, and is a duplicate unless the first dedup check throws.
   */
  lemma RedeliveryIsDuplicate(w: World, env: Gateway.Envelope, now: int, fault: Option<Stage>, reply: Ai.Reply,
                              later: int, again: Option<Stage>, other: Ai.Reply)
    requires Respond(w, env, now, fault, reply).outcome == Handled
    ensures var w1 := Respond(w, env, now, fault, reply).world;
      var s := Respond(w1, env, later, again, other);
      && s.world == w1
      && (again != Some(AtFirstCheck) ==> s.outcome == Duplicate)
      && (again == Some(AtFirstCheck) ==> s.outcome == Aborted(AtFirstCheck))
  {
    HandledExactly(w, env, now, fault, reply);
    var w1 := Respond(w, env, now, fault, reply).world;
    DuplicateIsNoOp(w1, env, later, again, other);
  }

  /**
   * When the engine call throws, the customer is still answered: the apology is
   * logged and sent like any reply, and the key is marked.
   */
  lemma EngineFailureStillAnswers(w: World, corpus: Rag.Corpus, env: Gateway.Envelope, now: int, inputs: Inputs)
    requires !Store.IsProcessed(w.db.processed, env.dedupKey) && env.number !in w.excluded && inputs.fault.None?
    requires forall ms :: inputs.engine(ms) == Ai.Threw
    ensures var s := Process(w, corpus, env, now, inputs);
      && s.outcome == Handled
      && s.world.sends == w.sends + [SendAttempt(env.number, Ai.FailureReply, true)]
      && s.world.db.turns == w.db.turns + [UserTurn(env, now), Store.Turn(env.number, Store.AssistantRole, Ai.FailureReply, now)]
  {
    var reply := ReplyFor(w, corpus, env, now, inputs);
    Ai.EngineThrowApologises(corpus, inputs.kbFile, inputs.engine, env.text, HistoryFor(w, env, now), None);
    ProcessTurns(w, env, now, inputs.fault, reply);
    HandledExactly(w, env, now, inputs.fault, reply);
  }

  /**
   * With a clock that never goes back, the reply is generated from a history whose
   * last entry is the message being answered.
   */
  lemma ReplySeesMessage(w: World, env: Gateway.Envelope, now: int)
    requires Store.Chronological(w.db.turns) && forall t | t in w.db.turns :: t.timestamp <= now
    ensures var h := HistoryFor(w, env, now);
      |h| > 0 && h[|h| - 1] == Store.Entry(Store.UserRole, env.text, now)
  {
    Store.HistoryEndsWithLatest(w.db.turns, env.number, Store.UserRole, env.text, now, HistoryLimit);
  }

  /**
   * The handler answers 500 exactly for a payload that makes it throw and for an
   * accepted message whose first dedup check throws; everything else gets 200, and
   * neither of those changes anything.
   */
  lemma WebhookStatus(w: World, corpus: Rag.Corpus, payload: Json.Object, now: int, inputs: Inputs)
    ensures var (r, w1) := Webhook(w, corpus, payload, now, inputs);
      && (r == Answered(500, None) <==>
            Gateway.Classify(payload) == Gateway.Crashed
            || (Gateway.Classify(payload).Accepted? && inputs.fault == Some(AtFirstCheck)))
      && (r.Answered? && r.status != 500 ==> r.status == 200)
      && (r == Answered(500, None) ==> w1 == w)
      && (!Gateway.Classify(payload).Accepted? ==> w1 == w)
  {
    if Gateway.Classify(payload).Accepted? {
      var env := Gateway.Classify(payload).envelope;
      FirstCheckFails(w, env, now, inputs.fault, ReplyFor(w, corpus, env, now, inputs));
    }
  }

  /** A step stops at the first dedup check exactly when that check throws, and then changes nothing. */
  lemma FirstCheckFails(w: World, env: Gateway.Envelope, now: int, fault: Option<Stage>, reply: Ai.Reply)
    ensures var s := Respond(w, env, now, fault, reply);
      && (s.outcome == Aborted(AtFirstCheck) <==> fault == Some(AtFirstCheck))
      && (fault == Some(AtFirstCheck) ==> s.world == w)
  {
  }
}
