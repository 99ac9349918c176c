/**
 * The running server of server.js as an object: the database, the retriever's
 * loaded chunks, the set of excluded numbers and the sends made so far. Its
 * methods are the request handlers and the follow-up sweep, each proved to leave
 * the state that the pure step of `Server` or `Poke` describes.
 */
module Bot {
  import opened Wrappers
  import Rag
  import Store
  import Json
  import Gateway
  import Ai
  import Server
  import Poke

  class Bot {
    const store: Store.ConversationStore
    const retriever: Rag.Retriever
    var excluded: set<string>
    var sends: seq<Server.SendAttempt>

    /**
     * Start-up: the database reopened with the rows it holds, the chunk file loaded
     * when the retrieval module is imported (`None` for a missing or unparsable file),
     * and the excluded numbers read from their file.
     */
    constructor (tables: Store.Tables, chunkFile: Option<seq<Rag.Chunk>>, initialExcluded: set<string>)
      ensures World() == Server.World(tables, initialExcluded, [])
      ensures retriever.State() == if chunkFile.Some? then Rag.Corpus(chunkFile.value, true) else Rag.Corpus([], false)
      ensures fresh(store) && fresh(retriever)
    {
      store := new Store.ConversationStore(tables);
      retriever := new Rag.Retriever();
      excluded := initialExcluded;
      sends := [];
      new;
      var _ := retriever.Load(chunkFile);
    }

    function World(): Server.World
      reads this, store
    {
      Server.World(store.Snapshot(), excluded, sends)
    }

    /** The body of the webhook's processing, for an accepted message. */
    method Process(env: Gateway.Envelope, now: int, inputs: Server.Inputs) returns (outcome: Server.Outcome)
      modifies this, store
      ensures Server.Step(outcome, World()) == Server.Process(old(World()), retriever.State(), env, now, inputs)
    {
      ghost var w := World();
      var fault := inputs.fault;
      if fault == Some(Server.AtFirstCheck) {
        return Server.Aborted(Server.AtFirstCheck);
      }
      if Store.IsProcessed(store.processed, env.dedupKey) {
        return Server.Duplicate;
      }
      if fault == Some(Server.AtRecheck) {
        return Server.Aborted(Server.AtRecheck);
      }
      if env.number in excluded {
        return Server.Skipped;
      }
      if fault == Some(Server.AtLogUser) {
        return Server.Aborted(Server.AtLogUser);
      }
      store.LogMessage(env.number, Store.UserRole, env.text, now);
      if fault == Some(Server.AtHistory) {
        return Server.Aborted(Server.AtHistory);
      }
      var history := Store.History(store.turns, env.number, Server.HistoryLimit);
      var reply := Ai.GenerateReply(retriever.State(), inputs.kbFile, inputs.engine, env.text, history, None);
      assert reply == Server.ReplyFor(w, retriever.State(), env, now, inputs);
      if reply.text.None? {
        return Server.NoReplyText;
      }
      if fault == Some(Server.AtLogReply) {
        return Server.Aborted(Server.AtLogReply);
      }
      var text := reply.text.value;
      store.LogMessage(env.number, Store.AssistantRole, text, now);
      if fault == Some(Server.AtSend) {
        sends := sends + [Server.SendAttempt(env.number, text, false)];
        return Server.Aborted(Server.AtSend);
      }
      sends := sends + [Server.SendAttempt(env.number, text, true)];
      if fault == Some(Server.AtMark) {
        return Server.Aborted(Server.AtMark);
      }
      if fault == Some(Server.AtPrune) {
        store.InsertProcessed(env.dedupKey, now);
        return Server.Aborted(Server.AtPrune);
      }
      store.MarkMessageProcessed(env.dedupKey, now);
      return Server.Handled;
    }

    /** `POST /webhook`: classify the payload, then process an accepted message. */
    method HandleWebhook(payload: Json.Object, now: int, inputs: Server.Inputs) returns (result: Server.WebhookResult)
      modifies this, store
      ensures (result, World()) == Server.Webhook(old(World()), retriever.State(), payload, now, inputs)
    {
      match Gateway.Classify(payload)
      case Crashed => result := Server.Answered(500, None);
      case Unsupported => result := Server.OutsideModel;
      case Discarded(_) => result := Server.Answered(200, None);
      case Accepted(env) =>
        var outcome := Process(env, now, inputs);
        if outcome == Server.Aborted(Server.AtFirstCheck) {
          result := Server.Answered(500, None);
        } else {
          result := Server.Answered(200, Some(outcome));
        }
    }

    /** `POST /api/excluded/:waId` */
    method Exclude(n: string)
      modifies this
      ensures excluded == old(excluded) + {n} && n in excluded
      ensures sends == old(sends)
    {
      excluded := excluded + {n};
    }

    /** `DELETE /api/excluded/:waId` */
    method Include(n: string)
      modifies this
      ensures excluded == old(excluded) - {n} && n !in excluded
      ensures sends == old(sends)
    {
      excluded := excluded - {n};
    }

    /**
     * `getConversationHistory(waId, 10)` and then `generatePokeMessage`: the
     * follow-up for `n` is what the sweep's composer gives for that number's turns,
     * which, as written, is the picked template whatever the engine answers.
     */
    method GeneratePokeMessage(n: string, kbFile: Option<string>, input: Poke.PokeInput) returns (message: string)
      ensures message == Poke.PokeText(store.turns, Poke.Compose(retriever.State(), kbFile), n, input)
      ensures message == Poke.Template(input.pick)
    {
      var history := Store.History(store.turns, n, Poke.PokeHistoryLimit);
      var reply := Ai.GenerateReply(retriever.State(), kbFile, input.engine, Poke.PokePrompt(history), [], None);
      message := Poke.PokeMessageAsWritten(history, input.pick, reply);
      Poke.ComposeReadsHistory(store.turns, retriever.State(), kbFile, n, input);
    }

    /**
     * The loop body of `runAutoPoke` for the client `n`: skip an excluded number,
     * otherwise compose the follow-up from the client's turns, log it and send it;
     * `input.fault` says which of these steps throws.
     */
    method PokeClient(n: string, compose: Poke.Composer, input: Poke.PokeInput)
      modifies this, store
      ensures World() == Poke.PokeStep(old(World()), compose, n, input)
    {
      if n in excluded || input.fault == Some(Poke.AtPokeHistory) {
        return;
      }
      var message := compose(n, Store.TurnsOf(store.turns, n), input);
      if input.fault == Some(Poke.AtPokeLog) {
        return;
      }
      store.LogMessage(n, Store.AssistantRole, message, input.at);
      sends := sends + [Server.SendAttempt(n, message, input.fault != Some(Poke.AtPokeSend))];
    }

    /** The `for` loop of `runAutoPoke` over the listed clients, in order. */
    method PokeClients(clients: seq<Store.Candidate>, compose: Poke.Composer, plan: nat -> Poke.PokeInput)
      modifies this, store
      ensures World() == Poke.Sweep(old(World()), compose, clients, plan, 0)
    {
      ghost var w0 := World();
      for i := 0 to |clients|
        invariant Poke.Sweep(World(), compose, clients, plan, i) == Poke.Sweep(w0, compose, clients, plan, 0)
      {
        PokeClient(clients[i].waId, compose, plan(i));
      }
    }

    /**
     * `runAutoPoke`: list the clients due for a follow-up once, at `now`, then
     * sweep them, each follow-up composed as `GeneratePokeMessage` does.
     * `plan(i)` is what the world supplies to the i-th listed client.
     */
    method RunAutoPoke(now: int, kbFile: Option<string>, plan: nat -> Poke.PokeInput)
      modifies this, store
      ensures World() == Poke.AutoPoke(old(World()), retriever.State(), kbFile, now, plan)
    {
      var clients := Store.ClientsNeedingPoke(store.turns, now);
      PokeClients(clients, Poke.Compose(retriever.State(), kbFile), plan);
    }
  }
}
