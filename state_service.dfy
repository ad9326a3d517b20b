// ConversationStateService: the in-memory dictionary from conversation id to
// the context object the flow engine works on.

module StateService {
  import opened Common
  import opened Models

  class ConversationStateService {
    var contexts: map<string, ConversationContext>

    /** Every context is stored under its own conversation id. */
    ghost predicate Valid()
      reads this, contexts.Values
    {
      forall id | id in contexts :: contexts[id].conversationId == id
    }

    /** `ctx` is the object stored under its id. */
    ghost predicate Holds(ctx: ConversationContext)
      reads this
    {
      ctx.conversationId in contexts && contexts[ctx.conversationId] == ctx
    }

    /** The state of every stored context, by id. */
    function Snapshot(): map<string, CtxState>
      reads this, contexts.Values
    {
      map id | id in contexts :: contexts[id].State()
    }

    constructor ()
      ensures contexts == map[]
      ensures Valid()
    {
      contexts := map[];
    }

    /** The stored context for the id, or a new default one stored under it. */
    method GetOrCreateContext(conversationId: string, now: Instant) returns (ctx: ConversationContext)
      requires Valid()
      modifies this
      ensures Valid() && Holds(ctx) && ctx.conversationId == conversationId
      ensures conversationId in old(contexts) ==> ctx == old(contexts[conversationId]) && contexts == old(contexts)
      ensures conversationId !in old(contexts) ==>
                fresh(ctx) && ctx.State() == DefaultState(now) && contexts == old(contexts)[conversationId := ctx]
      ensures Snapshot() == old(Snapshot())[conversationId := ctx.State()]
      ensures conversationId in old(contexts) ==> Snapshot() == old(Snapshot())
    {
      if conversationId in contexts {
        ctx := contexts[conversationId];
      } else {
        ctx := new ConversationContext(conversationId, now);
        contexts := contexts[conversationId := ctx];
      }
    }

    /** Stamps the activity at `now` and stores the context under its own id. */
    method UpdateContext(ctx: ConversationContext, now: Instant)
      requires Valid()
      modifies this, ctx
      ensures Valid()
      ensures ctx.State() == old(ctx.State()).(lastActivity := now)
      ensures contexts == old(contexts)[ctx.conversationId := ctx]
    {
      ctx.lastActivity := now;
      contexts := contexts[ctx.conversationId := ctx];
    }

    /** Resets the stored object in place; an unknown id is left alone. */
    method ClearContext(conversationId: string, now: Instant)
      requires Valid()
      modifies if conversationId in contexts then {contexts[conversationId]} else {}
      ensures Valid()
      ensures contexts == old(contexts)
      ensures conversationId in contexts ==> contexts[conversationId].State() == DefaultState(now)
      ensures Snapshot() == if conversationId in contexts then old(Snapshot())[conversationId := DefaultState(now)] else old(Snapshot())
    {
      if conversationId in contexts {
        contexts[conversationId].Reset(now);
      }
    }
  }
}
