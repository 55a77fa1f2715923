/** The in-memory registry of contexts keyed by their id. */
module ContextManagers {
  import opened Wrappers

  /** A context: its id and whatever else it carries. */
  datatype Context<T> = Context(id: string, body: T)

  /** `self.contexts[id]`: the stored context, or a `KeyError` for an unknown id. */
  function Lookup<T>(contexts: map<string, Context<T>>, id: string): (r: Result<Context<T>>)
    ensures r.Ok? <==> id in contexts
    ensures r.Ok? ==> r.value == contexts[id]
    ensures r.Err? ==> r.error == "KeyError"
  {
    if id in contexts then Ok(contexts[id]) else Err("KeyError")
  }

  /** `contexts[c.id] = c`: the context is stored under its own id. */
  function Added<T>(contexts: map<string, Context<T>>, c: Context<T>): map<string, Context<T>>
  {
    contexts[c.id := c]
  }

  /** After adding a context, looking up its id gives it back. */
  lemma AddThenGet<T>(contexts: map<string, Context<T>>, c: Context<T>)
    ensures Lookup(Added(contexts, c), c.id) == Ok(c)
  {
  }

  /** Adding under an id already present replaces that entry and stores no more entries than before. */
  lemma AddReplaces<T>(contexts: map<string, Context<T>>, c: Context<T>)
    requires c.id in contexts
    ensures Added(contexts, c).Keys == contexts.Keys
    ensures |Added(contexts, c)| == |contexts|
  {
    assert Added(contexts, c).Keys == contexts.Keys;
  }

  /** Adding leaves every other id's lookup as it was, found or not. */
  lemma AddKeepsOthers<T>(contexts: map<string, Context<T>>, c: Context<T>, id: string)
    requires id != c.id
    ensures Lookup(Added(contexts, c), id) == Lookup(contexts, id)
  {
  }

  /** `ContextManager`. */
  class ContextManager<T> {
    var contexts: map<string, Context<T>>

    constructor()
      ensures contexts == map[]
    {
      contexts := map[];
    }

    /** `add_context`. */
    method AddContext(c: Context<T>)
      modifies this
      ensures contexts == Added(old(contexts), c)
      ensures contexts.Keys == old(contexts.Keys) + {c.id}
    {
      contexts := contexts[c.id := c];
    }

    /** `get_context`. */
    method GetContext(id: string) returns (r: Result<Context<T>>)
      ensures r == Lookup(contexts, id)
    {
      if id in contexts {
        r := Ok(contexts[id]);
      } else {
        r := Err("KeyError");
      }
    }
  }
}
