/**
 * Parameters carried by a request context (context.go). A context is a map
 * from keys to values; the logger keeps one list of parameters under the
 * key "log_params".
 */
module ContextParams {
  import opened KV

  /** The key under which the parameter list is stored (declared in logger.go). */
  const CONTEXT_PARAMS_KEY := "log_params"

  /** A value stored in a context: a parameter list, or a value of any other Go type. */
  datatype Value = Params(list: seq<KVParam>) | Foreign(payload: string)

  /** `context.Context`, restricted to string keys; `WithValue` shadows an earlier entry. */
  type Context = map<string, Value>

  /**
   * The parameter list of `ctx`; a missing entry, or an entry of another type,
   * reads as the empty list.
   */
  function GetContextParams(ctx: Context): (r: seq<KVParam>)
    ensures CONTEXT_PARAMS_KEY !in ctx ==> r == []
    ensures CONTEXT_PARAMS_KEY in ctx && ctx[CONTEXT_PARAMS_KEY].Foreign? ==> r == []
    ensures CONTEXT_PARAMS_KEY in ctx && ctx[CONTEXT_PARAMS_KEY].Params? ==> r == ctx[CONTEXT_PARAMS_KEY].list
  {
    if CONTEXT_PARAMS_KEY in ctx && ctx[CONTEXT_PARAMS_KEY].Params? then ctx[CONTEXT_PARAMS_KEY].list else []
  }

  /**
   * A new context whose parameter list is the old one followed by `params`;
   * every other key keeps its value.
   */
  function CtxWithValue(ctx: Context, params: seq<KVParam>): (r: Context)
    ensures GetContextParams(r) == GetContextParams(ctx) + params
    ensures r.Keys == ctx.Keys + {CONTEXT_PARAMS_KEY}
    ensures forall k :: k in ctx && k != CONTEXT_PARAMS_KEY ==> r[k] == ctx[k]
  {
    var oldParams := GetContextParams(ctx);
    ctx[CONTEXT_PARAMS_KEY := Params(oldParams + params)]
  }

  /** Two nested attachments read back in insertion order, duplicates kept. */
  lemma NestedAttachments(ctx: Context, p1: seq<KVParam>, p2: seq<KVParam>)
    ensures GetContextParams(CtxWithValue(CtxWithValue(ctx, p1), p2)) == GetContextParams(ctx) + p1 + p2
  {
  }

  /** Attaching nothing leaves the readable list unchanged. */
  lemma AttachNothing(ctx: Context)
    ensures GetContextParams(CtxWithValue(ctx, [])) == GetContextParams(ctx)
  {
    assert GetContextParams(ctx) + [] == GetContextParams(ctx);
  }
}
