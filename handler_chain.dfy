/** A handler chain: an ordered list of callbacks registered for one exit category.
    Registration prepends; dispatch calls the callbacks front to back, each on the
    exit context the previous one left behind (the C++ handlers receive the VMCS and
    the info record by reference), and stops at the first that claims the exit. */
module HandlerChain {

  /** What a handler hands back: whether it claimed the exit, and the context as it left it. */
  datatype Reply<C> = Reply(claimed: bool, ctx: C)

  /** An opaque registered callback. */
  type Handler<!C> = C -> Reply<C>

  /** The result of a dispatch: whether some handler claimed the exit, how many
      handlers were invoked, and the context after the last of them. */
  datatype Dispatched<C> = Dispatched(claimed: bool, invoked: nat, ctx: C)

  /** The context after the first `k` handlers of the chain have each run on the
      context the previous one left, whatever they answered. */
  function After<C>(chain: seq<Handler<C>>, k: nat, ctx: C): C
    requires k <= |chain|
  {
    if k == 0 then ctx else chain[k - 1](After(chain, k - 1, ctx)).ctx
  }

  /** Handler `i` declines the exit when it is reached. */
  predicate Declines<C>(chain: seq<Handler<C>>, i: nat, ctx: C)
    requires i < |chain|
  {
    !chain[i](After(chain, i, ctx)).claimed
  }

  /** Handler `k` is the first to claim the exit: every handler before it declines. */
  predicate FirstClaimAt<C>(chain: seq<Handler<C>>, k: nat, ctx: C)
  {
    && k < |chain|
    && (forall i :: 0 <= i < k ==> Declines(chain, i, ctx))
    && !Declines(chain, k, ctx)
  }

  /** Every handler of the chain declines the exit (true of the empty chain). */
  predicate AllDecline<C>(chain: seq<Handler<C>>, ctx: C)
  {
    forall i :: 0 <= i < |chain| ==> Declines(chain, i, ctx)
  }

  /** The context handler `k` hands back when it is reached. */
  function ReplyAt<C>(chain: seq<Handler<C>>, k: nat, ctx: C): C
    requires k < |chain|
  {
    chain[k](After(chain, k, ctx)).ctx
  }

  /** Dispatch until claimed: front to back, stopping at the first handler that returns true. */
  function Dispatch<C>(chain: seq<Handler<C>>, ctx: C): (r: Dispatched<C>)
    ensures r.invoked <= |chain|
    ensures r.claimed ==> 1 <= r.invoked
    ensures !r.claimed ==> r.invoked == |chain|
    decreases |chain|
  {
    if chain == [] then Dispatched(false, 0, ctx)
    else
      var reply := chain[0](ctx);
      if reply.claimed then Dispatched(true, 1, reply.ctx)
      else
        var rest := Dispatch(chain[1..], reply.ctx);
        Dispatched(rest.claimed, rest.invoked + 1, rest.ctx)
  }

  /** `d` with `n` more handlers counted as invoked. */
  function Shifted<C>(d: Dispatched<C>, n: nat): Dispatched<C>
  {
    d.(invoked := d.invoked + n)
  }

  /** Running the tail from the context the head left is running the whole chain one step later. */
  lemma {:induction false} AfterTail<C>(chain: seq<Handler<C>>, k: nat, ctx: C)
    requires 1 <= |chain| && k < |chain|
    ensures After(chain, k + 1, ctx) == After(chain[1..], k, chain[0](ctx).ctx)
  {
    if k > 0 {
      AfterTail(chain, k - 1, ctx);
    }
  }

  /** Dispatch against the reference definition: a claimed dispatch stops at the first
      claiming handler and returns what it handed back; an unclaimed one ran every
      handler, each declining. */
  lemma {:induction false} DispatchSpec<C>(chain: seq<Handler<C>>, ctx: C)
    ensures var r := Dispatch(chain, ctx);
      && (r.claimed ==> FirstClaimAt(chain, r.invoked - 1, ctx) && r.ctx == ReplyAt(chain, r.invoked - 1, ctx))
      && (!r.claimed ==> AllDecline(chain, ctx) && r.ctx == After(chain, |chain|, ctx))
    decreases |chain|
  {
    if chain != [] {
      var reply := chain[0](ctx);
      var tail := chain[1..];
      if !reply.claimed {
        DispatchSpec(tail, reply.ctx);
        var rest := Dispatch(tail, reply.ctx);
        forall i | 0 <= i < |tail|
          ensures After(chain, i + 1, ctx) == After(tail, i, reply.ctx)
          ensures chain[i + 1] == tail[i]
        {
          AfterTail(chain, i, ctx);
        }
        assert Declines(chain, 0, ctx);
        if rest.claimed {
          forall i | 0 <= i < rest.invoked ensures Declines(chain, i, ctx) {
            if i > 0 { assert Declines(tail, i - 1, reply.ctx); }
          }
        } else {
          forall i | 0 <= i < |chain| ensures Declines(chain, i, ctx) {
            if i > 0 { assert Declines(tail, i - 1, reply.ctx); }
          }
          AfterTail(chain, |tail|, ctx);
        }
      }
    }
  }

  /** The chain claims the exit exactly when some handler returns true when it is reached. */
  lemma ClaimedIffSomeHandlerClaims<C>(chain: seq<Handler<C>>, ctx: C)
    ensures Dispatch(chain, ctx).claimed <==> exists k :: 0 <= k < |chain| && !Declines(chain, k, ctx)
  {
    DispatchSpec(chain, ctx);
  }

  /** A property of the context that every handler preserves holds after dispatch. */
  lemma {:induction false} DispatchPreserves<C>(chain: seq<Handler<C>>, ctx: C, p: C -> bool)
    requires p(ctx)
    requires forall i, c :: 0 <= i < |chain| && p(c) ==> p(chain[i](c).ctx)
    ensures p(Dispatch(chain, ctx).ctx)
    decreases |chain|
  {
    if chain != [] {
      var reply := chain[0](ctx);
      assert p(chain[0](ctx).ctx);
      if !reply.claimed {
        forall i, c | 0 <= i < |chain[1..]| && p(c) ensures p(chain[1..][i](c).ctx) {
          assert chain[1..][i] == chain[i + 1];
        }
        DispatchPreserves(chain[1..], reply.ctx, p);
      }
    }
  }

  /** Registration order against dispatch order: after registering `first` and then
      `second`, `second` runs first; when it declines and `first` claims, `first` sees
      the context `second` left and two handlers have run. */
  lemma LastRegisteredRunsFirst<C>(chain: seq<Handler<C>>, first: Handler<C>, second: Handler<C>, ctx: C)
    requires !second(ctx).claimed && first(second(ctx).ctx).claimed
    ensures Dispatch([second] + ([first] + chain), ctx) == Dispatched(true, 2, first(second(ctx).ctx).ctx)
  {
    var full := [second] + ([first] + chain);
    assert full[0] == second && full[1..] == [first] + chain;
    assert ([first] + chain)[0] == first;
  }

  /** The dispatch loop: calls the handlers front to back and returns at the first
      that claims; proved to compute `Dispatch`. */
  method RunChain<C>(chain: seq<Handler<C>>, ctx: C) returns (claimed: bool, invoked: nat, out: C)
    ensures Dispatched(claimed, invoked, out) == Dispatch(chain, ctx)
  {
    var i := 0;
    var cur := ctx;
    while i < |chain|
      invariant 0 <= i <= |chain|
      invariant Dispatch(chain, ctx) == Shifted(Dispatch(chain[i..], cur), i)
    {
      assert chain[i..][0] == chain[i] && chain[i..][1..] == chain[i + 1..];
      var reply := chain[i](cur);
      if reply.claimed {
        return true, i + 1, reply.ctx;
      }
      cur := reply.ctx;
      i := i + 1;
    }
    assert chain[i..] == [];
    return false, i, cur;
  }
}
