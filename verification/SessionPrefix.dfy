/** From a response to the next request: what the provider cached comes out unchanged. */
module SessionPrefix {
  import opened Json
  import opened JsonEdits
  import opened Values
  import opened LiveZone
  import opened Tools
  import opened Rewriting
  import opened FrozenPrefix
  import opened PrefixTracker
  import Ccr

  /** The floor a session hands out after an answer and other sessions' operations. */
  function FloorAfter(t: Trackers, key: string, read: nat, written: nat, estimates: seq<nat>, at: nat, ops: seq<Op>,
                      now: nat): nat
  {
    Queried(Run(Updated(t, key, read, written, estimates, at), ops), key, now).0
  }

  /**
   * A request was forwarded as `last` and answered with enough cached tokens; the session asks again
   * within its time to live, whatever other sessions did. Then message or item `i` of the new request
   * is frozen exactly when the old request up to it fits the cached tokens (or a breakpoint freezes
   * it), and a frozen one is sent at the same index with the same characters.
   */
  lemma CachedVerbatim(shape: Shape, last: Val, extra: seq<nat>, t: Trackers, key: string, read: nat, written: nat,
                       at: nat, ops: seq<Op>, now: nat, d: Doc, ctx: Context, prim: Primitives, st: Ccr.StoreState,
                       i: nat)
    requires shape != AnthropicBatches && at <= now <= at + 600 && Others(ops, key, at, now)
    requires ctx.frozen == FloorAfter(t, key, read, written, RequestEstimates(shape, last) + extra, at, ops, now)
    requires SaturatingAdd(read, written) >= 1024
    requires shape == OpenAiResponses ==> Get(last, "instructions") == Get(Sem(d.root, prim.number), "instructions")
    requires Walked(shape, last).Some? && i < |Walked(shape, last).value|
    requires Live(shape, d.root, ctx.frozen).Some? && HasPath(d.root, [Live(shape, d.root, ctx.frozen).value.0, i])
    ensures var p := [Live(shape, d.root, ctx.frozen).value.0, i];
            && (Frozen(shape, d.root, ctx.frozen, p) <==>
                Covers(shape, last, SaturatingAdd(read, written), i)
                || (shape == AnthropicMessages && PinnedFrom(d.root, i)))
            && (Frozen(shape, d.root, ctx.frozen, p) ==>
                  var n := NewDoc(shape, d, ctx, prim, st).root;
                  HasPath(n, p) && At(n, p) == At(d.root, p) && Render(At(n, p)) == Render(At(d.root, p)))
  {
    hide Live, RequestEstimates, Covers, Floor, PinnedFrom, NewDoc, Walked, Get, Sem, Updated, Run, Queried, Others;
    FloorRemembered(t, key, read, written, RequestEstimates(shape, last) + extra, at, ops, now);
    MessagesAligned(shape, last, extra, d.root, prim.number, SaturatingAdd(read, written), i);
    var p := [Live(shape, d.root, ctx.frozen).value.0, i];
    if Frozen(shape, d.root, ctx.frozen, p) { FrozenVerbatim(shape, d, ctx, prim, st, p); }
  }
}
