/**
 * The rule every inbound adapter repeats: fall back to "anonymous" when the
 * extracted value is missing or empty, put the value under the configured key,
 * delegate, and remove the key whether the delegate returns or throws. The
 * outbound adapters share the other half: only a non-empty context value is
 * copied onto an outgoing message.
 */
module Propagation {
  import opened Wrappers
  import opened Diagnostic
  import opened Servlet

  const DefaultMdcKey: string := "transaction"
  const DefaultHeaderName: string := "x-transaction"
  const Anonymous: string := "anonymous"

  /** The value an inbound adapter puts in the context for an extracted header or principal name. */
  function Resolve(extracted: Option<string>): (r: string)
    ensures extracted.None? || |extracted.value| == 0 ==> r == Anonymous
    ensures extracted.Some? && |extracted.value| > 0 ==> r == extracted.value
    ensures |r| > 0
  {
    if extracted.None? || |extracted.value| == 0 then Anonymous else extracted.value
  }

  /** The value an outbound adapter copies: present only when the context holds a non-empty one. */
  function Traced(ctx: Context, key: string): (r: Option<string>)
    ensures r.Some? <==> key in ctx && |ctx[key]| > 0
    ensures r.Some? ==> r.value == ctx[key]
  {
    if key in ctx && |ctx[key]| > 0 then Some(ctx[key]) else None
  }

  /** One scoped run: what the delegate observes, what is left afterwards, and how it exits. */
  datatype ScopedRun = ScopedRun(observed: Context, after: Context, outcome: Outcome)

  /**
   * put(key, value); try { chain } finally { remove(key) }, on the context `ctx`
   * the thread holds when the adapter is entered.
   */
  function Scoped(key: string, value: string, ctx: Context, chain: Chain): (r: ScopedRun)
    // the delegate sees the value under the key, and every other entry as it was
    ensures key in r.observed && r.observed[key] == value
    ensures r.observed - {key} == ctx - {key}
    // afterwards the key is gone on either exit, whatever was there before
    ensures key !in r.after
    // every other entry is as the delegate left it
    ensures r.after - {key} == chain(r.observed).context - {key}
    // the delegate's exit, normal or failed, is passed on unchanged
    ensures r.outcome == chain(r.observed).outcome
  {
    var observed := ctx[key := value];
    var result := chain(observed);
    ScopedRun(observed, result.context - {key}, result.outcome)
  }

  /**
   * A thread that serves one request after another through the same adapter:
   * the i-th request puts `values[i]` and runs its own delegate `chains[i]`,
   * starting from what the (i-1)-th left.
   */
  function ServeOnThread(key: string, values: seq<string>, ctx: Context, chains: seq<Chain>): (runs: seq<ScopedRun>)
    requires |chains| == |values|
    ensures |runs| == |values|
    // every request's delegate sees its own value, never a stale one
    ensures forall i :: 0 <= i < |runs| ==> key in runs[i].observed && runs[i].observed[key] == values[i]
    // no request leaves its value behind for the next one
    ensures forall i :: 0 <= i < |runs| ==> key !in runs[i].after
    ensures |runs| > 0 ==> runs[0] == Scoped(key, values[0], ctx, chains[0])
    ensures forall i :: 0 < i < |runs| ==> runs[i] == Scoped(key, values[i], runs[i - 1].after, chains[i])
    decreases |values|
  {
    if values == [] then []
    else
      var first := Scoped(key, values[0], ctx, chains[0]);
      [first] + ServeOnThread(key, values[1..], first.after, chains[1..])
  }

  /**
   * When every delegate leaves the context alone, any number of requests leave
   * the thread's context exactly as it was, minus the adapter's own key.
   */
  lemma {:induction false} TransparentChainRestoresContext(key: string, values: seq<string>, ctx: Context, chains: seq<Chain>)
    requires |chains| == |values|
    requires forall j, c :: 0 <= j < |chains| ==> chains[j](c).context == c
    ensures forall i :: 0 <= i < |values| ==> ServeOnThread(key, values, ctx, chains)[i].after == ctx - {key}
  {
    if values != [] {
      var first := Scoped(key, values[0], ctx, chains[0]);
      assert first.after == ctx - {key};
      assert forall j, c :: 0 <= j < |chains[1..]| ==> chains[1..][j](c).context == c by {
        forall j, c | 0 <= j < |chains[1..]|
          ensures chains[1..][j](c).context == c
        {
          assert chains[1..][j] == chains[j + 1];
        }
      }
      TransparentChainRestoresContext(key, values[1..], first.after, chains[1..]);
      assert first.after - {key} == ctx - {key};
      var runs := ServeOnThread(key, values, ctx, chains);
      var rest := ServeOnThread(key, values[1..], first.after, chains[1..]);
      assert runs == [first] + rest;
      forall i | 0 <= i < |values|
        ensures runs[i].after == ctx - {key}
      {
        if i > 0 {
          assert runs[i] == rest[i - 1];
        }
      }
    }
  }

  /** An inbound adapter installed in front of `app`, seen as a chain itself. */
  function Nest(key: string, value: string, app: Chain): (r: Chain) {
    (c: Context) => var run := Scoped(key, value, c, app); ChainResult(run.after, run.outcome)
  }

  /**
   * Two inbound adapters in one chain (a header filter in front of a principal
   * filter, say): the application sees both values, the inner one winning when
   * they share a key, and afterwards neither key is left behind.
   */
  lemma NestedScopes(outerKey: string, outerValue: string, innerKey: string, innerValue: string,
                     ctx: Context, app: Chain)
    ensures var seen := ctx[outerKey := outerValue][innerKey := innerValue];
            var outer := Scoped(outerKey, outerValue, ctx, Nest(innerKey, innerValue, app));
            && outer.after == app(seen).context - {innerKey} - {outerKey}
            && outer.outcome == app(seen).outcome
  {
  }

  /**
   * What an inbound adapter puts is what an outbound adapter running inside
   * the delegate copies onto its message: the resolved value is never empty.
   */
  lemma InboundValueReachesOutbound(key: string, extracted: Option<string>, ctx: Context, chain: Chain)
    ensures Traced(Scoped(key, Resolve(extracted), ctx, chain).observed, key) == Some(Resolve(extracted))
  {
  }
}
