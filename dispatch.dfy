/**
 * What every property kind shares: the three-valued comparison that decides
 * whether an assignment is a change, and the callback chain that delivers a
 * change to its listeners, in binding order, until one of them says it has
 * handled it.
 */
module Dispatch {

  /**
   * The outcome of evaluating `bool(a != b)` in Python: false, true, or an
   * exception (an elementwise array comparison, say, has no single truth value).
   */
  datatype Cmp = Equal | Unequal | Incomparable

  /** The policy of the observable containers: a comparison that fails counts as a change. */
  predicate Changed(c: Cmp)
  {
    c != Equal
  }

  /** A bound listener. What it returns when called is given separately, by a `handles` function. */
  datatype Callback = Callback(id: nat)

  /** One invocation `callback(instance, arg)`. */
  datatype Call<I, W> = Call(callback: Callback, instance: I, arg: W)

  /** Every callback of `chain` called once with `(obj, arg)`, in order, with no short-circuit. */
  function Invocations<I, W>(chain: seq<Callback>, obj: I, arg: W): (calls: seq<Call<I, W>>)
    ensures |calls| == |chain|
    ensures forall i :: 0 <= i < |chain| ==> calls[i] == Call(chain[i], obj, arg)
  {
    if chain == [] then [] else [Call(chain[0], obj, arg)] + Invocations(chain[1..], obj, arg)
  }

  /**
   * The calls made when a change of value `arg` is delivered to `chain`: the
   * callbacks run in order, and the loop stops after the first one whose
   * return value is truthy.
   */
  function Fired<I, W>(chain: seq<Callback>, obj: I, arg: W, handles: (Callback, W) -> bool): (calls: seq<Call<I, W>>)
    ensures |calls| <= |chain|
    ensures forall i :: 0 <= i < |calls| ==> calls[i] == Call(chain[i], obj, arg)
    ensures forall i :: 0 <= i < |calls| - 1 ==> !handles(chain[i], arg)
    ensures |calls| < |chain| ==> 0 < |calls| && handles(chain[|calls| - 1], arg)
  {
    if chain == [] then []
    else if handles(chain[0], arg) then [Call(chain[0], obj, arg)]
    else [Call(chain[0], obj, arg)] + Fired(chain[1..], obj, arg, handles)
  }

  /** The position of the first callback of `chain` that handles `arg`, or `|chain|` when none does. */
  function FirstHandled<W>(chain: seq<Callback>, arg: W, handles: (Callback, W) -> bool): (k: nat)
    ensures k <= |chain|
    ensures forall i :: 0 <= i < k ==> !handles(chain[i], arg)
    ensures k < |chain| ==> handles(chain[k], arg)
  {
    if chain == [] then 0
    else if handles(chain[0], arg) then 0
    else 1 + FirstHandled(chain[1..], arg, handles)
  }

  /**
   * The callbacks invoked are exactly the prefix of the chain up to and
   * including the first one that handles the change.
   */
  lemma {:induction false} FiredIsPrefixThroughFirstHandled<I, W>(chain: seq<Callback>, obj: I, arg: W, handles: (Callback, W) -> bool)
    ensures var k := FirstHandled(chain, arg, handles);
      Fired(chain, obj, arg, handles) == Invocations(chain[..if k < |chain| then k + 1 else k], obj, arg)
  {
    if chain != [] && !handles(chain[0], arg) {
      FiredIsPrefixThroughFirstHandled(chain[1..], obj, arg, handles);
      var k := FirstHandled(chain[1..], arg, handles);
      var n := if k < |chain[1..]| then k + 1 else k;
      assert chain[..n + 1] == [chain[0]] + chain[1..][..n];
    }
  }

  /** When no callback handles the change, every bound callback is invoked exactly once, in order. */
  lemma NoneHandledReachesAll<I, W>(chain: seq<Callback>, obj: I, arg: W, handles: (Callback, W) -> bool)
    requires forall i :: 0 <= i < |chain| ==> !handles(chain[i], arg)
    ensures Fired(chain, obj, arg, handles) == Invocations(chain, obj, arg)
  {
    FiredIsPrefixThroughFirstHandled(chain, obj, arg, handles);
    assert chain[..|chain|] == chain;
  }

  /** The loop `for callback in chain: if callback(obj, arg): break`. */
  method RunChain<I, W>(chain: seq<Callback>, obj: I, arg: W, handles: (Callback, W) -> bool) returns (calls: seq<Call<I, W>>)
    ensures calls == Fired(chain, obj, arg, handles)
  {
    calls := [];
    var i := 0;
    while i < |chain|
      invariant 0 <= i <= |chain|
      invariant |calls| == i
      invariant forall j :: 0 <= j < i ==> calls[j] == Call(chain[j], obj, arg) && !handles(chain[j], arg)
    {
      calls := calls + [Call(chain[i], obj, arg)];
      if handles(chain[i], arg) {
        break;
      }
      i := i + 1;
    }
    FiredIsPrefixThroughFirstHandled(chain, obj, arg, handles);
  }
}
