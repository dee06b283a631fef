/**
 * The observable list and the list-valued property. Keyed writes dispatch only
 * on a change; insertion, removal and extension always dispatch once.
 * Whole-value assignment always rewrites the contents of the same wrapper and
 * runs the callbacks only when the new list differs.
 */
module ListProperties {
  import opened Wrappers
  import opened Dispatch
  import opened Properties

  /**
   * Python's reading of an index into a list of length `n`: negative indices
   * count from the end; anything outside `[-n, n)` raises `IndexError`.
   */
  function ResolveIndex(index: int, n: nat): (r: Option<nat>)
    ensures r.Some? <==> 0 <= index + n && index < n
    ensures r.Some? ==> r.value < n && r.value == index % n
  {
    if 0 <= index < n then Some(index)
    else if 0 <= index + n && index < 0 then Some(index + n)
    else None
  }

  /** Where `list.insert(index, x)` puts `x` in a list of length `n`: out-of-range indices are clamped, never refused. */
  function InsertPosition(index: int, n: nat): (p: nat)
    ensures p <= n
    ensures 0 <= index <= n ==> p == index
    ensures 0 <= index + n && index < 0 ==> p == index + n
    ensures index > n ==> p == n
    ensures index + n < 0 ==> p == 0
  {
    if index < 0 then (if index + n < 0 then 0 else index + n)
    else if index > n then n
    else index
  }

  /**
   * `compare_sequences`: walks the pairs of `zip(xs, ys)` (so only the common
   * prefix) and answers false at the first pair that compares unequal or whose
   * comparison raises.
   */
  function CompareSequences<T>(cmp: (T, T) -> Cmp, xs: seq<T>, ys: seq<T>): (same: bool)
    ensures same <==> forall i :: 0 <= i < |xs| && i < |ys| ==> cmp(xs[i], ys[i]) == Equal
  {
    if xs == [] || ys == [] then true
    else if cmp(xs[0], ys[0]) != Equal then false
    else
      var rest := CompareSequences(cmp, xs[1..], ys[1..]);
      assert forall i :: 1 <= i < |xs| && i < |ys| ==> xs[i] == xs[1..][i - 1] && ys[i] == ys[1..][i - 1];
      rest
  }

  /** Whether `ListProperty.__set__` runs the callbacks: a length change, or a common prefix that is not equal. */
  predicate ListChanged<T>(cmp: (T, T) -> Cmp, current: seq<T>, value: seq<T>)
  {
    |current| != |value| || !CompareSequences(cmp, current, value)
  }

  /** Two lists of the same length that compare equal pairwise count as unchanged; any other pair counts as changed. */
  lemma ListChangedExactly<T>(cmp: (T, T) -> Cmp, current: seq<T>, value: seq<T>)
    ensures !ListChanged(cmp, current, value) <==>
      |current| == |value| && forall i :: 0 <= i < |current| ==> cmp(current[i], value[i]) == Equal
  {
  }

  /**
   * A list wrapper. `dispatched` records, in order, the argument of every call
   * this wrapper has made to its dispatch function.
   */
  class ObservableList<T> {
    var list: seq<T>
    const dispatch: Dispatcher
    ghost var dispatched: seq<seq<T>>

    constructor (items: seq<T>, dispatch: Dispatcher)
      ensures list == items && this.dispatch == dispatch && dispatched == []
    {
      list := items;
      this.dispatch := dispatch;
      dispatched := [];
    }

    /**
     * Building a wrapper: a list, a tuple or another observable list is copied
     * into a fresh list; any other argument raises `ValueError`.
     */
    static method Create(target: Typed<seq<T>>, dispatch: Dispatcher) returns (r: Result<ObservableList<T>, PyError>)
      ensures target.NotOfKind? ==> r == Failure(ValueError)
      ensures target.OfKind? ==> r.Success? && fresh(r.value) && r.value.list == target.contents
      ensures target.OfKind? ==> r.value.dispatch == dispatch && r.value.dispatched == []
    {
      if target.NotOfKind? {
        return Failure(ValueError);
      }
      var wrapper := new ObservableList(target.contents, dispatch);
      r := Success(wrapper);
    }

    method GetItem(index: int) returns (r: Result<T, PyError>)
      ensures ResolveIndex(index, |list|).None? ==> r == Failure(IndexError)
      ensures ResolveIndex(index, |list|).Some? ==> r == Success(list[ResolveIndex(index, |list|).value])
    {
      var k := ResolveIndex(index, |list|);
      if k.None? {
        return Failure(IndexError);
      }
      r := Success(list[k.value]);
    }

    method Len() returns (n: nat)
      ensures n == |list|
    {
      n := |list|;
    }

    method Copy() returns (s: seq<T>)
      ensures s == list
    {
      s := list;
    }

    /**
     * `l[index] = value`: an index outside the list raises; a value that
     * compares unequal (or cannot be compared) is written and dispatched once;
     * an equal value changes nothing.
     */
    method SetItem(index: int, value: T, cmp: (T, T) -> Cmp) returns (r: Outcome<PyError>)
      modifies this
      ensures ResolveIndex(index, |old(list)|).None? ==>
        r == Fail(IndexError) && list == old(list) && dispatched == old(dispatched)
      ensures ResolveIndex(index, |old(list)|).Some? ==>
        var k := ResolveIndex(index, |old(list)|).value;
        && r == Pass
        && (Changed(cmp(old(list)[k], value)) ==> list == old(list)[k := value] && dispatched == old(dispatched) + [list])
        && (!Changed(cmp(old(list)[k], value)) ==> list == old(list) && dispatched == old(dispatched))
    {
      var k := ResolveIndex(index, |list|);
      if k.None? {
        return Fail(IndexError);
      }
      r := Pass;
      if Changed(cmp(list[k.value], value)) {
        list := list[k.value := value];
        dispatched := dispatched + [list];
      }
    }

    /** `del l[index]`: removes exactly that element and dispatches once; an index outside the list raises first. */
    method DelItem(index: int) returns (r: Outcome<PyError>)
      modifies this
      ensures ResolveIndex(index, |old(list)|).None? ==>
        r == Fail(IndexError) && list == old(list) && dispatched == old(dispatched)
      ensures ResolveIndex(index, |old(list)|).Some? ==>
        var k := ResolveIndex(index, |old(list)|).value;
        r == Pass && list == old(list)[..k] + old(list)[k + 1..] && dispatched == old(dispatched) + [list]
    {
      var k := ResolveIndex(index, |list|);
      if k.None? {
        return Fail(IndexError);
      }
      list := list[..k.value] + list[k.value + 1..];
      dispatched := dispatched + [list];
      r := Pass;
    }

    /** `insert(index, value)`: inserts at the clamped position and always dispatches once. */
    method Insert(index: int, value: T)
      modifies this
      ensures var p := InsertPosition(index, |old(list)|);
        list == old(list)[..p] + [value] + old(list)[p..]
      ensures dispatched == old(dispatched) + [list]
    {
      var p := InsertPosition(index, |list|);
      list := list[..p] + [value] + list[p..];
      dispatched := dispatched + [list];
    }

    /** `append(value)`: always dispatches once. */
    method Append(value: T)
      modifies this
      ensures list == old(list) + [value]
      ensures dispatched == old(dispatched) + [list]
    {
      list := list + [value];
      dispatched := dispatched + [list];
    }

    /** `extend(values)`: always dispatches once, even when `values` is empty. */
    method Extend(values: seq<T>)
      modifies this
      ensures list == old(list) + values
      ensures dispatched == old(dispatched) + [list]
    {
      list := list + values;
      dispatched := dispatched + [list];
    }

    /**
     * `pop(index)` (`pop()` is `pop(-1)`): removes and returns exactly that
     * element and dispatches once; an empty list or an index outside it raises first.
     */
    method Pop(index: int) returns (r: Result<T, PyError>)
      modifies this
      ensures ResolveIndex(index, |old(list)|).None? ==>
        r == Failure(IndexError) && list == old(list) && dispatched == old(dispatched)
      ensures ResolveIndex(index, |old(list)|).Some? ==>
        var k := ResolveIndex(index, |old(list)|).value;
        && r == Success(old(list)[k])
        && list == old(list)[..k] + old(list)[k + 1..] && |list| == |old(list)| - 1
        && dispatched == old(dispatched) + [list]
    {
      var k := ResolveIndex(index, |list|);
      if k.None? {
        return Failure(IndexError);
      }
      r := Success(list[k.value]);
      list := list[..k.value] + list[k.value + 1..];
      dispatched := dispatched + [list];
    }
  }

  /** A property whose value is an observable list. */
  class ListProperty<T, X> {
    const defaultValue: Typed<seq<T>>
    const additionals: X
    var instances: map<Host, Record<ObservableList<T>, X>>
    /** The descriptor's own `value` attribute: the wrapper built by the latest registration. */
    var value: ObservableList?<T>

    /**
     * Declaring a list property is the base declaration: the default is kept
     * as given, without a type check, so it may not be a sequence at all.
     */
    constructor (defaultValue: Typed<seq<T>>, additionals: X)
      ensures this.defaultValue == defaultValue && this.additionals == additionals
      ensures instances == map[] && value == null
    {
      this.defaultValue := defaultValue;
      this.additionals := additionals;
      this.instances := map[];
      this.value := null;
    }

    /** The wrapper of `host`, as a frame. */
    function WrapperOf(host: Host): set<ObservableList<T>>
      reads this, instances.Values
    {
      if host in instances then {instances[host].value} else {}
    }

    /**
     * Wraps `initial` with a dispatch function bound to the property name and
     * `host` and registers a fresh record holding the wrapper; an initial value
     * that is not a sequence raises `ValueError` before anything is registered.
     */
    method Register(host: Host, propertyName: string, initial: Typed<seq<T>>) returns (r: Outcome<PyError>)
      modifies this, host
      ensures initial.NotOfKind? ==> r == Fail(ValueError)
      ensures initial.NotOfKind? ==> instances == old(instances) && value == old(value) && host.properties == old(host.properties)
      ensures initial.OfKind? ==> r == Pass && host in instances && fresh(instances[host]) && fresh(instances[host].value)
      ensures initial.OfKind? ==> instances == old(instances)[host := instances[host]]
      ensures initial.OfKind? ==> host.properties == old(host.properties)[propertyName := instances[host]]
      ensures initial.OfKind? ==> value == instances[host].value
      ensures initial.OfKind? ==>
        instances[host].name == propertyName && instances[host].callbacks == [] && instances[host].extras == additionals
      ensures initial.OfKind? ==> instances[host].value.list == initial.contents && instances[host].value.dispatched == []
      ensures initial.OfKind? ==> instances[host].value.dispatch == BoundDispatch(propertyName, host)
    {
      var created := ObservableList.Create(initial, BoundDispatch(propertyName, host));
      if created.Failure? {
        return Fail(created.error);
      }
      var wrapper := created.value;
      value := wrapper;
      var rec := new Record(wrapper, propertyName, additionals);
      instances := instances[host := rec];
      host.properties := host.properties[propertyName := rec];
      r := Pass;
    }

    /**
     * Whole-value assignment: the same wrapper's contents always become
     * `newValue` (without a dispatch from the wrapper); the callbacks run with
     * the wrapper's new list when the lengths differ or the common prefix does
     * not compare equal.
     */
    method Set(host: Host, newValue: seq<T>, cmp: (T, T) -> Cmp, handles: (Callback, seq<T>) -> bool)
      returns (r: Result<seq<Call<Host, seq<T>>>, PyError>)
      modifies WrapperOf(host)
      ensures host !in instances ==> r == Failure(KeyError)
      ensures host in instances ==>
        var w := instances[host].value;
        && w.list == newValue && w.dispatched == old(w.dispatched)
        && (ListChanged(cmp, old(w.list), newValue) ==> r == Success(Fired(instances[host].callbacks, host, w.list, handles)))
        && (!ListChanged(cmp, old(w.list), newValue) ==> r == Success([]))
    {
      if host !in instances {
        return Failure(KeyError);
      }
      var rec := instances[host];
      var doDispatch := |rec.value.list| != |newValue| || !CompareSequences(cmp, rec.value.list, newValue);
      rec.value.list := newValue;
      r := Success([]);
      if doDispatch {
        var calls := RunChain(rec.callbacks, host, rec.value.list, handles);
        r := Success(calls);
      }
    }
  }
}
