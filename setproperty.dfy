/**
 * The observable set and the set-valued property. Unlike the dict and list
 * wrappers, `add` and `discard` never dispatch, `remove`, `pop` and `update`
 * always do, and `difference` and `copy` only read.
 */
module SetProperties {
  import opened Wrappers
  import opened Dispatch
  import opened Properties

  /** The union of every set in `items`. */
  function UnionAll<T(==)>(items: seq<set<T>>): (u: set<T>)
    ensures forall i :: 0 <= i < |items| ==> items[i] <= u
    ensures forall x :: x in u ==> exists i :: 0 <= i < |items| && x in items[i]
  {
    if items == [] then {}
    else
      var rest := UnionAll(items[1..]);
      assert forall i :: 1 <= i < |items| ==> items[i] == items[1..][i - 1];
      items[0] + rest
  }

  /**
   * A set wrapper. `dispatched` records, in order, the argument of every call
   * this wrapper has made to its dispatch function.
   */
  class ObservableSet<T(==)> {
    var elements: set<T>
    const dispatch: Dispatcher
    ghost var dispatched: seq<set<T>>

    /** The wrapper keeps its own copy of the initial set. */
    constructor (initial: set<T>, dispatch: Dispatcher)
      ensures elements == initial && this.dispatch == dispatch && dispatched == []
    {
      elements := initial;
      this.dispatch := dispatch;
      dispatched := [];
    }

    method Contains(x: T) returns (b: bool)
      ensures b <==> x in elements
    {
      b := x in elements;
    }

    method Len() returns (n: nat)
      ensures n == |elements|
    {
      n := |elements|;
    }

    /** `add(x)`: changes the set but never dispatches. */
    method Add(x: T)
      modifies this
      ensures elements == old(elements) + {x}
      ensures dispatched == old(dispatched)
    {
      elements := elements + {x};
    }

    /** `discard(x)`: changes the set but never dispatches, and a missing `x` is no error. */
    method Discard(x: T)
      modifies this
      ensures elements == old(elements) - {x}
      ensures dispatched == old(dispatched)
    {
      elements := elements - {x};
    }

    /** `copy()`: a new wrapper with equal but independent contents and the same dispatch function. */
    method Copy() returns (c: ObservableSet<T>)
      ensures fresh(c) && c.elements == elements && c.dispatch == dispatch && c.dispatched == []
    {
      c := new ObservableSet(elements, dispatch);
    }

    /** `remove(x)`: removes `x` and dispatches once; a missing `x` raises `KeyError` first. */
    method Remove(x: T) returns (r: Outcome<PyError>)
      modifies this
      ensures x !in old(elements) ==> r == Fail(KeyError) && elements == old(elements) && dispatched == old(dispatched)
      ensures x in old(elements) ==> r == Pass && elements == old(elements) - {x} && dispatched == old(dispatched) + [elements]
    {
      if x !in elements {
        return Fail(KeyError);
      }
      elements := elements - {x};
      dispatched := dispatched + [elements];
      r := Pass;
    }

    /**
     * `update(*items)`: the set becomes its union with every argument, and the
     * wrapper always dispatches once, since its guard compares the set with the
     * tuple of arguments, which is never equal to a set.
     */
    method Update(items: seq<set<T>>)
      modifies this
      ensures elements == old(elements) + UnionAll(items)
      ensures dispatched == old(dispatched) + [elements]
    {
      elements := elements + UnionAll(items);
      dispatched := dispatched + [elements];
    }

    /** `pop()`: removes and returns some element and dispatches once; an empty set raises `KeyError` first. */
    method Pop() returns (r: Result<T, PyError>)
      modifies this
      ensures old(elements) == {} ==> r == Failure(KeyError) && elements == old(elements) && dispatched == old(dispatched)
      ensures old(elements) != {} ==> r.Success? && r.value in old(elements) && elements == old(elements) - {r.value}
      ensures old(elements) != {} ==> dispatched == old(dispatched) + [elements]
    {
      if elements == {} {
        return Failure(KeyError);
      }
      var x :| x in elements;
      elements := elements - {x};
      dispatched := dispatched + [elements];
      r := Success(x);
    }

    /** `difference(other)`: the elements not in `other`, leaving the wrapper as it was. */
    method Difference(other: set<T>) returns (d: set<T>)
      ensures forall x :: x in d <==> x in elements && x !in other
    {
      d := elements - other;
    }
  }

  /** A property whose value is an observable set. */
  class SetProperty<T(==), X> {
    const defaultValue: set<T>
    const additionals: X
    var instances: map<Host, Record<ObservableSet<T>, X>>
    /** The descriptor's own `value` attribute: the wrapper built by the latest registration. */
    var value: ObservableSet?<T>

    constructor (defaultValue: set<T>, additionals: X)
      ensures this.defaultValue == defaultValue && this.additionals == additionals
      ensures instances == map[] && value == null
    {
      this.defaultValue := defaultValue;
      this.additionals := additionals;
      this.instances := map[];
      this.value := null;
    }

    /** Declaring the property: a default that is not a set raises `ValueError`. */
    static method Declare(defaultValue: Typed<set<T>>, additionals: X) returns (r: Result<SetProperty<T, X>, PyError>)
      ensures defaultValue.NotOfKind? ==> r == Failure(ValueError)
      ensures defaultValue.OfKind? ==> r.Success? && fresh(r.value)
      ensures defaultValue.OfKind? ==> r.value.defaultValue == defaultValue.contents && r.value.additionals == additionals
      ensures defaultValue.OfKind? ==> r.value.instances == map[]
    {
      if defaultValue.NotOfKind? {
        return Failure(ValueError);
      }
      var p := new SetProperty(defaultValue.contents, additionals);
      r := Success(p);
    }

    /** The wrapper of `host`, as a frame. */
    function WrapperOf(host: Host): set<ObservableSet<T>>
      reads this, instances.Values
    {
      if host in instances then {instances[host].value} else {}
    }

    /**
     * Wraps a copy of `initial` with a dispatch function bound to the property
     * name and `host`, and registers a fresh record holding that wrapper.
     */
    method Register(host: Host, propertyName: string, initial: set<T>)
      modifies this, host
      ensures host in instances && fresh(instances[host]) && fresh(instances[host].value)
      ensures instances == old(instances)[host := instances[host]]
      ensures host.properties == old(host.properties)[propertyName := instances[host]]
      ensures value == instances[host].value
      ensures instances[host].name == propertyName && instances[host].callbacks == [] && instances[host].extras == additionals
      ensures instances[host].value.elements == initial && instances[host].value.dispatched == []
      ensures instances[host].value.dispatch == BoundDispatch(propertyName, host)
    {
      var wrapper := new ObservableSet(initial, BoundDispatch(propertyName, host));
      value := wrapper;
      var rec := new Record(wrapper, propertyName, additionals);
      instances := instances[host := rec];
      host.properties := host.properties[propertyName := rec];
    }

    /**
     * Whole-value assignment: the same wrapper's contents always become
     * `newValue` (without a dispatch from the wrapper); the callbacks run with
     * `newValue` exactly when the old contents differed from it.
     */
    method Set(host: Host, newValue: set<T>, handles: (Callback, set<T>) -> bool)
      returns (r: Result<seq<Call<Host, set<T>>>, PyError>)
      modifies WrapperOf(host)
      ensures host !in instances ==> r == Failure(KeyError)
      ensures host in instances ==>
        var w := instances[host].value;
        && w.elements == newValue && w.dispatched == old(w.dispatched)
        && (old(w.elements) != newValue ==> r == Success(Fired(instances[host].callbacks, host, newValue, handles)))
        && (old(w.elements) == newValue ==> r == Success([]))
    {
      if host !in instances {
        return Failure(KeyError);
      }
      var rec := instances[host];
      var doDispatch := rec.value.elements != newValue;
      rec.value.elements := {};
      rec.value.elements := rec.value.elements + newValue;
      r := Success([]);
      if doDispatch {
        var calls := RunChain(rec.callbacks, host, newValue, handles);
        r := Success(calls);
      }
    }
  }
}
