/**
 * The observable dict and the dict-valued property. The wrapper owns a raw map
 * and a dispatch function; each mutator edits the map and then, by its own
 * rule, passes the whole map to the dispatch function. Whole-value assignment
 * rewrites the contents of the same wrapper.
 */
module DictProperties {
  import opened Wrappers
  import opened Dispatch
  import opened Properties

  /** Python dict equality under `cmp`: the same keys, and every pair of values equal. */
  predicate MapsEqual<K, V>(cmp: (V, V) -> Cmp, a: map<K, V>, b: map<K, V>)
  {
    a.Keys == b.Keys && forall k :: k in a ==> cmp(a[k], b[k]) == Equal
  }

  /**
   * The result of `a == b` on two dicts. When the dicts differ and some shared
   * key holds values whose comparison raises, whether Python raises or answers
   * false depends on iteration order; the model raises.
   */
  function DictEquality<K, V>(cmp: (V, V) -> Cmp, a: map<K, V>, b: map<K, V>): (r: Result<bool, PyError>)
    ensures r == Success(true) <==> MapsEqual(cmp, a, b)
    ensures r.Failure? ==> r.error == ComparisonFailed && |a| == |b|
    ensures r.Failure? ==> exists k :: k in a && k in b && cmp(a[k], b[k]) == Incomparable
    ensures (forall k :: k in a && k in b ==> cmp(a[k], b[k]) != Incomparable) ==> r.Success?
  {
    if MapsEqual(cmp, a, b) then Success(true)
    else if |a| == |b| && exists k :: k in a && k in b && cmp(a[k], b[k]) == Incomparable then Failure(ComparisonFailed)
    else Success(false)
  }

  /**
   * A dict wrapper. `dispatched` records, in order, the argument of every call
   * this wrapper has made to its dispatch function.
   */
  class ObservableDict<K(==), V> {
    var dictionary: map<K, V>
    const dispatch: Dispatcher
    ghost var dispatched: seq<map<K, V>>

    /** The wrapper keeps its own copy of the initial dict. */
    constructor (dictionary: map<K, V>, dispatch: Dispatcher)
      ensures this.dictionary == dictionary && this.dispatch == dispatch
      ensures dispatched == []
    {
      this.dictionary := dictionary;
      this.dispatch := dispatch;
      this.dispatched := [];
    }

    method Contains(key: K) returns (b: bool)
      ensures b <==> key in dictionary
    {
      b := key in dictionary;
    }

    method GetItem(key: K) returns (r: Result<V, PyError>)
      ensures key in dictionary ==> r == Success(dictionary[key])
      ensures key !in dictionary ==> r == Failure(KeyError)
    {
      if key in dictionary {
        r := Success(dictionary[key]);
      } else {
        r := Failure(KeyError);
      }
    }

    method Get(key: K, default: V) returns (v: V)
      ensures key in dictionary ==> v == dictionary[key]
      ensures key !in dictionary ==> v == default
    {
      v := if key in dictionary then dictionary[key] else default;
    }

    method Len() returns (n: nat)
      ensures n == |dictionary|
    {
      n := |dictionary|;
    }

    method Copy() returns (m: map<K, V>)
      ensures m == dictionary
    {
      m := dictionary;
    }

    method Eq(other: map<K, V>, cmp: (V, V) -> Cmp) returns (r: Result<bool, PyError>)
      ensures r == DictEquality(cmp, dictionary, other)
    {
      r := DictEquality(cmp, dictionary, other);
    }

    method Ne(other: map<K, V>, cmp: (V, V) -> Cmp) returns (r: Result<bool, PyError>)
      ensures r.Success? <==> DictEquality(cmp, dictionary, other).Success?
      ensures r.Success? ==> (r.value <==> !MapsEqual(cmp, dictionary, other))
      ensures r.Failure? ==> r.error == ComparisonFailed
    {
      var eq := DictEquality(cmp, dictionary, other);
      r := if eq.Success? then Success(!eq.value) else eq;
    }

    /**
     * `d[key] = value`: always stores; dispatches once when the key was absent
     * or its old value compared unequal or could not be compared.
     */
    method SetItem(key: K, value: V, cmp: (V, V) -> Cmp)
      modifies this
      ensures dictionary == old(dictionary)[key := value]
      ensures key !in old(dictionary) || Changed(cmp(old(dictionary)[key], value)) ==>
        dispatched == old(dispatched) + [dictionary]
      ensures key in old(dictionary) && !Changed(cmp(old(dictionary)[key], value)) ==>
        dispatched == old(dispatched)
    {
      var changed := key !in dictionary || Changed(cmp(dictionary[key], value));
      dictionary := dictionary[key := value];
      if changed {
        dispatched := dispatched + [dictionary];
      }
    }

    /** Empties the dict, dispatching only when it was not empty. */
    method Clear()
      modifies this
      ensures dictionary == map[]
      ensures old(dictionary) != map[] ==> dispatched == old(dispatched) + [map[]]
      ensures old(dictionary) == map[] ==> dispatched == old(dispatched)
    {
      if |dictionary| > 0 {
        dictionary := map[];
        dispatched := dispatched + [dictionary];
      }
    }

    /** `del d[key]`: removes only `key` and dispatches once; a missing key raises first. */
    method DelItem(key: K) returns (r: Outcome<PyError>)
      modifies this
      ensures key !in old(dictionary) ==> r == Fail(KeyError) && dictionary == old(dictionary) && dispatched == old(dispatched)
      ensures key in old(dictionary) ==> r == Pass && dictionary == old(dictionary) - {key}
      ensures key in old(dictionary) ==> dispatched == old(dispatched) + [dictionary]
    {
      if key !in dictionary {
        return Fail(KeyError);
      }
      dictionary := dictionary - {key};
      dispatched := dispatched + [dictionary];
      r := Pass;
    }

    /** `pop(key)`: removes only `key`, dispatches once and returns the removed value; a missing key raises first. */
    method Pop(key: K) returns (r: Result<V, PyError>)
      modifies this
      ensures key !in old(dictionary) ==> r == Failure(KeyError) && dictionary == old(dictionary) && dispatched == old(dispatched)
      ensures key in old(dictionary) ==> r == Success(old(dictionary)[key]) && dictionary == old(dictionary) - {key}
      ensures key in old(dictionary) ==> dispatched == old(dispatched) + [dictionary]
    {
      if key !in dictionary {
        return Failure(KeyError);
      }
      r := Success(dictionary[key]);
      dictionary := dictionary - {key};
      dispatched := dispatched + [dictionary];
    }

    /**
     * `update(other, **kwargs)`: a non-empty positional dict wins and the
     * keyword arguments are then ignored. The chosen argument is merged in
     * (its keys overwrite, other keys stay) and the wrapper dispatches once,
     * unless the current dict already equals it, when nothing happens.
     */
    method Update(other: Option<map<K, V>>, kwargs: map<K, V>, cmp: (V, V) -> Cmp)
      modifies this
      ensures var arg := if other.Some? && other.value != map[] then other.value else kwargs;
        && (arg == map[] || MapsEqual(cmp, old(dictionary), arg) ==>
              dictionary == old(dictionary) && dispatched == old(dispatched))
        && (arg != map[] && !MapsEqual(cmp, old(dictionary), arg) ==>
              dictionary == old(dictionary) + arg && dispatched == old(dispatched) + [dictionary])
    {
      var arg := if other.Some? && other.value != map[] then other.value else kwargs;
      if arg != map[] {
        var notEqual := DictEquality(cmp, dictionary, arg) != Success(true);
        if notEqual {
          dictionary := dictionary + arg;
          dispatched := dispatched + [dictionary];
        }
      }
    }
  }

  /** A property whose value is an observable dict. */
  class DictProperty<K(==), V, X> {
    const defaultValue: map<K, V>
    const additionals: X
    var instances: map<Host, Record<ObservableDict<K, V>, X>>
    /** The descriptor's own `value` attribute: the wrapper built by the latest registration. */
    var value: ObservableDict?<K, V>

    constructor (defaultValue: map<K, V>, additionals: X)
      ensures this.defaultValue == defaultValue && this.additionals == additionals
      ensures instances == map[] && value == null
    {
      this.defaultValue := defaultValue;
      this.additionals := additionals;
      this.instances := map[];
      this.value := null;
    }

    /** Declaring the property: a default that is not a dict raises `ValueError`. */
    static method Declare(defaultValue: Typed<map<K, V>>, additionals: X) returns (r: Result<DictProperty<K, V, X>, PyError>)
      ensures defaultValue.NotOfKind? ==> r == Failure(ValueError)
      ensures defaultValue.OfKind? ==> r.Success? && fresh(r.value)
      ensures defaultValue.OfKind? ==> r.value.defaultValue == defaultValue.contents && r.value.additionals == additionals
      ensures defaultValue.OfKind? ==> r.value.instances == map[]
    {
      if defaultValue.NotOfKind? {
        return Failure(ValueError);
      }
      var p := new DictProperty(defaultValue.contents, additionals);
      r := Success(p);
    }

    /** The wrapper of `host`, as a frame. */
    function WrapperOf(host: Host): set<ObservableDict<K, V>>
      reads this, instances.Values
    {
      if host in instances then {instances[host].value} else {}
    }

    /**
     * Wraps a copy of `initial` with a dispatch function bound to the property
     * name and `host`, and registers a fresh record holding that wrapper.
     */
    method Register(host: Host, propertyName: string, initial: map<K, V>)
      modifies this, host
      ensures host in instances && fresh(instances[host]) && fresh(instances[host].value)
      ensures instances == old(instances)[host := instances[host]]
      ensures host.properties == old(host.properties)[propertyName := instances[host]]
      ensures value == instances[host].value
      ensures instances[host].name == propertyName && instances[host].callbacks == [] && instances[host].extras == additionals
      ensures instances[host].value.dictionary == initial && instances[host].value.dispatched == []
      ensures instances[host].value.dispatch == BoundDispatch(propertyName, host)
    {
      var wrapper := new ObservableDict(initial, BoundDispatch(propertyName, host));
      value := wrapper;
      var rec := new Record(wrapper, propertyName, additionals);
      instances := instances[host := rec];
      host.properties := host.properties[propertyName := rec];
    }

    /**
     * Whole-value assignment: when the new dict differs (or cannot be compared),
     * the same wrapper's contents become exactly `newValue`, without a dispatch
     * from the wrapper, and the callbacks run with `newValue`; otherwise nothing
     * happens.
     */
    method Set(host: Host, newValue: map<K, V>, cmp: (V, V) -> Cmp, handles: (Callback, map<K, V>) -> bool)
      returns (r: Result<seq<Call<Host, map<K, V>>>, PyError>)
      modifies WrapperOf(host)
      ensures host !in instances ==> r == Failure(KeyError)
      ensures host in instances ==>
        var w := instances[host].value;
        && w.dispatched == old(w.dispatched)
        && (MapsEqual(cmp, old(w.dictionary), newValue) ==>
              w.dictionary == old(w.dictionary) && r == Success([]))
        && (!MapsEqual(cmp, old(w.dictionary), newValue) ==>
              w.dictionary == newValue && r == Success(Fired(instances[host].callbacks, host, newValue, handles)))
    {
      if host !in instances {
        return Failure(KeyError);
      }
      var rec := instances[host];
      var doDispatch := DictEquality(cmp, rec.value.dictionary, newValue) != Success(true);
      r := Success([]);
      if doDispatch {
        rec.value.dictionary := map[];
        rec.value.dictionary := rec.value.dictionary + newValue;
        var calls := RunChain(rec.callbacks, host, newValue, handles);
        r := Success(calls);
      }
    }
  }
}
