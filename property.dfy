/**
 * The base observable property (a Python descriptor). One `Property` object
 * is shared by every instance of the class that declares it; the state of
 * each instance lives in a per-instance record that registration puts both in
 * the property's own table and in the instance's table of properties.
 */
module Properties {
  import opened Wrappers
  import opened Dispatch

  /**
   * An object that hosts properties. Its table, `event_dispatcher_properties`
   * in the source, maps a property name to that property's record for this
   * object; it holds records of every value type, hence `object`.
   */
  class Host {
    var properties: map<string, object>

    constructor ()
      ensures properties == map[]
    {
      properties := map[];
    }
  }

  /**
   * The dispatch function an observable container calls: the host's `dispatch`
   * entry point with a property name and an instance bound to it.
   */
  datatype Dispatcher = BoundDispatch(name: string, instance: Host)

  /**
   * What one assignment does to a slot: nothing, raise before changing
   * anything, or store a value and deliver a value (not always the stored
   * one) to the callback chain.
   */
  datatype Effect<V> = NoChange | Raise(error: PyError) | Store(stored: V, notified: V)

  /** The slot's value after an assignment with effect `e`. */
  function After<V>(e: Effect<V>, current: V): (v: V)
  {
    if e.Store? then e.stored else current
  }

  /** What an assignment with effect `e` returns: the callback calls it made, or the exception it raised. */
  function Delivery<V>(e: Effect<V>, chain: seq<Callback>, obj: Host, handles: (Callback, V) -> bool): (r: Result<seq<Call<Host, V>>, PyError>)
  {
    match e
    case NoChange => Success([])
    case Raise(err) => Failure(err)
    case Store(_, notified) => Success(Fired(chain, obj, notified, handles))
  }

  /**
   * The effect of the base property's assignment of `value` over `current`:
   * the test `value != current` decides, and an exception from that test
   * propagates.
   */
  function PlainEffect<V>(cmp: (V, V) -> Cmp, current: V, value: V): (e: Effect<V>)
    ensures e == NoChange <==> cmp(value, current) == Equal
    ensures e.Raise? <==> cmp(value, current) == Incomparable
    ensures e.Raise? ==> e.error == ComparisonFailed
    ensures e.Store? ==> e.stored == value && e.notified == value
  {
    match cmp(value, current)
    case Equal => NoChange
    case Unequal => Store(value, value)
    case Incomparable => Raise(ComparisonFailed)
  }

  /**
   * Assigning the same value twice: whenever the first assignment succeeds and
   * the value compares equal to itself, the second one changes nothing and
   * calls no callback.
   */
  lemma AssignTwiceIsNoOp<V>(cmp: (V, V) -> Cmp, current: V, value: V)
    requires cmp(value, value) == Equal
    requires !PlainEffect(cmp, current, value).Raise?
    ensures PlainEffect(cmp, After(PlainEffect(cmp, current, value), current), value) == NoChange
  {
  }

  /**
   * The per-instance record (a dict in the source): the current value, the
   * property name, the bound callbacks in binding order, and a copy of the
   * declaration's options (`extras`).
   */
  class Record<V, X> {
    var value: V
    const name: string
    var callbacks: seq<Callback>
    var extras: X

    constructor (value: V, name: string, extras: X)
      ensures this.value == value && this.name == name
      ensures callbacks == [] && this.extras == extras
    {
      this.value := value;
      this.name := name;
      this.callbacks := [];
      this.extras := extras;
    }

    /** Stores what `e` stores, then runs the callback chain with what `e` notifies. */
    method Apply(e: Effect<V>, obj: Host, handles: (Callback, V) -> bool) returns (r: Result<seq<Call<Host, V>>, PyError>)
      modifies this
      ensures value == After(e, old(value))
      ensures callbacks == old(callbacks) && extras == old(extras)
      ensures r == Delivery(e, callbacks, obj, handles)
    {
      match e
      case NoChange =>
        r := Success([]);
      case Raise(err) =>
        r := Failure(err);
      case Store(stored, notified) =>
        value := stored;
        var calls := RunChain(callbacks, obj, notified, handles);
        r := Success(calls);
    }
  }

  /**
   * A declared property: its name (given to the descriptor by its owning
   * class), its default value, its declaration options, and the table from
   * instance to record.
   */
  class Property<V, X> {
    const name: string
    const defaultValue: V
    const additionals: X
    var instances: map<Host, Record<V, X>>

    constructor (name: string, defaultValue: V, additionals: X)
      ensures this.name == name && this.defaultValue == defaultValue
      ensures this.additionals == additionals && instances == map[]
    {
      this.name := name;
      this.defaultValue := defaultValue;
      this.additionals := additionals;
      this.instances := map[];
    }

    /** The record of `host`, as a frame. */
    function RecordOf(host: Host): set<Record<V, X>>
      reads this
    {
      if host in instances then {instances[host]} else {}
    }

    /**
     * Builds a fresh record and stores the same record in both tables. A second
     * registration on the same instance replaces the record, dropping the
     * callbacks bound to the old one.
     */
    method Register(host: Host, propertyName: string, initial: V)
      modifies this, host
      ensures host in instances && fresh(instances[host])
      ensures instances == old(instances)[host := instances[host]]
      ensures host.properties == old(host.properties)[propertyName := instances[host]]
      ensures instances[host].value == initial && instances[host].name == propertyName
      ensures instances[host].callbacks == [] && instances[host].extras == additionals
    {
      var rec := new Record(initial, propertyName, additionals);
      instances := instances[host := rec];
      host.properties := host.properties[propertyName := rec];
    }

    /** Reading the attribute: the record's current value. */
    method Get(host: Host) returns (r: Result<V, PyError>)
      ensures host in instances ==> r == Success(instances[host].value)
      ensures host !in instances ==> r == Failure(KeyError)
    {
      if host !in instances {
        return Failure(KeyError);
      }
      r := Success(instances[host].value);
    }

    /**
     * Assigning the attribute: a value that compares unequal is stored and the
     * callbacks run with it; an equal value changes nothing; a failing
     * comparison raises.
     */
    method Set(host: Host, value: V, cmp: (V, V) -> Cmp, handles: (Callback, V) -> bool) returns (r: Result<seq<Call<Host, V>>, PyError>)
      modifies RecordOf(host)
      ensures host !in instances ==> r == Failure(KeyError)
      ensures host in instances ==>
        var rec := instances[host];
        var e := PlainEffect(cmp, old(rec.value), value);
        && rec.value == After(e, old(rec.value))
        && rec.callbacks == old(rec.callbacks) && rec.extras == old(rec.extras)
        && r == Delivery(e, rec.callbacks, host, handles)
    {
      if host !in instances {
        return Failure(KeyError);
      }
      var rec := instances[host];
      r := rec.Apply(PlainEffect(cmp, rec.value, value), host, handles);
    }

    /** Deleting the attribute always raises, and changes nothing. */
    method Delete(host: Host) returns (r: Outcome<PyError>)
      ensures r == Fail(AttributeError)
    {
      r := Fail(AttributeError);
    }
  }
}
