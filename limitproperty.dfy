/**
 * A numeric property clamped into `[min, max]`. The bounds are copied into
 * every instance's record and can be changed per instance; changing a bound
 * re-assigns the value when it falls outside the new bound.
 */
module LimitProperties {
  import opened Wrappers
  import opened Dispatch
  import opened Properties

  /** The record's `min` and `max` entries. */
  datatype Bounds = Bounds(min: int, max: int)

  /**
   * The effect of assigning `value` over `current`. Below `min` the slot is
   * clamped to `min`, but the callbacks are given the original, out-of-range
   * value; above `max` both the slot and the callbacks get `max`. A value that
   * would clamp to the bound the slot already holds changes nothing.
   */
  function LimitEffect(current: int, value: int, bounds: Bounds): (e: Effect<int>)
    ensures !e.Raise?
    ensures value == current ==> e == NoChange
    ensures e.Store? ==> e.stored != current
    ensures value != current && bounds.min <= value <= bounds.max ==> e == Store(value, value)
    ensures e.Store? && bounds.min <= bounds.max ==> bounds.min <= e.stored <= bounds.max
    ensures e.Store? && e.notified != e.stored ==> value < bounds.min && e.notified == value && e.stored == bounds.min
    ensures e == NoChange && value != current ==>
      (value < bounds.min && current == bounds.min) || (bounds.min <= value && value > bounds.max && current == bounds.max)
  {
    if value == current then NoChange
    else if value < bounds.min then
      (if current != bounds.min then Store(bounds.min, value) else NoChange)
    else if value > bounds.max then
      (if current != bounds.max then Store(bounds.max, bounds.max) else NoChange)
    else Store(value, value)
  }

  /** With `min <= max`, a value within the bounds stays within them whatever is assigned. */
  lemma StaysWithinBounds(current: int, value: int, bounds: Bounds)
    requires bounds.min <= bounds.max && bounds.min <= current <= bounds.max
    ensures bounds.min <= After(LimitEffect(current, value, bounds), current) <= bounds.max
  {
  }

  /** The asymmetry between the two bounds: what the callbacks see when clamping happens. */
  lemma ClampedNotification(current: int, value: int, bounds: Bounds)
    requires bounds.min <= bounds.max
    ensures value < bounds.min && value != current && current != bounds.min ==>
      LimitEffect(current, value, bounds) == Store(bounds.min, value)
    ensures value > bounds.max && value != current && current != bounds.max ==>
      LimitEffect(current, value, bounds) == Store(bounds.max, bounds.max)
  {
  }

  /** A limit property: a base property whose declaration options are the bounds. */
  class LimitProperty {
    const base: Property<int, Bounds>

    constructor (name: string, defaultValue: int, min: int, max: int)
      ensures fresh(base) && base.name == name && base.defaultValue == defaultValue
      ensures base.additionals == Bounds(min, max) && base.instances == map[]
    {
      base := new Property(name, defaultValue, Bounds(min, max));
    }

    /** Registration is the base one: each record gets its own copy of the bounds. */
    method Register(host: Host, propertyName: string, initial: int)
      modifies base, host
      ensures host in base.instances && fresh(base.instances[host])
      ensures base.instances == old(base.instances)[host := base.instances[host]]
      ensures host.properties == old(host.properties)[propertyName := base.instances[host]]
      ensures base.instances[host].value == initial && base.instances[host].name == propertyName
      ensures base.instances[host].callbacks == [] && base.instances[host].extras == base.additionals
    {
      base.Register(host, propertyName, initial);
    }

    /** Assigning the attribute: clamps with the record's own bounds, stores, and runs the callbacks. */
    method Set(host: Host, value: int, handles: (Callback, int) -> bool) returns (r: Result<seq<Call<Host, int>>, PyError>)
      modifies base.RecordOf(host)
      ensures host !in base.instances ==> r == Failure(KeyError)
      ensures host in base.instances ==>
        var rec := base.instances[host];
        var e := LimitEffect(old(rec.value), value, old(rec.extras));
        && rec.value == After(e, old(rec.value))
        && rec.callbacks == old(rec.callbacks) && rec.extras == old(rec.extras)
        && r == Delivery(e, rec.callbacks, host, handles)
    {
      if host !in base.instances {
        return Failure(KeyError);
      }
      var rec := base.instances[host];
      r := rec.Apply(LimitEffect(rec.value, value, rec.extras), host, handles);
    }

    method GetMin(host: Host) returns (r: Result<int, PyError>)
      ensures host in base.instances ==> r == Success(base.instances[host].extras.min)
      ensures host !in base.instances ==> r == Failure(KeyError)
    {
      if host !in base.instances {
        return Failure(KeyError);
      }
      r := Success(base.instances[host].extras.min);
    }

    method GetMax(host: Host) returns (r: Result<int, PyError>)
      ensures host in base.instances ==> r == Success(base.instances[host].extras.max)
      ensures host !in base.instances ==> r == Failure(KeyError)
    {
      if host !in base.instances {
        return Failure(KeyError);
      }
      r := Success(base.instances[host].extras.max);
    }

    /**
     * `set_min`: writes the new minimum into this instance's record only; a
     * current value below it is then re-assigned `newMin`, which stores
     * `newMin`, or `max` when `newMin` exceeds `max`.
     */
    method SetMin(host: Host, newMin: int, handles: (Callback, int) -> bool) returns (r: Result<seq<Call<Host, int>>, PyError>)
      modifies base.RecordOf(host)
      ensures host !in base.instances ==> r == Failure(KeyError)
      ensures host in base.instances ==>
        var rec := base.instances[host];
        && rec.extras == old(rec.extras).(min := newMin) && rec.callbacks == old(rec.callbacks)
        && (old(rec.value) < newMin ==>
              var e := LimitEffect(old(rec.value), newMin, rec.extras);
              rec.value == After(e, old(rec.value)) && r == Delivery(e, rec.callbacks, host, handles))
        && (old(rec.value) >= newMin ==> rec.value == old(rec.value) && r == Success([]))
    {
      if host !in base.instances {
        return Failure(KeyError);
      }
      var rec := base.instances[host];
      rec.extras := rec.extras.(min := newMin);
      if rec.value < newMin {
        r := Set(host, newMin, handles);
      } else {
        r := Success([]);
      }
    }

    /**
     * `set_max`: writes the new maximum into this instance's record only; a
     * current value above it is then re-assigned `newMax`, which stores
     * `newMax`, or `min` when `newMax` is below `min`.
     */
    method SetMax(host: Host, newMax: int, handles: (Callback, int) -> bool) returns (r: Result<seq<Call<Host, int>>, PyError>)
      modifies base.RecordOf(host)
      ensures host !in base.instances ==> r == Failure(KeyError)
      ensures host in base.instances ==>
        var rec := base.instances[host];
        && rec.extras == old(rec.extras).(max := newMax) && rec.callbacks == old(rec.callbacks)
        && (old(rec.value) > newMax ==>
              var e := LimitEffect(old(rec.value), newMax, rec.extras);
              rec.value == After(e, old(rec.value)) && r == Delivery(e, rec.callbacks, host, handles))
        && (old(rec.value) <= newMax ==> rec.value == old(rec.value) && r == Success([]))
    {
      if host !in base.instances {
        return Failure(KeyError);
      }
      var rec := base.instances[host];
      rec.extras := rec.extras.(max := newMax);
      if rec.value > newMax {
        r := Set(host, newMax, handles);
      } else {
        r := Success([]);
      }
    }
  }

  /** A new minimum at or below `max` lifts a value under it to exactly the new minimum, and the callbacks see that. */
  lemma RaisedMinimumLiftsValue(current: int, newMin: int, max: int)
    requires current < newMin <= max
    ensures LimitEffect(current, newMin, Bounds(newMin, max)) == Store(newMin, newMin)
  {
  }

  /**
   * A new maximum below `min` makes the re-assignment clamp to `min` while the
   * callbacks see the new maximum.
   */
  lemma LoweredMaximumBelowMinimum(current: int, min: int, newMax: int)
    requires newMax < min && newMax < current && current != min
    ensures LimitEffect(current, newMax, Bounds(min, newMax)) == Store(min, newMax)
  {
  }
}
