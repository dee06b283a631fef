/**
 * A property restricted to a declared set of options. A value outside the
 * options is passed to a handler when one was given, and raises
 * `InvalidOptionError` otherwise.
 */
module OptionProperties {
  import opened Wrappers
  import opened Dispatch
  import opened Properties

  /**
   * The options copied into every record: the `options` argument as given
   * (`None` or a list), and a handler entry that is always `None`.
   */
  datatype OptionFields<V> = OptionFields(options: Option<seq<V>>, handler: Option<Callback>)

  /** The exception raised for a value outside the options: the value and the allowed set. */
  datatype InvalidOptionError<V> = InvalidOptionError(value: V, options: set<V>)

  /** What an assignment did: ran the base assignment, handed the value to the handler, or raised. */
  datatype OptionAssignment<V> =
    | Delegated(result: Result<seq<Call<Host, V>>, PyError>)
    | Handled(call: Call<Host, V>)
    | Rejected(error: InvalidOptionError<V>)

  /** `set(options) if options else set()`: the declared options as a set; `None` and `[]` both give the empty set. */
  function OptionSet<V(==)>(options: Option<seq<V>>): (s: set<V>)
    ensures forall i :: options.Some? && 0 <= i < |options.value| ==> options.value[i] in s
    ensures forall x :: x in s ==> options.Some? && x in options.value
  {
    if options.Some? && |options.value| > 0 then set x | x in options.value else {}
  }

  /** With no options declared, no default is accepted, so declaring the property always fails. */
  lemma NoOptionsAdmitNothing<V>(options: Option<seq<V>>, defaultValue: V)
    requires options.None? || options.value == []
    ensures defaultValue !in OptionSet(options)
  {
  }

  class OptionProperty<V(==)> {
    const base: Property<V, OptionFields<V>>
    /** The declaration-level option set, which every membership test uses. */
    const options: set<V>
    const handler: Option<Callback>

    constructor (name: string, defaultValue: V, options: Option<seq<V>>, handler: Option<Callback>)
      ensures fresh(base) && base.name == name && base.defaultValue == defaultValue
      ensures base.additionals == OptionFields(options, None) && base.instances == map[]
      ensures this.options == OptionSet(options) && this.handler == handler
    {
      base := new Property(name, defaultValue, OptionFields(options, None));
      this.options := OptionSet(options);
      this.handler := handler;
    }

    /** Declaring the property: a default outside the options raises `ValueError`. */
    static method Declare(name: string, defaultValue: V, options: Option<seq<V>>, handler: Option<Callback>)
      returns (r: Result<OptionProperty<V>, PyError>)
      ensures r.Failure? <==> defaultValue !in OptionSet(options)
      ensures r.Failure? ==> r.error == ValueError
      ensures r.Success? ==> fresh(r.value) && fresh(r.value.base)
      ensures r.Success? ==> r.value.options == OptionSet(options) && r.value.handler == handler
      ensures r.Success? ==> r.value.base.additionals == OptionFields(options, None) && r.value.base.instances == map[]
      ensures r.Success? ==> r.value.base.name == name && r.value.base.defaultValue == defaultValue
    {
      if defaultValue !in OptionSet(options) {
        return Failure(ValueError);
      }
      var p := new OptionProperty(name, defaultValue, options, handler);
      r := Success(p);
    }

    /**
     * Assigning the attribute: an allowed value goes through the base
     * assignment; any other value is handed to the handler, or raises
     * `InvalidOptionError`, and leaves the record as it was. Membership is
     * tested against the declaration's options, never the record's copy.
     */
    method Set(host: Host, value: V, cmp: (V, V) -> Cmp, handles: (Callback, V) -> bool) returns (r: OptionAssignment<V>)
      modifies base.RecordOf(host)
      ensures value !in options && handler.Some? ==> r == Handled(Call(handler.value, host, value))
      ensures value !in options && handler.None? ==> r == Rejected(InvalidOptionError(value, options))
      ensures value !in options ==> unchanged(base.RecordOf(host))
      ensures value in options ==> r.Delegated?
      ensures value in options && host !in base.instances ==> r.result == Failure(KeyError)
      ensures value in options && host in base.instances ==>
        var rec := base.instances[host];
        var e := PlainEffect(cmp, old(rec.value), value);
        && rec.value == After(e, old(rec.value))
        && rec.callbacks == old(rec.callbacks) && rec.extras == old(rec.extras)
        && r.result == Delivery(e, rec.callbacks, host, handles)
    {
      if value in options {
        var result := base.Set(host, value, cmp, handles);
        r := Delegated(result);
      } else if handler.Some? {
        r := Handled(Call(handler.value, host, value));
      } else {
        r := Rejected(InvalidOptionError(value, options));
      }
    }
  }
}
