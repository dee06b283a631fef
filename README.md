# eventdispatcher: observable properties, modelled in Dafny

This project models the core of `eventdispatcher`, a Python library of
observable attributes. A class declares *properties*. Each instance that
registers a property gets its own *record* holding the current value, the
bound callbacks and a copy of the declaration's options. Assigning a value
that differs from the current one stores it and runs the callbacks in binding
order; the first callback that returns a truthy value stops the rest.
Dict-, list- and set-valued properties wrap their value in an *observable
container*. Its mutators edit the raw container in place and then pass the
whole container to a dispatch function bound to the property name and the
instance. Two validating variants clamp a number into `[min, max]` or accept
only declared options.

Modules, one per source file:

- `Wrappers` (`wrappers.dfy`): `Option`, `Result`, `Outcome`, the exceptions (`PyError`), and `Typed<T>` for arguments whose Python type is checked at run time.
- `Dispatch` (`dispatch.dfy`): the three-valued comparison `Cmp` and the callback chain. `Fired` is the specification of the callback loop and `RunChain` is the loop itself.
- `Properties` (`property.dfy`): `Host` (the instance and its table of records), `Record`, `Property`.
- `DictProperties`, `ListProperties`, `SetProperties`: the wrappers `ObservableDict`, `ObservableList`, `ObservableSet` and the properties built on them.
- `LimitProperties`, `OptionProperties`: the two validating variants, each built around a base `Property`.
- `Scenarios` (`scenarios.dfy`): client methods that use only the contracts, for example "set `color` to red, then blue, then blue" and "clamp below `min`".

How Python is represented:

- A Python comparison `a != b` whose truth value is taken is a total function `cmp: (V, V) -> Cmp`. It answers `Equal`, `Unequal` or `Incomparable`; `Incomparable` means the comparison raised, as an elementwise array comparison does.
- A callback is an identifier, `Callback(id)`. Its return value comes from a pure function `handles: (Callback, W) -> bool`. Every assignment returns the calls it made, as a list of `Call(callback, instance, value)`.
- A wrapper's dispatch function is `BoundDispatch(name, instance)`. Calls to it are recorded in the wrapper's ghost field `dispatched`, one entry per call, holding the whole container at that moment.
- Exceptions are values: `Result`/`Outcome` carrying a `PyError`, or `InvalidOptionError`.
- A Python subclass becomes composition, because Dafny classes have no inheritance. `LimitProperty` and `OptionProperty` each hold a `base: Property`. The container properties build their records with the shared `Record` constructor.

Points where the properties behave differently from one another:

- Unlike the dict and list code, the base `Property.__set__` does not catch a failing comparison. The exception propagates and nothing is stored (`PlainEffect` gives `Raise(ComparisonFailed)`). The dict and list wrappers, and the dict and list properties' `__set__`, treat a failing comparison as a change.
- `ObservableSet.add` and `discard` never dispatch; `remove`, `pop` and `update` always do.
- `ObservableDict.clear` dispatches only when the dict was non-empty.
- `DictProperty.__set__` rewrites the wrapper only when the new dict differs. `ListProperty.__set__` and `SetProperty.__set__` always rewrite it.

## Model

| member | source | states |
|---|---|---|
| `Dispatch.Fired` | eventdispatcher/property.py:17-19 | the calls are the chain's callbacks in order, each with `(obj, value)`; every callback before the last one called declined; when the loop stops early, the last callback called returned truthy |
| `Dispatch.FirstHandled` | eventdispatcher/property.py:17-19 | reference definition: the index of the first callback that handles the value, or the chain length when none does |
| `Dispatch.FiredIsPrefixThroughFirstHandled` | eventdispatcher/property.py:17-19 | the callbacks invoked are exactly the chain's prefix up to and including the first one that returns truthy |
| `Dispatch.NoneHandledReachesAll` | eventdispatcher/property.py:17-19 | when no callback returns truthy, each bound callback is invoked exactly once, in binding order |
| `Dispatch.RunChain` | eventdispatcher/property.py:17-19 | the `for … if callback(obj, value): break` loop makes exactly the calls `Fired` specifies |
| `Properties.PlainEffect` | eventdispatcher/property.py:13-16 | an equal value changes nothing; an unequal value is stored and is what the callbacks receive; a failing comparison raises before any change |
| `Properties.AssignTwiceIsNoOp` | eventdispatcher/property.py:13-16 | after a successful assignment of a value that equals itself, assigning it again changes nothing and calls nothing |
| `Properties.Record.constructor` | eventdispatcher/property.py:27-35 | a record holds the given value and name, no callbacks, and the declaration's options |
| `Properties.Record.Apply` | eventdispatcher/property.py:15-19 | stores what the assignment stores, keeps callbacks and options, and makes exactly the calls `Fired` gives for the notified value |
| `Properties.Property.constructor` | eventdispatcher/property.py:5-8 | a declaration keeps its default and options and starts with an empty instance table |
| `Properties.Property.Register` | eventdispatcher/property.py:24-39 | a fresh record (value = given default, name, no callbacks, the declaration's options) is stored under the instance in the property's table and under the name in the instance's table, the same record in both; re-registering replaces it and so drops earlier callbacks |
| `Properties.Property.Get` | eventdispatcher/property.py:10-11 | returns the record's current value; an unregistered instance raises `KeyError` |
| `Properties.Property.Set` | eventdispatcher/property.py:13-19 | equal value: nothing changes and no callback runs; unequal value: stored (a later `Get` returns it), callbacks run as `Fired` says; failing comparison: raises, nothing stored |
| `Properties.Property.Delete` | eventdispatcher/property.py:21-22 | always raises `AttributeError`, changing nothing |
| `DictProperties.DictEquality` | eventdispatcher/dictproperty.py:53-60 | dict `==` is true exactly when both dicts have the same keys and equal values; it raises only when the sizes match and some shared key's values cannot be compared |
| `DictProperties.ObservableDict.constructor` | eventdispatcher/dictproperty.py:17-19 | the wrapper holds its own copy of the dict and the given dispatch function, and has dispatched nothing |
| `DictProperties.ObservableDict.Contains` | eventdispatcher/dictproperty.py:27-28 | membership of the key, with no change or dispatch |
| `DictProperties.ObservableDict.GetItem` | eventdispatcher/dictproperty.py:30-31 | the stored value, or `KeyError` for a missing key, with no change or dispatch |
| `DictProperties.ObservableDict.Get` | eventdispatcher/dictproperty.py:81-82 | the stored value, or the default for a missing key, with no change or dispatch |
| `DictProperties.ObservableDict.Len` | eventdispatcher/dictproperty.py:50-51 | the number of keys, with no change or dispatch |
| `DictProperties.ObservableDict.Copy` | eventdispatcher/dictproperty.py:78-79 | a dict equal to the contents, with no change or dispatch |
| `DictProperties.ObservableDict.Eq` | eventdispatcher/dictproperty.py:53-54 | dict equality of the contents with the argument, with no change or dispatch |
| `DictProperties.ObservableDict.Ne` | eventdispatcher/dictproperty.py:59-60 | the negation of dict equality, raising exactly when equality raises, with no change or dispatch |
| `DictProperties.ObservableDict.SetItem` | eventdispatcher/dictproperty.py:33-43 | afterwards `d[k] == v` and no other key changes; dispatches once, with the whole dict, iff `k` was absent or its old value was unequal or incomparable |
| `DictProperties.ObservableDict.Clear` | eventdispatcher/dictproperty.py:45-48 | leaves the dict empty; dispatches once iff it was non-empty |
| `DictProperties.ObservableDict.DelItem` | eventdispatcher/dictproperty.py:62-64 | removes only the key and dispatches once; a missing key raises `KeyError` before any change or dispatch |
| `DictProperties.ObservableDict.Pop` | eventdispatcher/dictproperty.py:120-123 | returns the removed value, removes only that key, dispatches once; a missing key raises before any change or dispatch |
| `DictProperties.ObservableDict.Update` | eventdispatcher/dictproperty.py:93-109 | a non-empty positional dict wins over the keyword arguments; if the chosen dict equals the contents, or is empty, nothing happens; otherwise its keys overwrite, other keys stay, and it dispatches once |
| `DictProperties.DictProperty.Declare` | eventdispatcher/dictproperty.py:127-130 | a default that is not a dict raises `ValueError`; otherwise a fresh declaration with an empty instance table |
| `DictProperties.DictProperty.Register` | eventdispatcher/dictproperty.py:132-139 | a fresh wrapper around the initial dict, dispatching to `(name, instance)`, is the value of a fresh record stored in both tables |
| `DictProperties.DictProperty.Set` | eventdispatcher/dictproperty.py:141-155 | if the new dict differs or cannot be compared, the same wrapper now holds exactly it and the callbacks run with the new dict; if equal, contents and callbacks are untouched; the wrapper itself never dispatches here |
| `ListProperties.ResolveIndex` | eventdispatcher/listproperty.py:39-56 | an index is valid iff it lies in `[-n, n)` and then denotes position `index mod n` |
| `ListProperties.InsertPosition` | eventdispatcher/listproperty.py:73-75 | `insert` clamps its index into `[0, n]` after counting negative indices from the end |
| `ListProperties.CompareSequences` | eventdispatcher/listproperty.py:130-146 | true iff every pair of the common prefix (what `zip` yields) compares equal; false on the first unequal or failing comparison |
| `ListProperties.ListChangedExactly` | eventdispatcher/listproperty.py:117-122 | the list property treats a new list as unchanged iff it has the same length and compares equal pairwise |
| `ListProperties.ObservableList.Create` | eventdispatcher/listproperty.py:13-31 | a list, tuple or observable list gives a fresh wrapper holding a copy of its items; anything else raises `ValueError` |
| `ListProperties.ObservableList.GetItem` | eventdispatcher/listproperty.py:39-40 | the element at the resolved index, or `IndexError`, with no change or dispatch |
| `ListProperties.ObservableList.Len` | eventdispatcher/listproperty.py:58-59 | the length, with no change or dispatch |
| `ListProperties.ObservableList.Copy` | eventdispatcher/listproperty.py:90-91 | a list equal to the contents, with no change or dispatch |
| `ListProperties.ObservableList.SetItem` | eventdispatcher/listproperty.py:42-49 | an invalid index raises with no change; an unequal or incomparable value is written and dispatched once; an equal value leaves everything unchanged with no dispatch |
| `ListProperties.ObservableList.DelItem` | eventdispatcher/listproperty.py:54-56 | removes exactly the indexed element and dispatches once; an invalid index raises first |
| `ListProperties.ObservableList.Insert` | eventdispatcher/listproperty.py:73-75 | the standard `list.insert` result, always one dispatch |
| `ListProperties.ObservableList.Append` | eventdispatcher/listproperty.py:77-79 | the list gains the value at the end, always one dispatch |
| `ListProperties.ObservableList.Extend` | eventdispatcher/listproperty.py:81-83 | the list gains the values at the end, always one dispatch, even for no values |
| `ListProperties.ObservableList.Pop` | eventdispatcher/listproperty.py:85-88 | returns the indexed element, removes exactly it (length shrinks by one) and dispatches once; an empty list or invalid index raises first |
| `ListProperties.ListProperty.constructor` | eventdispatcher/property.py:5-8 | declaring a list property is the base declaration: the default is kept as given without any type check (unlike the dict and set properties), the options are kept, and the instance table starts empty |
| `ListProperties.ListProperty.Register` | eventdispatcher/listproperty.py:101-115 | a non-sequence raises `ValueError` and registers nothing; otherwise a fresh wrapper in a fresh record in both tables |
| `ListProperties.ListProperty.Set` | eventdispatcher/listproperty.py:117-128 | the same wrapper always ends up holding the new list; callbacks run with that list iff the lengths differ or the common prefix is not equal |
| `SetProperties.UnionAll` | eventdispatcher/setproperty.py:82-85 | every argument set is included, and nothing else |
| `SetProperties.ObservableSet.constructor` | eventdispatcher/setproperty.py:10-12 | the wrapper holds its own copy of the set and the given dispatch function |
| `SetProperties.ObservableSet.Contains` | eventdispatcher/setproperty.py:20-21 | membership, with no change or dispatch |
| `SetProperties.ObservableSet.Len` | eventdispatcher/setproperty.py:23-24 | the size, with no change or dispatch |
| `SetProperties.ObservableSet.Add` | eventdispatcher/setproperty.py:66-67 | the element is added and nothing is dispatched |
| `SetProperties.ObservableSet.Discard` | eventdispatcher/setproperty.py:69-70 | the element is removed if present and nothing is dispatched |
| `SetProperties.ObservableSet.Copy` | eventdispatcher/setproperty.py:72-73 | a new, independent wrapper with equal contents and the same dispatch function |
| `SetProperties.ObservableSet.Remove` | eventdispatcher/setproperty.py:78-80 | removes the element and dispatches once; a missing element raises `KeyError` first |
| `SetProperties.ObservableSet.Update` | eventdispatcher/setproperty.py:82-85 | the set becomes its union with all arguments, and one dispatch always follows |
| `SetProperties.ObservableSet.Pop` | eventdispatcher/setproperty.py:87-90 | returns an element that was in the set, removes it and dispatches once; an empty set raises first |
| `SetProperties.ObservableSet.Difference` | eventdispatcher/setproperty.py:92-93 | the set difference, with no change or dispatch |
| `SetProperties.SetProperty.Declare` | eventdispatcher/setproperty.py:97-100 | a default that is not a set raises `ValueError`; otherwise a fresh declaration |
| `SetProperties.SetProperty.Register` | eventdispatcher/setproperty.py:102-109 | a fresh wrapper around the initial set, dispatching to `(name, instance)`, in a fresh record in both tables |
| `SetProperties.SetProperty.Set` | eventdispatcher/setproperty.py:111-119 | the same wrapper always ends up holding the new set; callbacks run with the new set iff the old contents differed |
| `LimitProperties.LimitEffect` | eventdispatcher/limitproperty.py:15-34 | an equal value does nothing; a different in-range value is stored and notified; below `min`, `min` is stored but the original value is notified, unless the slot already holds `min`; above `max`, `max` is stored and notified, unless already there; every stored value differs from the old one and, when `min <= max`, lies in `[min, max]` |
| `LimitProperties.StaysWithinBounds` | eventdispatcher/limitproperty.py:17-34 | with `min <= max`, a value within the bounds before an assignment is within them after |
| `LimitProperties.ClampedNotification` | eventdispatcher/limitproperty.py:19-32 | the asymmetry: clamping below notifies the rejected value, clamping above notifies `max` |
| `LimitProperties.LimitProperty.constructor` | eventdispatcher/limitproperty.py:9-10 | the bounds become the declaration's options |
| `LimitProperties.LimitProperty.Register` | eventdispatcher/property.py:24-39 | the base registration, so each record has its own copy of the bounds |
| `LimitProperties.LimitProperty.Set` | eventdispatcher/limitproperty.py:15-38 | the record changes as `LimitEffect` says, using this record's bounds, and the callbacks get the notified value |
| `LimitProperties.LimitProperty.GetMin` | eventdispatcher/limitproperty.py:43-45 | the record's own minimum |
| `LimitProperties.LimitProperty.GetMax` | eventdispatcher/limitproperty.py:53-55 | the record's own maximum |
| `LimitProperties.LimitProperty.SetMin` | eventdispatcher/limitproperty.py:47-51 | only this record's minimum changes; a value below it is re-assigned the new minimum through the clamping assignment |
| `LimitProperties.LimitProperty.SetMax` | eventdispatcher/limitproperty.py:57-61 | only this record's maximum changes; a value above it is re-assigned the new maximum through the clamping assignment |
| `LimitProperties.RaisedMinimumLiftsValue` | eventdispatcher/limitproperty.py:47-51 | a new minimum not above `max` lifts a lower value to exactly that minimum and notifies it |
| `LimitProperties.LoweredMaximumBelowMinimum` | eventdispatcher/limitproperty.py:57-61 | a new maximum below `min` makes the value `min` while callbacks receive the new maximum |
| `OptionProperties.OptionSet` | eventdispatcher/optionproperty.py:11 | the allowed set holds exactly the listed options; no options or `None` gives the empty set |
| `OptionProperties.NoOptionsAdmitNothing` | eventdispatcher/optionproperty.py:11-15 | with empty or missing options no default is allowed |
| `OptionProperties.OptionProperty.constructor` | eventdispatcher/optionproperty.py:6-11 | records get the raw options and a `None` handler whatever handler was given; the declaration keeps the option set and the handler |
| `OptionProperties.OptionProperty.Declare` | eventdispatcher/optionproperty.py:6-15 | construction fails with `ValueError` iff the default is not among the options |
| `OptionProperties.OptionProperty.Set` | eventdispatcher/optionproperty.py:17-23 | an allowed value behaves exactly as the base assignment; any other value calls the handler with `(obj, value)` or yields `InvalidOptionError(value, options)`, leaving the record untouched; membership uses the declaration's option set |

## Left out

- The host class `EventDispatcher` is not part of this model: its `dispatch`, `bind`, `setter` and scoped unbinding. The wrappers' calls to `dispatch` are recorded in `dispatched`, and binding is an append to a record's `callbacks`.
- `eventdispatcher/json_map.py`, `unitproperty.py`, `weakrefproperty.py`, `clock.py` and `example.py` are not part of this model. They hold reflection over classes, floating-point unit conversion, weak references, a run loop and file I/O.
- What callbacks do besides returning a value is not modelled. A callback that re-enters the property it was triggered by is outside the model.
- The numpy path of `ObservableList` (`dtype`) is not modelled. Numpy's elementwise comparison is represented only through `Incomparable`.
- Python's identity shortcut inside container comparisons (an object always equals itself there) is not modelled.
- `ObservableSet.__getitem__`, `__setitem__`, `__delitem__` and `get` are not modelled: they index a Python set, which always raises.
- `OptionProperty.set_options` and `set_handler` are not modelled: they set an attribute on a list or on `None` in the record, which always raises.
- `Property.get_dispatcher_property` is not modelled: it looks the property up in its own instance table, which only ever holds host instances.
- `__repr__`, `__reduce__`, `__getstate__`, the wrappers' `__get__`, `__iter__`, `__nonzero__`, `__reversed__`, `__cmp__`, `keys`/`values`/`items` and the `iter*` views are not modelled: they format, pickle or iterate.
- The list and set wrappers' `__eq__`/`__ne__` are not modelled: they compare the raw contents directly and change nothing.
- The record's `property` entry, a reference back to the declaration, is not modelled. Declaration options are kept in a separate `extras` field, so an option named `value`, `name`, `callbacks` or `property` cannot overwrite those entries.
- The base and limit properties find an instance's record by name in the instance's table. The model reads the same record through the property's own table, which registration fills with that record.
- `LimitProperty.__delete__` repeats the base class's `__delete__` word for word, so it is covered by `Properties.Property.Delete` and has no member of its own.
- The attribute name, which the owning class assigns to the descriptor, is a constructor argument here.
- `LimitProperty` works on integers. Floating-point bounds and values are not modelled.
- `ListProperty.__set__` also accepts any iterable with a length. An iterable without a length raises `TypeError` from `len` before any change. The model takes sequences only.
- `ObservableDict.update` also accepts arbitrary iterables of pairs. The model takes maps. Keyword-argument keys share the dict's key type.
- `DictProperties.DictProperty.Set`: only dict contents are modelled. Another instance's `ObservableDict` and a mapping proxy compare by contents, so the model covers them by taking their contents. A value that is not a mapping, such as a list, never compares equal to the wrapper, so the callbacks always run with the raw value. If that value is iterable, its pairs are first copied into the emptied wrapper. If it is not iterable, `clear` empties the wrapper and `update` then raises `TypeError`; the wrapper stays empty and no callback runs.
- `SetProperties.SetProperty.Set`: only set contents are modelled. Another instance's `ObservableSet` and a `frozenset` compare by contents, so the model covers them by taking their contents. A value that is not a set, such as a list, never compares equal to the wrapper's set, so the callbacks always run with the raw value. If that value is iterable, its elements are first copied into the emptied wrapper. If it is not iterable, `clear` empties the wrapper and `update` then raises `TypeError`; the wrapper stays empty and no callback runs. Assigning a set property its own wrapper (`x.s = x.s`) compares equal. `clear` then empties the very set that `update` reads, so the property silently ends up empty and no callback runs.
- Container arguments are values in the model. Passing a wrapper to its own mutator or property is not modelled. `ListProperties.ObservableList.Extend` with the wrapper itself (`l.extend(l)`) never returns in Python, because `list.extend` iterates the wrapper while appending to the same list. The model appends a copy and dispatches once. Assigning a set property its own wrapper empties it, as described above.
- `ListProperties.ObservableList.GetItem`, `ListProperties.ObservableList.SetItem` and `ListProperties.ObservableList.DelItem` take an integer index only. The slice keys that `__getitem__`, `__setitem__` and `__delitem__` also accept are not modelled.
- `ListProperty` callbacks receive the wrapper's live list, so later mutations are visible to a callback that keeps it. The model passes its contents at the time of the call.
- `DictProperties.DictEquality`: when two dicts of the same size differ and some shared key's values cannot be compared, Python may answer false or raise, depending on iteration order; the model raises. `ObservableDict.update` and `DictProperty.__set__` catch the exception and treat both answers as a change, so for them nothing is lost.
- `DictProperties.ObservableDict.Eq`: for dicts of the same size where some key's values differ and another shared key's values cannot be compared, `__eq__` may return false when Python reaches the differing key first. The model always returns `Failure(ComparisonFailed)` here, so it raises in cases where Python may not.
- `DictProperties.ObservableDict.Ne`: in the same case `__ne__` may return true. The model always returns `Failure(ComparisonFailed)`, so it raises in cases where Python may not.
