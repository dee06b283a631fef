/**
 * Client methods that use only the contracts above, one per end-to-end use of
 * the property core: a plain property, a dict-valued one, a clamped one, and
 * independence of per-instance records.
 */
module Scenarios {
  import opened Wrappers
  import opened Dispatch
  import opened Properties
  import opened DictProperties
  import opened LimitProperties

  /** Values that raise on comparison never occur here: plain equality. */
  function Plain<V(==)>(): (V, V) -> Cmp
  {
    (a: V, b: V) => if a == b then Equal else Unequal
  }

  /** `color = "red"` with listener A: re-assigning "red" is silent, "blue" calls A once, "blue" again is silent. */
  method ColorScenario()
  {
    var host := new Host();
    var color := new Property<string, ()>("color", "red", ());
    color.Register(host, "color", "red");
    var a := Callback(0);
    var rec := color.instances[host];
    rec.callbacks := rec.callbacks + [a];
    var listens := (c: Callback, v: string) => false;

    var r := color.Set(host, "red", Plain(), listens);
    assert r == Success([]);
    r := color.Set(host, "blue", Plain(), listens);
    assert !listens(a, "blue") && [a][1..] == [];
    assert Fired([a], host, "blue", listens) == [Call(a, host, "blue")];
    assert r == Success([Call(a, host, "blue")]);
    var got := color.Get(host);
    assert got == Success("blue");
    r := color.Set(host, "blue", Plain(), listens);
    assert r == Success([]);
  }

  /** A listener that claims the change keeps it from every later listener. */
  method ShortCircuitScenario()
  {
    var host := new Host();
    var p := new Property<int, ()>("size", 0, ());
    p.Register(host, "size", 0);
    var first, second := Callback(1), Callback(2);
    var rec := p.instances[host];
    rec.callbacks := [first, second];
    var r := p.Set(host, 5, Plain(), (c: Callback, v: int) => c == first);
    assert r == Success([Call(first, host, 5)]);
  }

  /** `settings = {}`: writing a new key dispatches, writing the same value again does not; clearing an empty dict does not. */
  method SettingsScenario()
  {
    var host := new Host();
    var settings := new DictProperty<string, int, ()>(map[], ());
    settings.Register(host, "settings", map[]);
    var d := settings.instances[host].value;
    d.SetItem("k", 1, Plain());
    assert d.dispatched == [map["k" := 1]];
    d.SetItem("k", 1, Plain());
    assert d.dispatched == [map["k" := 1]];
    var _ := d.Pop("k");
    assert d.dispatched == [map["k" := 1], map[]];
    d.Clear();
    assert d.dispatched == [map["k" := 1], map[]];
  }

  /** A reference to the wrapper taken before a whole-value assignment sees the new contents. */
  method WrapperIdentityScenario()
  {
    var host := new Host();
    var settings := new DictProperty<string, int, ()>(map[], ());
    settings.Register(host, "settings", map["a" := 1]);
    var held := settings.instances[host].value;
    var r := settings.Set(host, map["b" := 2], Plain(), (c: Callback, v: map<string, int>) => false);
    assert settings.instances[host].value == held;
    assert held.dictionary == map["b" := 2];
  }

  /** Clamping below `min` stores `min` but reports the original value; above `max` it stores and reports `max`. */
  method ClampScenario()
  {
    var host := new Host();
    var level := new LimitProperty("level", 5, 0, 10);
    level.Register(host, "level", 5);
    var a := Callback(0);
    var rec := level.base.instances[host];
    rec.callbacks := [a];
    var never := (c: Callback, v: int) => false;

    assert [a][1..] == [] && !never(a, -3) && !never(a, 10);
    assert Fired([a], host, -3, never) == [Call(a, host, -3)];
    assert Fired([a], host, 10, never) == [Call(a, host, 10)];
    var r := level.Set(host, -3, never);
    assert rec.value == 0 && r == Success([Call(a, host, -3)]);
    r := level.Set(host, -7, never);
    assert rec.value == 0 && r == Success([]);
    r := level.Set(host, 12, never);
    assert rec.value == 10 && r == Success([Call(a, host, 10)]);
  }

  /** Changing one instance's bound leaves the other instance's record and the declaration as they were. */
  method IndependentRecordsScenario()
  {
    var x := new Host();
    var y := new Host();
    var level := new LimitProperty("level", 5, 0, 10);
    level.Register(x, "level", 5);
    level.Register(y, "level", 5);
    var rx, ry := level.base.instances[x], level.base.instances[y];
    var r := level.SetMin(x, 7, (c: Callback, v: int) => false);
    assert rx.extras == Bounds(7, 10) && rx.value == 7;
    assert ry.extras == Bounds(0, 10) && ry.value == 5;
    assert level.base.additionals == Bounds(0, 10);
  }
}
