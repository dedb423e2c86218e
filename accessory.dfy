/**
 * The HomeKit accessory of index.js, without HomeKit: a table of areas keyed
 * by "area_<number>", each with an on flag and a brightness, that is updated
 * when a command sent through the iPort succeeds. Area 0 stands for all
 * lights; switching it switches every area, and switching any other area
 * recomputes area 0 as the AND of the others.
 *
 * Each `_set...` handler is split in two: the request it makes of the
 * dispatcher (`SetAreaOn`, `SetAreaBrightness`), and the callback the
 * dispatcher later runs with the command's outcome (`SetAreaOnDone`,
 * `SetAreaBrightnessDone`).
 */
module Accessory {
  import opened Wrappers
  import opened Decimal
  import opened Protocol
  import IPort

  const ALL_AREAS_KEY: string := "area_0"

  /** One entry of the configured `areas` list. */
  datatype AreaConfig = AreaConfig(number: int, name: string, kind: string, dimmable: bool)

  /** The stored state of an area. */
  datatype Area = Area(number: int, name: string, kind: string, dimmable: bool, on: bool, brightness: nat)

  datatype ConfigError = DimmableAllLightsArea

  function AreaKey(number: int): string {
    "area_" + IntToString(number)
  }

  lemma AreaKeyInjective(a: int, b: int)
    requires AreaKey(a) == AreaKey(b)
    ensures a == b
  {
    assert AreaKey(a)[5..] == IntToString(a);
    assert AreaKey(b)[5..] == IntToString(b);
    IntToStringInjective(a, b);
  }

  /** Only area 0 is stored under ALL_AREAS_KEY. */
  lemma OnlyAreaZeroIsAll(n: int)
    ensures AreaKey(n) == ALL_AREAS_KEY <==> n == 0
  {
    assert AreaKey(0) == ALL_AREAS_KEY;
    if AreaKey(n) == ALL_AREAS_KEY {
      AreaKeyInjective(n, 0);
    }
  }

  /** An area as first created from its configuration: off, brightness 0. */
  function NewArea(c: AreaConfig): Area {
    Area(c.number, c.name, c.kind, c.dimmable, false, 0)
  }

  /** The table the constructor's loop builds; a later entry with the same number replaces an earlier one. */
  function AreaTable(config: seq<AreaConfig>): map<string, Area> {
    if config == [] then map[]
    else
      var last := config[|config| - 1];
      AreaTable(config[..|config| - 1])[AreaKey(last.number) := NewArea(last)]
  }

  /** The configuration the constructor refuses: a dimmable area 0. */
  predicate RejectedConfig(config: seq<AreaConfig>) {
    exists i :: 0 <= i < |config| && config[i].number == 0 && config[i].dimmable
  }

  /** Every area is stored under its own number's key. */
  predicate KeysMatch(t: map<string, Area>) {
    forall k :: k in t ==> k == AreaKey(t[k].number)
  }

  predicate AllOthersOn(t: map<string, Area>) {
    forall k :: k in t && k != ALL_AREAS_KEY ==> t[k].on
  }

  predicate OthersExist(t: map<string, Area>) {
    exists k :: k in t && k != ALL_AREAS_KEY
  }

  /** Area 0, when configured next to other areas, is on exactly when all of them are. */
  predicate AreaZeroConsistent(t: map<string, Area>) {
    ALL_AREAS_KEY in t && OthersExist(t) ==> t[ALL_AREAS_KEY].on == AllOthersOn(t)
  }

  ghost predicate TableValid(t: map<string, Area>) {
    KeysMatch(t) && AreaZeroConsistent(t)
  }

  /** The table after a successful "all on/off": every area, area 0 included, takes `on`. */
  ghost function AfterAllOn(t: map<string, Area>, on: bool): map<string, Area> {
    map k | k in t :: t[k].(on := on)
  }

  /** The table after a successful "area n on/off" for n != 0: area n takes `on`, then area 0 is recomputed. */
  ghost function AfterAreaOn(t: map<string, Area>, n: int, on: bool): map<string, Area>
    requires AreaKey(n) in t
  {
    var u := t[AreaKey(n) := t[AreaKey(n)].(on := on)];
    if ALL_AREAS_KEY in u then u[ALL_AREAS_KEY := u[ALL_AREAS_KEY].(on := AllOthersOn(u))] else u
  }

  /** The table after a successful intensity command: area n stores the HomeKit brightness. */
  ghost function AfterBrightness(t: map<string, Area>, n: int, brightness: nat): map<string, Area>
    requires AreaKey(n) in t
  {
    t[AreaKey(n) := t[AreaKey(n)].(brightness := brightness)]
  }

  /** `Math.trunc(brightness / 10)`: HomeKit's 0-100 brightness as a device intensity. */
  function IntensityFor(brightness: nat): nat {
    brightness / 10
  }

  /**
   * The iPort layer's own validation accepts exactly the brightness values 10
   * to 109, on a valid area; below 10 it rejects the intensity 0.
   */
  lemma BrightnessAccepted(n: int, brightness: nat)
    ensures SetIntensity(n, IntensityFor(brightness)).Success? <==> ValidArea(n) && 10 <= brightness <= 109
    ensures ValidArea(n) && brightness < 10 ==> SetIntensity(n, IntensityFor(brightness)) == Failure(InvalidIntensity(0))
  {
  }

  /** Construction stores nothing but configured numbers' keys. */
  lemma {:induction false} AreaTableKeys(config: seq<AreaConfig>)
    ensures forall k :: k in AreaTable(config) ==> exists i :: 0 <= i < |config| && k == AreaKey(config[i].number)
  {
    if config != [] {
      var init := config[..|config| - 1];
      AreaTableKeys(init);
      forall k | k in AreaTable(config)
        ensures exists i :: 0 <= i < |config| && k == AreaKey(config[i].number)
      {
        if k != AreaKey(config[|config| - 1].number) {
          assert k in AreaTable(init);
          var i :| 0 <= i < |init| && k == AreaKey(init[i].number);
          assert config[i] == init[i];
        }
      }
    }
  }

  /** Every configured area is stored under the key of its number. */
  lemma {:induction false} AreaTableStores(config: seq<AreaConfig>)
    ensures forall i :: 0 <= i < |config| ==>
      AreaKey(config[i].number) in AreaTable(config) && AreaTable(config)[AreaKey(config[i].number)].number == config[i].number
  {
    if config != [] {
      var init := config[..|config| - 1];
      var last := config[|config| - 1];
      AreaTableStores(init);
      forall i | 0 <= i < |config| - 1
        ensures AreaKey(config[i].number) in AreaTable(config)
        ensures AreaTable(config)[AreaKey(config[i].number)].number == config[i].number
      {
        assert config[i] == init[i];
        if AreaKey(config[i].number) == AreaKey(last.number) {
          AreaKeyInjective(config[i].number, last.number);
        }
      }
    }
  }

  /** Every stored area starts off, with brightness 0, under its own number's key. */
  lemma {:induction false} AreaTableFresh(config: seq<AreaConfig>)
    ensures forall k :: k in AreaTable(config) ==> !AreaTable(config)[k].on && AreaTable(config)[k].brightness == 0
    ensures KeysMatch(AreaTable(config))
  {
    if config != [] {
      AreaTableFresh(config[..|config| - 1]);
    }
  }

  /** The freshly built table satisfies the area-0 invariant: everything is off. */
  lemma InitialTableValid(config: seq<AreaConfig>)
    ensures TableValid(AreaTable(config))
  {
    var t := AreaTable(config);
    AreaTableFresh(config);
    if ALL_AREAS_KEY in t && OthersExist(t) {
      var k :| k in t && k != ALL_AREAS_KEY;
      assert !t[k].on;
    }
  }

  /** Switching all lights keeps the table valid and leaves area 0 equal to the switched value. */
  lemma AfterAllOnValid(t: map<string, Area>, on: bool)
    requires KeysMatch(t)
    ensures TableValid(AfterAllOn(t, on))
    ensures AfterAllOn(t, on).Keys == t.Keys
    ensures forall k :: k in t ==> AfterAllOn(t, on)[k].on == on
  {
    var u := AfterAllOn(t, on);
    if ALL_AREAS_KEY in u && OthersExist(u) {
      var k :| k in u && k != ALL_AREAS_KEY;
      assert u[k].on == on;
    }
  }

  /** Switching area n (n != 0) sets it and touches no area other than area 0. */
  lemma AfterAreaOnFrame(t: map<string, Area>, n: int, on: bool)
    requires n != 0 && AreaKey(n) in t
    ensures AfterAreaOn(t, n, on).Keys == t.Keys
    ensures AfterAreaOn(t, n, on)[AreaKey(n)].on == on
    ensures forall k :: k in t && k != AreaKey(n) && k != ALL_AREAS_KEY ==> AfterAreaOn(t, n, on)[k] == t[k]
  {
    OnlyAreaZeroIsAll(n);
  }

  /** After switching area n (n != 0), area 0 is on exactly when every other area is, so the table stays valid. */
  lemma AfterAreaOnValid(t: map<string, Area>, n: int, on: bool)
    requires KeysMatch(t) && n != 0 && AreaKey(n) in t
    ensures TableValid(AfterAreaOn(t, n, on))
    ensures ALL_AREAS_KEY in t ==> AfterAreaOn(t, n, on)[ALL_AREAS_KEY].on == AllOthersOn(AfterAreaOn(t, n, on))
  {
    OnlyAreaZeroIsAll(n);
    var u := t[AreaKey(n) := t[AreaKey(n)].(on := on)];
    assert KeysMatch(u);
    if ALL_AREAS_KEY in u {
      var w := u[ALL_AREAS_KEY := u[ALL_AREAS_KEY].(on := AllOthersOn(u))];
      assert AllOthersOn(w) == AllOthersOn(u) by {
        assert forall k :: k in w && k != ALL_AREAS_KEY ==> w[k] == u[k];
      }
      assert KeysMatch(w) by {
        assert forall k :: k in w ==> w[k].number == u[k].number;
      }
    }
  }

  /** Storing a brightness changes no on flag, so the table stays valid. */
  lemma AfterBrightnessValid(t: map<string, Area>, n: int, brightness: nat)
    requires TableValid(t) && AreaKey(n) in t
    ensures TableValid(AfterBrightness(t, n, brightness))
    ensures AfterBrightness(t, n, brightness)[AreaKey(n)].brightness == brightness
  {
    var u := AfterBrightness(t, n, brightness);
    assert forall k :: k in u ==> u[k].on == t[k].on;
    assert AllOthersOn(u) == AllOthersOn(t);
    if OthersExist(u) {
      var k :| k in u && k != ALL_AREAS_KEY;
      assert k in t;
    }
  }

  /** The `allOn` fold of `_setAreaOn`: AND of `on` over every area but area 0. */
  method AllOtherAreasOn(t: map<string, Area>) returns (allOn: bool)
    ensures allOn <==> AllOthersOn(t)
  {
    allOn := true;
    var keys := t.Keys;
    while keys != {}
      invariant keys <= t.Keys
      invariant allOn <==> forall k :: k in t && k !in keys && k != ALL_AREAS_KEY ==> t[k].on
      decreases keys
    {
      var k :| k in keys;
      if k != ALL_AREAS_KEY {
        allOn := allOn && t[k].on;
      }
      keys := keys - {k};
    }
  }

  /** The constructor's loop over the configured areas: throws on a dimmable area 0, otherwise fills the table. */
  method BuildAreas(config: seq<AreaConfig>) returns (r: Result<map<string, Area>, ConfigError>)
    ensures r.Failure? <==> RejectedConfig(config)
    ensures r.Failure? ==> r.error == DimmableAllLightsArea
    ensures r.Success? ==> r.value == AreaTable(config)
  {
    var table: map<string, Area> := map[];
    var i := 0;
    while i < |config|
      invariant 0 <= i <= |config|
      invariant table == AreaTable(config[..i])
      invariant forall j :: 0 <= j < i ==> !(config[j].number == 0 && config[j].dimmable)
    {
      if config[i].number == 0 && config[i].dimmable {
        return Failure(DimmableAllLightsArea);
      }
      assert config[..i + 1][..i] == config[..i];
      table := table[AreaKey(config[i].number) := NewArea(config[i])];
      i := i + 1;
    }
    assert config[..i] == config;
    return Success(table);
  }

  /** `new LightSymphonyAccessory(log, config)`: a dimmable area 0 makes construction fail. */
  method Create(config: seq<AreaConfig>, ipAddress: Option<string>) returns (r: Result<LightSymphonyAccessory, ConfigError>)
    ensures r.Failure? <==> RejectedConfig(config)
    ensures r.Success? ==> fresh(r.value) && fresh(r.value.port) && r.value.Valid()
    ensures r.Success? ==> r.value.areas == AreaTable(config)
    ensures r.Success? ==> r.value.port.ipAddress == IPort.FromConfig(ipAddress)
    ensures r.Success? ==> r.value.port.broadcastAddress == IPort.DEFAULT_BROADCAST && r.value.port.pending == []
    ensures r.Success? ==> r.value.port.phase == IPort.Idle && r.value.port.current.None? && r.value.port.attempts == []
    ensures r.Success? ==> r.value.port.sent == [] && r.value.port.completed == [] && r.value.port.closeThrows == []
  {
    var table := BuildAreas(config);
    if table.Failure? {
      return Failure(table.error);
    }
    InitialTableValid(config);
    var accessory := new LightSymphonyAccessory(table.value, ipAddress);
    return Success(accessory);
  }

  class LightSymphonyAccessory {
    var areas: map<string, Area>
    const port: IPort.Dispatcher

    ghost predicate Valid()
      reads this, port
    {
      port.Valid() && TableValid(areas)
    }

    constructor (table: map<string, Area>, ipAddress: Option<string>)
      requires TableValid(table)
      ensures Valid() && fresh(port) && areas == table
      ensures port.ipAddress == IPort.FromConfig(ipAddress)
      ensures port.broadcastAddress == IPort.DEFAULT_BROADCAST && port.pending == []
      ensures port.phase == IPort.Idle && port.current.None? && port.attempts == []
      ensures port.sent == [] && port.completed == [] && port.closeThrows == []
    {
      areas := table;
      port := new IPort.Dispatcher(ipAddress, None);
    }

    /** `_getAreaOn`: the stored on flag of the area. */
    method GetAreaOn(n: int) returns (on: bool)
      requires AreaKey(n) in areas
      ensures on == areas[AreaKey(n)].on
    {
      on := areas[AreaKey(n)].on;
    }

    /** `_getAreaBrightness`: the stored brightness of the area. */
    method GetAreaBrightness(n: int) returns (brightness: nat)
      requires AreaKey(n) in areas
      ensures brightness == areas[AreaKey(n)].brightness
    {
      brightness := areas[AreaKey(n)].brightness;
    }

    /**
     * `_setAreaOn`, the request: area 0 asks for "all on/off", any other area
     * for "area on/off n". A rejected area fails at once; the table does not
     * change until the command's callback (`SetAreaOnDone`).
     */
    method SetAreaOn(n: int, on: bool) returns (r: Result<nat, Error>)
      requires Valid()
      modifies port
      ensures Valid() && areas == old(areas)
      ensures (port.ipAddress, port.current, port.phase, port.attempts) == old((port.ipAddress, port.current, port.phase, port.attempts))
      ensures (port.sent, port.completed, port.closeThrows) == old((port.sent, port.completed, port.closeThrows))
      ensures r.Success? ==> r.value == |old(port.pushed)|
      ensures n == 0 ==> r.Success? && port.pending == old(port.pending) + [IPort.Task(r.value, if on then "all_on" else "all_off")]
      ensures n != 0 && !ValidArea(n) ==> r == Failure(InvalidArea(n)) && unchanged(port)
      ensures n != 0 && ValidArea(n) ==> r.Success? && port.pending == old(port.pending) + [IPort.Task(r.value, Text(AreaLights(n, on)))]
    {
      if n == 0 {
        var id := port.SetAll(on);
        r := Success(id);
      } else {
        r := port.SetArea(n, on);
      }
    }

    /** `_setAreaOn`, the callback: on success the table takes the new on flags; on error it is unchanged. */
    method SetAreaOnDone(n: int, on: bool, error: Option<Error>)
      requires Valid()
      requires error.None? && n != 0 ==> AreaKey(n) in areas
      modifies this
      ensures Valid()
      ensures error.Some? ==> areas == old(areas)
      ensures error.None? && n == 0 ==> areas == AfterAllOn(old(areas), on)
      ensures error.None? && n != 0 ==> areas == AfterAreaOn(old(areas), n, on)
    {
      if error.None? {
        if n == 0 {
          SwitchAllAreas(on);
        } else {
          SwitchArea(n, on);
        }
      }
    }

    /** The loop over every key after a successful "all on/off". */
    method SwitchAllAreas(on: bool)
      requires Valid()
      modifies this
      ensures Valid()
      ensures areas == AfterAllOn(old(areas), on)
    {
      var keys := areas.Keys;
      ghost var before := areas;
      while keys != {}
        invariant keys <= before.Keys && areas.Keys == before.Keys
        invariant forall k :: k in keys ==> areas[k] == before[k]
        invariant forall k :: k in areas && k !in keys ==> areas[k] == before[k].(on := on)
        decreases keys
      {
        var k :| k in keys;
        areas := areas[k := areas[k].(on := on)];
        keys := keys - {k};
      }
      assert areas == AfterAllOn(before, on);
      AfterAllOnValid(before, on);
    }

    /** After a successful "area n on/off" (n != 0): area n takes `on`, then area 0 becomes the AND of the others. */
    method SwitchArea(n: int, on: bool)
      requires Valid() && n != 0 && AreaKey(n) in areas
      modifies this
      ensures Valid()
      ensures areas == AfterAreaOn(old(areas), n, on)
    {
      ghost var before := areas;
      AfterAreaOnValid(before, n, on);
      var key := AreaKey(n);
      areas := areas[key := areas[key].(on := on)];
      if ALL_AREAS_KEY in areas {
        var allOn := AllOtherAreasOn(areas);
        areas := areas[ALL_AREAS_KEY := areas[ALL_AREAS_KEY].(on := allOn)];
      }
    }

    /**
     * `_setAreaBrightness`, the request: intensity `brightness / 10` for area
     * n, validated by the dispatcher; the table does not change until the
     * command's callback (`SetAreaBrightnessDone`).
     */
    method SetAreaBrightness(n: int, brightness: nat) returns (r: Result<nat, Error>)
      requires Valid()
      modifies port
      ensures Valid() && areas == old(areas)
      ensures (port.ipAddress, port.current, port.phase, port.attempts) == old((port.ipAddress, port.current, port.phase, port.attempts))
      ensures (port.sent, port.completed, port.closeThrows) == old((port.sent, port.completed, port.closeThrows))
      ensures r.Success? ==> r.value == |old(port.pushed)|
      ensures SetIntensity(n, IntensityFor(brightness)).Failure? ==>
        r == Failure(SetIntensity(n, IntensityFor(brightness)).error) && unchanged(port)
      ensures SetIntensity(n, IntensityFor(brightness)).Success? ==>
        && r.Success?
        && port.pending == old(port.pending) + [IPort.Task(r.value, Text(SetIntensity(n, IntensityFor(brightness)).value))]
    {
      r := port.SetIntensity(n, IntensityFor(brightness));
    }

    /** `_setAreaBrightness`, the callback: on success area n stores the HomeKit brightness; on error nothing changes. */
    method SetAreaBrightnessDone(n: int, brightness: nat, error: Option<Error>)
      requires Valid()
      requires error.None? ==> AreaKey(n) in areas
      modifies this
      ensures Valid()
      ensures error.Some? ==> areas == old(areas)
      ensures error.None? ==> areas == AfterBrightness(old(areas), n, brightness)
    {
      if error.None? {
        AfterBrightnessValid(areas, n, brightness);
        var key := AreaKey(n);
        areas := areas[key := areas[key].(brightness := brightness)];
      }
    }
  }
}
