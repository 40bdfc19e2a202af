/**
 Rendering a profile onto the device's component namespace (internal/drift/desired.go).
 Only declared fields are emitted, and no empty object ever is.
 */
module Desired {
  import opened Wrappers
  import opened Json
  import opened Strings
  import opened Drift

  // ----- the declared configuration

  /** A declared coordinate: a decimal, or text that does not parse as one. */
  datatype Coordinate = Decimal(value: real) | Malformed

  datatype System = System(
    ecoMode: Option<bool>, discoverable: Option<bool>, timezone: Option<string>,
    latitude: Option<Coordinate>, longitude: Option<Coordinate>, sntpServer: Option<string>, debugLevel: Option<int>)

  datatype Mqtt = Mqtt(enable: Option<bool>, server: string)

  datatype Toggle = Toggle(enable: Option<bool>)

  datatype Switch = Switch(
    initialState: Option<string>, autoOn: Option<bool>, autoOnDelay: Option<int>, autoOff: Option<bool>,
    autoOffDelay: Option<int>, powerLimit: Option<int>, voltageLimit: Option<int>, currentLimit: Option<int>,
    autorecoverVoltageErrors: Option<bool>)

  datatype WifiNetwork = WifiNetwork(enable: Option<bool>, ssid: string)

  datatype WifiAP = WifiAP(enable: Option<bool>, rangeExtender: Option<bool>)

  datatype WifiRoam = WifiRoam(rssiThreshold: Option<int>, interval: Option<int>)

  datatype Wifi = Wifi(sta: Option<WifiNetwork>, sta1: Option<WifiNetwork>, ap: Option<WifiAP>, roam: Option<WifiRoam>)

  datatype NightMode = NightMode(enable: Option<bool>, brightness: Option<int>, activeBetween: seq<string>)

  datatype UI = UI(ledMode: Option<string>, nightMode: Option<NightMode>, buttonInMode: Option<string>)

  datatype ProfileConfig = ProfileConfig(
    system: Option<System>, nameManaged: bool, mqtt: Option<Mqtt>, cloud: Option<Toggle>, ble: Option<Toggle>,
    ws: Option<Toggle>, switch: Option<Switch>, wifi: Option<Wifi>, ui: Option<UI>)

  /** The device's configuration, component by component. */
  type Config = map<string, Json>

  // ----- building objects from declared fields only

  /** A value a diff can speak about: no empty object, and none inside. */
  ghost predicate Clean(j: Json)
  {
    j != EMPTY && NoEmptyInside(j)
  }

  ghost predicate CleanFields(m: Object)
  {
    forall k :: k in m ==> Clean(m[k])
  }

  ghost predicate CleanOption(v: Option<Json>)
  {
    v.Some? ==> Clean(v.value)
  }

  /** Nothing, or an object a diff can speak about. */
  ghost predicate Tree(v: Option<Json>)
  {
    v.Some? ==> v.value.Obj? && Clean(v.value)
  }

  function Put(m: Object, k: string, v: Option<Json>): Object
  {
    if v.Some? then m[k := v.value] else m
  }

  /** The object, unless it has no fields. */
  function IfAny(m: Object): Option<Json>
  {
    if m == map[] then None else Some(Obj(m))
  }

  function OfBool(v: Option<bool>): Option<Json>
  {
    if v.Some? then Some(Bool(v.value)) else None
  }

  function OfString(v: Option<string>): Option<Json>
  {
    if v.Some? then Some(Str(v.value)) else None
  }

  function OfText(v: string): Option<Json>
  {
    if v != "" then Some(Str(v)) else None
  }

  function OfInt(v: Option<int>): Option<Json>
  {
    if v.Some? then Some(Num(v.value as real)) else None
  }

  function OfCoordinate(v: Option<Coordinate>): Option<Json>
  {
    if v.Some? && v.value.Decimal? then Some(Num(v.value.value)) else None
  }

  // ----- the sections that do not look at the device

  function RenderLocation(sys: System): Option<Json>
  {
    IfAny(Put(Put(Put(map[], "tz", OfString(sys.timezone)), "lat", OfCoordinate(sys.latitude)), "lon", OfCoordinate(sys.longitude)))
  }

  function RenderSysDevice(sys: Option<System>, nameManaged: bool, desiredName: string): Option<Json>
  {
    var eco, discoverable := if sys.Some? then sys.value.ecoMode else None, if sys.Some? then sys.value.discoverable else None;
    IfAny(Put(Put(Put(map[], "eco_mode", OfBool(eco)), "discoverable", OfBool(discoverable)),
              "name", if nameManaged then OfText(desiredName) else None))
  }

  function RenderSys(sys: Option<System>, nameManaged: bool, desiredName: string): Option<Json>
  {
    var device := Put(map[], "device", RenderSysDevice(sys, nameManaged, desiredName));
    if sys.None? then IfAny(device)
    else
      IfAny(Put(Put(Put(device, "location", RenderLocation(sys.value)),
                    "sntp", IfAny(Put(map[], "server", OfString(sys.value.sntpServer)))),
                "debug", IfAny(Put(map[], "level", OfInt(sys.value.debugLevel)))))
  }

  function RenderMqtt(mqtt: Option<Mqtt>): Option<Json>
  {
    if mqtt.None? then None else IfAny(Put(Put(map[], "enable", OfBool(mqtt.value.enable)), "server", OfText(mqtt.value.server)))
  }

  function RenderToggle(t: Option<Toggle>): Option<Json>
  {
    if t.None? then None else IfAny(Put(map[], "enable", OfBool(t.value.enable)))
  }

  function RenderWifiNetwork(n: Option<WifiNetwork>): Option<Json>
  {
    if n.None? then None else IfAny(Put(Put(map[], "enable", OfBool(n.value.enable)), "ssid", OfText(n.value.ssid)))
  }

  function RenderWifiAP(ap: Option<WifiAP>): Option<Json>
  {
    if ap.None? then None
    else IfAny(Put(Put(map[], "enable", OfBool(ap.value.enable)), "range_extender", IfAny(Put(map[], "enable", OfBool(ap.value.rangeExtender)))))
  }

  function RenderWifiRoam(roam: Option<WifiRoam>): Option<Json>
  {
    if roam.None? then None
    else IfAny(Put(Put(map[], "rssi_thr", OfInt(roam.value.rssiThreshold)), "interval", OfInt(roam.value.interval)))
  }

  function RenderWifi(wifi: Option<Wifi>): Option<Json>
  {
    if wifi.None? then None
    else IfAny(Put(Put(Put(Put(map[], "sta", RenderWifiNetwork(wifi.value.sta)), "sta1", RenderWifiNetwork(wifi.value.sta1)),
                       "ap", RenderWifiAP(wifi.value.ap)), "roam", RenderWifiRoam(wifi.value.roam)))
  }

  function RenderSwitch(sw: Option<Switch>): Option<Json>
  {
    if sw.None? then None
    else
      var s := sw.value;
      var a := Put(Put(Put(map[], "initial_state", OfString(s.initialState)), "auto_on", OfBool(s.autoOn)), "auto_on_delay", OfInt(s.autoOnDelay));
      var b := Put(Put(Put(a, "auto_off", OfBool(s.autoOff)), "auto_off_delay", OfInt(s.autoOffDelay)), "power_limit", OfInt(s.powerLimit));
      IfAny(Put(Put(Put(b, "voltage_limit", OfInt(s.voltageLimit)), "current_limit", OfInt(s.currentLimit)),
                "autorecover_voltage_errors", OfBool(s.autorecoverVoltageErrors)))
  }

  // ----- the plug UI, which does

  predicate IsUiKey(k: string)
  {
    && |k| > 3 && HasSuffix(k, "_ui")
    && forall i :: 0 <= i < |k| - 3 ==> 'a' <= k[i] <= 'z' || '0' <= k[i] <= '9'
  }

  predicate IsSwitchKey(k: string)
  {
    HasPrefix(k, "switch:")
  }

  /** The switch:N controls the device's UI component already exposes. */
  function ControlKeys(have: Option<Json>): set<string>
  {
    var controls := FieldsOf(OrNull(Get(FieldsOf(OrNull(have)), "controls")));
    set k | k in controls && IsSwitchKey(k)
  }

  /** Those keys, or the one control every single-switch plug has. */
  function ManagedControls(have: Option<Json>): set<string>
  {
    if ControlKeys(have) == {} then {"switch:0"} else ControlKeys(have)
  }

  function InMode(mode: string): Json
  {
    Obj(map["in_mode" := Str(mode)])
  }

  function RenderControls(mode: string, have: Option<Json>): Object
  {
    map k | k in ManagedControls(have) :: InMode(mode)
  }

  function RenderNightMode(nm: Option<NightMode>): Option<Json>
  {
    if nm.None? then None
    else
      var between := nm.value.activeBetween;
      var window: Option<Json> := if between == [] then None else Some(Arr(seq(|between|, i requires 0 <= i < |between| => Str(between[i]))));
      IfAny(Put(Put(Put(map[], "enable", OfBool(nm.value.enable)), "brightness", OfInt(nm.value.brightness)), "active_between", window))
  }

  function RenderLeds(ui: UI): Option<Json>
  {
    IfAny(Put(Put(map[], "mode", OfString(ui.ledMode)), "night_mode", RenderNightMode(ui.nightMode)))
  }

  function RenderUI(ui: UI, have: Option<Json>): Option<Json>
  {
    IfAny(Put(Put(map[], "leds", RenderLeds(ui)),
              "controls", if ui.buttonInMode.Some? then IfAny(RenderControls(ui.buttonInMode.value, have)) else None))
  }

  // ----- Render

  const STATIC_SECTIONS := {"sys", "mqtt", "cloud", "ble", "ws", "wifi"}

  /** One of six values, by the name of its section. */
  function Named(sys: Option<Json>, mqtt: Option<Json>, cloud: Option<Json>, ble: Option<Json>, ws: Option<Json>, wifi: Option<Json>, s: string): Option<Json>
  {
    if s == "sys" then sys
    else if s == "mqtt" then mqtt
    else if s == "cloud" then cloud
    else if s == "ble" then ble
    else if s == "ws" then ws
    else if s == "wifi" then wifi
    else None
  }

  /** The sections that are desired whatever the device is like. */
  function StaticSection(cfg: ProfileConfig, desiredName: string, s: string): Option<Json>
  {
    Named(RenderSys(cfg.system, cfg.nameManaged, desiredName), RenderMqtt(cfg.mqtt), RenderToggle(cfg.cloud),
          RenderToggle(cfg.ble), RenderToggle(cfg.ws), RenderWifi(cfg.wifi), s)
  }

  /**
   What is desired of one section. It depends on the device only through that section
   itself: whether a switch component exists, and which controls the UI component has.
   */
  function Wanted(cfg: ProfileConfig, desiredName: string, uiKey: Option<string>, s: string, have: Option<Json>): Option<Json>
  {
    if s in STATIC_SECTIONS then StaticSection(cfg, desiredName, s)
    else if have.None? then None
    else if IsSwitchKey(s) then RenderSwitch(cfg.switch)
    else if uiKey == Some(s) && cfg.ui.Some? then RenderUI(cfg.ui.value, have)
    else None
  }

  function Render(cfg: ProfileConfig, desiredName: string, uiKey: Option<string>, actual: Config): (out: Config)
    ensures forall s :: Get(out, s) == Wanted(cfg, desiredName, uiKey, s, Get(actual, s))
  {
    map s | s in STATIC_SECTIONS + actual.Keys && Wanted(cfg, desiredName, uiKey, s, Get(actual, s)).Some?
      :: Wanted(cfg, desiredName, uiKey, s, Get(actual, s)).value
  }

  /** discoverUIKey: some component that is a plug UI, or none if there is none. */
  ghost predicate IsDiscovered(uiKey: Option<string>, actual: Config)
  {
    match uiKey
    case Some(k) => k in actual && IsUiKey(k)
    case None => forall k :: k in actual ==> !IsUiKey(k)
  }

  // ----- whatever is wanted has a leaf on every branch

  /** What is put together from clean parts is clean. */
  lemma PutClean(m: Object, k: string, v: Option<Json>)
    requires CleanFields(m) && CleanOption(v)
    ensures CleanFields(Put(m, k, v))
  {
  }

  lemma PutThree(m: Object, j: string, u: Option<Json>, k: string, v: Option<Json>, l: string, w: Option<Json>)
    requires CleanFields(m) && CleanOption(u) && CleanOption(v) && CleanOption(w)
    ensures CleanFields(Put(Put(Put(m, j, u), k, v), l, w))
  {
    PutClean(m, j, u);
    PutClean(Put(m, j, u), k, v);
    PutClean(Put(Put(m, j, u), k, v), l, w);
  }

  lemma IfAnyIsTree(m: Object)
    requires CleanFields(m)
    ensures Tree(IfAny(m))
  {
  }

  /** One declared field, or none, makes a tree or nothing. */
  lemma SingleIsTree(k: string, v: Option<Json>)
    requires CleanOption(v)
    ensures Tree(IfAny(Put(map[], k, v)))
  {
    PutClean(map[], k, v);
    IfAnyIsTree(Put(map[], k, v));
  }

  lemma PairIsTree(j: string, u: Option<Json>, k: string, v: Option<Json>)
    requires CleanOption(u) && CleanOption(v)
    ensures Tree(IfAny(Put(Put(map[], j, u), k, v)))
  {
    PutClean(map[], j, u);
    PutClean(Put(map[], j, u), k, v);
    IfAnyIsTree(Put(Put(map[], j, u), k, v));
  }

  lemma TripleIsTree(j: string, u: Option<Json>, k: string, v: Option<Json>, l: string, w: Option<Json>)
    requires CleanOption(u) && CleanOption(v) && CleanOption(w)
    ensures Tree(IfAny(Put(Put(Put(map[], j, u), k, v), l, w)))
  {
    PutThree(map[], j, u, k, v, l, w);
    IfAnyIsTree(Put(Put(Put(map[], j, u), k, v), l, w));
  }

  lemma SysIsTree(sys: Option<System>, nameManaged: bool, desiredName: string)
    ensures Tree(RenderSys(sys, nameManaged, desiredName))
  {
    var eco, discoverable := if sys.Some? then sys.value.ecoMode else None, if sys.Some? then sys.value.discoverable else None;
    TripleIsTree("eco_mode", OfBool(eco), "discoverable", OfBool(discoverable), "name", if nameManaged then OfText(desiredName) else None);
    var part := RenderSysDevice(sys, nameManaged, desiredName);
    SingleIsTree("device", part);
    if sys.Some? {
      TripleIsTree("tz", OfString(sys.value.timezone), "lat", OfCoordinate(sys.value.latitude), "lon", OfCoordinate(sys.value.longitude));
      var sntp, debug := IfAny(Put(map[], "server", OfString(sys.value.sntpServer))), IfAny(Put(map[], "level", OfInt(sys.value.debugLevel)));
      SingleIsTree("server", OfString(sys.value.sntpServer));
      SingleIsTree("level", OfInt(sys.value.debugLevel));
      PutClean(map[], "device", part);
      PutThree(Put(map[], "device", part), "location", RenderLocation(sys.value), "sntp", sntp, "debug", debug);
      IfAnyIsTree(Put(Put(Put(Put(map[], "device", part), "location", RenderLocation(sys.value)), "sntp", sntp), "debug", debug));
    }
  }

  lemma NetworkIsTree(n: Option<WifiNetwork>)
    ensures Tree(RenderWifiNetwork(n))
  {
    if n.Some? {
      PairIsTree("enable", OfBool(n.value.enable), "ssid", OfText(n.value.ssid));
    }
  }

  lemma WifiIsTree(wifi: Option<Wifi>)
    ensures Tree(RenderWifi(wifi))
  {
    if wifi.Some? {
      var w := wifi.value;
      NetworkIsTree(w.sta);
      NetworkIsTree(w.sta1);
      if w.ap.Some? {
        SingleIsTree("enable", OfBool(w.ap.value.rangeExtender));
        PairIsTree("enable", OfBool(w.ap.value.enable), "range_extender", IfAny(Put(map[], "enable", OfBool(w.ap.value.rangeExtender))));
      }
      if w.roam.Some? {
        PairIsTree("rssi_thr", OfInt(w.roam.value.rssiThreshold), "interval", OfInt(w.roam.value.interval));
      }
      PutThree(map[], "sta", RenderWifiNetwork(w.sta), "sta1", RenderWifiNetwork(w.sta1), "ap", RenderWifiAP(w.ap));
      var m := Put(Put(Put(map[], "sta", RenderWifiNetwork(w.sta)), "sta1", RenderWifiNetwork(w.sta1)), "ap", RenderWifiAP(w.ap));
      PutClean(m, "roam", RenderWifiRoam(w.roam));
      IfAnyIsTree(Put(m, "roam", RenderWifiRoam(w.roam)));
    }
  }

  lemma SwitchIsTree(sw: Option<Switch>)
    ensures Tree(RenderSwitch(sw))
  {
    if sw.Some? {
      var s := sw.value;
      var a := Put(Put(Put(map[], "initial_state", OfString(s.initialState)), "auto_on", OfBool(s.autoOn)), "auto_on_delay", OfInt(s.autoOnDelay));
      var b := Put(Put(Put(a, "auto_off", OfBool(s.autoOff)), "auto_off_delay", OfInt(s.autoOffDelay)), "power_limit", OfInt(s.powerLimit));
      PutThree(map[], "initial_state", OfString(s.initialState), "auto_on", OfBool(s.autoOn), "auto_on_delay", OfInt(s.autoOnDelay));
      PutThree(a, "auto_off", OfBool(s.autoOff), "auto_off_delay", OfInt(s.autoOffDelay), "power_limit", OfInt(s.powerLimit));
      PutThree(b, "voltage_limit", OfInt(s.voltageLimit), "current_limit", OfInt(s.currentLimit),
               "autorecover_voltage_errors", OfBool(s.autorecoverVoltageErrors));
      IfAnyIsTree(Put(Put(Put(b, "voltage_limit", OfInt(s.voltageLimit)), "current_limit", OfInt(s.currentLimit)),
                      "autorecover_voltage_errors", OfBool(s.autorecoverVoltageErrors)));
    }
  }

  lemma ControlsAreClean(mode: string, have: Option<Json>)
    ensures CleanFields(RenderControls(mode, have))
  {
    var entry := InMode(mode);
    assert entry.fields["in_mode"] == Str(mode) && NoEmptyInside(Str(mode));
    assert Clean(entry);
  }

  lemma LedsAreTree(ui: UI)
    ensures Tree(RenderLeds(ui))
  {
    if ui.nightMode.Some? {
      var nm := ui.nightMode.value;
      var between := nm.activeBetween;
      var window: Option<Json> := if between == [] then None else Some(Arr(seq(|between|, i requires 0 <= i < |between| => Str(between[i]))));
      TripleIsTree("enable", OfBool(nm.enable), "brightness", OfInt(nm.brightness), "active_between", window);
    }
    PairIsTree("mode", OfString(ui.ledMode), "night_mode", RenderNightMode(ui.nightMode));
  }

  lemma UiIsTree(ui: UI, have: Option<Json>)
    ensures Tree(RenderUI(ui, have))
  {
    LedsAreTree(ui);
    var controls: Option<Json> := None;
    if ui.buttonInMode.Some? {
      ControlsAreClean(ui.buttonInMode.value, have);
      IfAnyIsTree(RenderControls(ui.buttonInMode.value, have));
      controls := IfAny(RenderControls(ui.buttonInMode.value, have));
    }
    PairIsTree("leds", RenderLeds(ui), "controls", controls);
  }

  lemma ToggleIsTree(t: Option<Toggle>)
    ensures Tree(RenderToggle(t))
  {
    if t.Some? {
      SingleIsTree("enable", OfBool(t.value.enable));
    }
  }

  lemma StaticIsTree(cfg: ProfileConfig, desiredName: string, s: string)
    ensures Tree(StaticSection(cfg, desiredName, s))
  {
    SysIsTree(cfg.system, cfg.nameManaged, desiredName);
    WifiIsTree(cfg.wifi);
    if cfg.mqtt.Some? {
      PairIsTree("enable", OfBool(cfg.mqtt.value.enable), "server", OfText(cfg.mqtt.value.server));
    }
    ToggleIsTree(cfg.cloud);
    ToggleIsTree(cfg.ble);
    ToggleIsTree(cfg.ws);
  }

  /** Whatever is wanted of a section is an object with a leaf on every branch. */
  lemma WantedIsTree(cfg: ProfileConfig, desiredName: string, uiKey: Option<string>, s: string, have: Option<Json>)
    ensures Tree(Wanted(cfg, desiredName, uiKey, s, have))
  {
    StaticIsTree(cfg, desiredName, s);
    SwitchIsTree(cfg.switch);
    if cfg.ui.Some? {
      UiIsTree(cfg.ui.value, have);
    }
  }

  /** A rendered network never holds a password. */
  lemma NoPassRendered(wifi: Option<Wifi>, net: string)
    requires RenderWifi(wifi).Some? && (net == "sta" || net == "sta1") && net in RenderWifi(wifi).value.fields
    ensures
      var n := RenderWifi(wifi).value.fields[net];
      n.Obj? && "pass" !in n.fields
  {
  }

  lemma RenderedIsTree(cfg: ProfileConfig, desiredName: string, uiKey: Option<string>, actual: Config, s: string)
    requires s in Render(cfg, desiredName, uiKey, actual)
    ensures
      var want := Render(cfg, desiredName, uiKey, actual)[s];
      want.Obj? && want != EMPTY && NoEmptyInside(want)
  {
    assert Get(Render(cfg, desiredName, uiKey, actual), s).Some?;
    WantedIsTree(cfg, desiredName, uiKey, s, Get(actual, s));
  }

  /** Whatever is rendered has a leaf on every branch: by DriftMeansChange, its drift is exactly what a write would change. */
  lemma RenderedDriftMeansChange(cfg: ProfileConfig, desiredName: string, uiKey: Option<string>, actual: Config, s: string, have: Json)
    requires s in Render(cfg, desiredName, uiKey, actual)
    ensures
      var want := Render(cfg, desiredName, uiKey, actual)[s];
      want.Obj? && want != EMPTY && (InSync(want, Some(have)) <==> Merge(have, want) == have)
  {
    RenderedIsTree(cfg, desiredName, uiKey, actual, s);
    DriftMeansChange(Render(cfg, desiredName, uiKey, actual)[s], have);
  }

  // ----- Render as it runs

  /** The first plug UI component met, in no particular order. */
  method DiscoverUIKey(actual: Config) returns (uiKey: Option<string>)
    ensures IsDiscovered(uiKey, actual)
  {
    var rest := actual.Keys;
    while rest != {}
      invariant rest <= actual.Keys && forall k :: k in actual && k !in rest ==> !IsUiKey(k)
      decreases rest
    {
      var k :| k in rest;
      if IsUiKey(k) {
        return Some(k);
      }
      rest := rest - {k};
    }
    return None;
  }

  /** A copy of the switch settings into every switch component the device has. */
  method RenderSwitchComponents(sw: Option<Switch>, actual: Config, before: Config) returns (out: Config)
    ensures forall s :: Get(out, s) == if s in actual && IsSwitchKey(s) && RenderSwitch(sw).Some? then RenderSwitch(sw) else Get(before, s)
  {
    out := before;
    var m := RenderSwitch(sw);
    if m.None? {
      return;
    }
    var rest := actual.Keys;
    while rest != {}
      invariant rest <= actual.Keys
      invariant forall s :: Get(out, s) == if s in actual && s !in rest && IsSwitchKey(s) then m else Get(before, s)
      decreases rest
    {
      var comp :| comp in rest;
      rest := rest - {comp};
      if IsSwitchKey(comp) {
        out := out[comp := m.value];
      }
    }
  }

  method UiControlSwitchKeys(have: Option<Json>) returns (keys: set<string>)
    ensures keys == ControlKeys(have)
  {
    keys := {};
    var controls := FieldsOf(OrNull(Get(FieldsOf(OrNull(have)), "controls")));
    var rest := controls.Keys;
    while rest != {}
      invariant rest <= controls.Keys && keys == set k | k in controls && k !in rest && IsSwitchKey(k)
      decreases rest
    {
      var k :| k in rest;
      rest := rest - {k};
      if IsSwitchKey(k) {
        keys := keys + {k};
      }
    }
  }

  /** renderUIControls: one entry per control the device has, or for the one every single-switch plug has. */
  method RenderUIControls(mode: string, have: Option<Json>) returns (controls: Object)
    ensures controls == RenderControls(mode, have)
  {
    var keys := UiControlSwitchKeys(have);
    if keys == {} {
      keys := {"switch:0"};
    }
    controls := map[];
    var rest := keys;
    while rest != {}
      invariant rest <= keys && forall k :: Get(controls, k) == if k in keys && k !in rest then Some(InMode(mode)) else None
      decreases rest
    {
      var k :| k in rest;
      rest := rest - {k};
      controls := controls[k := InMode(mode)];
    }
    SameObject(controls, RenderControls(mode, have));
  }

  /** renderUI: the LED settings, and the controls if a button mode is declared. */
  method RenderUISection(ui: UI, have: Option<Json>) returns (section: Option<Json>)
    ensures section == RenderUI(ui, have)
  {
    var m := Put(map[], "leds", RenderLeds(ui));
    if ui.buttonInMode.Some? {
      var controls := RenderUIControls(ui.buttonInMode.value, have);
      m := Put(m, "controls", IfAny(controls));
    }
    section := IfAny(m);
  }

  lemma KindsDiffer(s: string)
    ensures IsSwitchKey(s) ==> s !in STATIC_SECTIONS && !IsUiKey(s)
    ensures IsUiKey(s) ==> s !in STATIC_SECTIONS
  {
    if IsSwitchKey(s) {
      assert s[6] == ':';
    }
  }

  /** Set a section, if there is anything to set it to. */
  function Fill(m: Config, s: string, v: Option<Json>): (r: Config)
    ensures forall x :: Get(r, x) == if x == s && v.Some? then v else Get(m, x)
  {
    if v.Some? then m[s := v.value] else m
  }

  /** The sections that do not look at the device, filled in one after the other. */
  method FillStatic(sys: Option<Json>, mqtt: Option<Json>, cloud: Option<Json>, ble: Option<Json>, ws: Option<Json>, wifi: Option<Json>)
    returns (out: Config)
    ensures forall s :: Get(out, s) == Named(sys, mqtt, cloud, ble, ws, wifi, s)
  {
    out := map[];
    out := Fill(out, "sys", sys);
    out := Fill(out, "mqtt", mqtt);
    out := Fill(out, "cloud", cloud);
    out := Fill(out, "ble", ble);
    out := Fill(out, "ws", ws);
    out := Fill(out, "wifi", wifi);
  }

  /** No section is of two kinds, so the order the kinds are filled in does not matter. */
  lemma WantedByKind(cfg: ProfileConfig, desiredName: string, uiKey: Option<string>, s: string, have: Option<Json>)
    requires uiKey.Some? ==> IsUiKey(uiKey.value)
    ensures Wanted(cfg, desiredName, uiKey, s, have) ==
              if have.Some? && uiKey == Some(s) && cfg.ui.Some? && RenderUI(cfg.ui.value, have).Some? then RenderUI(cfg.ui.value, have)
              else if have.Some? && IsSwitchKey(s) && RenderSwitch(cfg.switch).Some? then RenderSwitch(cfg.switch)
              else StaticSection(cfg, desiredName, s)
  {
    KindsDiffer(s);
  }

  method RenderConfig(cfg: ProfileConfig, desiredName: string, actual: Config) returns (out: Config, uiKey: Option<string>)
    ensures cfg.ui.Some? ==> IsDiscovered(uiKey, actual)
    ensures out == Render(cfg, desiredName, uiKey, actual)
  {
    uiKey := None;
    out := FillStatic(RenderSys(cfg.system, cfg.nameManaged, desiredName), RenderMqtt(cfg.mqtt), RenderToggle(cfg.cloud),
                      RenderToggle(cfg.ble), RenderToggle(cfg.ws), RenderWifi(cfg.wifi));
    out := RenderSwitchComponents(cfg.switch, actual, out);
    if cfg.ui.Some? {
      uiKey := DiscoverUIKey(actual);
      if uiKey.Some? {
        var section := RenderUISection(cfg.ui.value, Get(actual, uiKey.value));
        out := Fill(out, uiKey.value, section);
      }
    }
    ghost var spec := Render(cfg, desiredName, uiKey, actual);
    forall s ensures Get(out, s) == Get(spec, s) {
      WantedByKind(cfg, desiredName, uiKey, s, Get(actual, s));
    }
    SameObject(out, spec);
  }
}
