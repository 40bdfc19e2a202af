/**
 What a rendered configuration says, leaf by leaf: every field a profile declares stands at
 its own path with its own value, and nothing else stands anywhere. Together with
 WantedIsTree this determines the rendered configuration (internal/drift/desired.go).
 */
module Readback {
  import opened Wrappers
  import opened Json
  import opened Strings
  import opened Desired

  /** The value, if there is one, has this leaf at this path. */
  predicate Has(o: Option<Json>, path: seq<string>, v: Json)
  {
    o.Some? && !v.Obj? && Lookup(o.value, path) == Some(v)
  }

  predicate At(path: seq<string>, k: string)
  {
    |path| == 1 && path[0] == k
  }

  predicate Under(path: seq<string>, j: string, k: string)
  {
    |path| == 2 && path[0] == j && path[1] == k
  }

  // ----- the declared fields

  predicate SaysBool(o: Option<bool>, v: Json) { v.Bool? && o == Some(v.b) }

  predicate SaysText(o: Option<string>, v: Json) { v.Str? && o == Some(v.s) }

  predicate SaysInt(o: Option<int>, v: Json) { v.Num? && o.Some? && v.n == o.value as real }

  /** A coordinate that does not parse says nothing. */
  predicate SaysDegrees(o: Option<Coordinate>, v: Json) { v.Num? && o == Some(Decimal(v.n)) }

  /** An empty text says nothing. */
  predicate SaysSome(text: string, v: Json) { v == Str(text) && text != "" }

  predicate SysSays(sys: System, path: seq<string>, v: Json)
  {
    || (Under(path, "device", "eco_mode") && SaysBool(sys.ecoMode, v))
    || (Under(path, "device", "discoverable") && SaysBool(sys.discoverable, v))
    || (Under(path, "location", "tz") && SaysText(sys.timezone, v))
    || (Under(path, "location", "lat") && SaysDegrees(sys.latitude, v))
    || (Under(path, "location", "lon") && SaysDegrees(sys.longitude, v))
    || (Under(path, "sntp", "server") && SaysText(sys.sntpServer, v))
    || (Under(path, "debug", "level") && SaysInt(sys.debugLevel, v))
  }

  predicate NameSays(managed: bool, name: string, path: seq<string>, v: Json)
  {
    managed && Under(path, "device", "name") && SaysSome(name, v)
  }

  predicate MqttSays(mqtt: Mqtt, path: seq<string>, v: Json)
  {
    || (At(path, "enable") && SaysBool(mqtt.enable, v))
    || (At(path, "server") && SaysSome(mqtt.server, v))
  }

  predicate ToggleSays(t: Toggle, path: seq<string>, v: Json)
  {
    At(path, "enable") && SaysBool(t.enable, v)
  }

  predicate SwitchSays(sw: Switch, path: seq<string>, v: Json)
  {
    || (At(path, "initial_state") && SaysText(sw.initialState, v))
    || (At(path, "auto_on") && SaysBool(sw.autoOn, v))
    || (At(path, "auto_on_delay") && SaysInt(sw.autoOnDelay, v))
    || (At(path, "auto_off") && SaysBool(sw.autoOff, v))
    || (At(path, "auto_off_delay") && SaysInt(sw.autoOffDelay, v))
    || (At(path, "power_limit") && SaysInt(sw.powerLimit, v))
    || (At(path, "voltage_limit") && SaysInt(sw.voltageLimit, v))
    || (At(path, "current_limit") && SaysInt(sw.currentLimit, v))
    || (At(path, "autorecover_voltage_errors") && SaysBool(sw.autorecoverVoltageErrors, v))
  }

  predicate NetworkSays(n: Option<WifiNetwork>, net: string, path: seq<string>, v: Json)
  {
    && n.Some?
    && (|| (Under(path, net, "enable") && SaysBool(n.value.enable, v))
        || (Under(path, net, "ssid") && SaysSome(n.value.ssid, v)))
  }

  predicate ApSays(ap: Option<WifiAP>, path: seq<string>, v: Json)
  {
    && ap.Some?
    && (|| (Under(path, "ap", "enable") && SaysBool(ap.value.enable, v))
        || (|path| == 3 && path[0] == "ap" && path[1] == "range_extender" && path[2] == "enable" && SaysBool(ap.value.rangeExtender, v)))
  }

  predicate RoamSays(roam: Option<WifiRoam>, path: seq<string>, v: Json)
  {
    && roam.Some?
    && (|| (Under(path, "roam", "rssi_thr") && SaysInt(roam.value.rssiThreshold, v))
        || (Under(path, "roam", "interval") && SaysInt(roam.value.interval, v)))
  }

  predicate WifiSays(wifi: Wifi, path: seq<string>, v: Json)
  {
    NetworkSays(wifi.sta, "sta", path, v) || NetworkSays(wifi.sta1, "sta1", path, v) || ApSays(wifi.ap, path, v) || RoamSays(wifi.roam, path, v)
  }

  predicate NightSays(nm: Option<NightMode>, path: seq<string>, v: Json)
  {
    && nm.Some? && |path| == 3 && path[0] == "leds" && path[1] == "night_mode"
    && (|| (path[2] == "enable" && SaysBool(nm.value.enable, v))
        || (path[2] == "brightness" && SaysInt(nm.value.brightness, v))
        || (path[2] == "active_between" && SaysTimes(nm.value.activeBetween, v)))
  }

  predicate SaysTimes(times: seq<string>, v: Json)
  {
    v.Arr? && times != [] && |v.items| == |times| && forall i :: 0 <= i < |times| ==> v.items[i] == Str(times[i])
  }

  /** A control to set: a switch control the component has, or the one every single-switch plug has if it has none. */
  ghost predicate HasControl(have: Json, k: string)
  {
    if exists c :: "switch:" <= c && Lookup(have, ["controls", c]).Some? then "switch:" <= k && Lookup(have, ["controls", k]).Some?
    else k == "switch:0"
  }

  ghost predicate UiSays(ui: UI, have: Json, path: seq<string>, v: Json)
  {
    || (Under(path, "leds", "mode") && SaysText(ui.ledMode, v))
    || NightSays(ui.nightMode, path, v)
    || (|path| == 3 && path[0] == "controls" && HasControl(have, path[1]) && path[2] == "in_mode" && SaysText(ui.buttonInMode, v))
  }

  /** The profile declares, of a section that does not depend on the device, this leaf. */
  predicate DeclaresStatic(cfg: ProfileConfig, name: string, s: string, path: seq<string>, v: Json)
  {
    || (s == "sys" && ((cfg.system.Some? && SysSays(cfg.system.value, path, v)) || NameSays(cfg.nameManaged, name, path, v)))
    || (s == "mqtt" && cfg.mqtt.Some? && MqttSays(cfg.mqtt.value, path, v))
    || (s == "cloud" && cfg.cloud.Some? && ToggleSays(cfg.cloud.value, path, v))
    || (s == "ble" && cfg.ble.Some? && ToggleSays(cfg.ble.value, path, v))
    || (s == "ws" && cfg.ws.Some? && ToggleSays(cfg.ws.value, path, v))
    || (s == "wifi" && cfg.wifi.Some? && WifiSays(cfg.wifi.value, path, v))
  }

  /** The profile declares, of this section of this device, this leaf. */
  ghost predicate Declares(cfg: ProfileConfig, name: string, uiKey: Option<string>, actual: Config, s: string, path: seq<string>, v: Json)
  {
    || DeclaresStatic(cfg, name, s, path, v)
    || ("switch:" <= s && s in actual && cfg.switch.Some? && SwitchSays(cfg.switch.value, path, v))
    || (uiKey == Some(s) && s in actual && cfg.ui.Some? && UiSays(cfg.ui.value, actual[s], path, v))
  }

  // ----- reading objects back

  lemma ObjectHas(m: Object, path: seq<string>, v: Json)
    ensures Has(IfAny(m), path, v) <==> path != [] && Has(Get(m, path[0]), path[1..], v)
  {
  }

  lemma FieldHas(o: Option<Json>, path: seq<string>, v: Json)
    requires o.Some? ==> !o.value.Obj?
    ensures Has(o, path, v) <==> path == [] && o == Some(v)
  {
  }

  /** A plain field of an object is a leaf. */
  lemma PlainHas(m: Object, path: seq<string>, v: Json)
    requires path != [] && path[0] in m ==> !m[path[0]].Obj?
    ensures Has(IfAny(m), path, v) <==> |path| == 1 && Get(m, path[0]) == Some(v)
  {
    ObjectHas(m, path, v);
    if path != [] {
      FieldHas(Get(m, path[0]), path[1..], v);
    }
  }

  /** One of three values, by name, and else another. */
  function Pick(x: string, j: string, u: Option<Json>, k: string, v: Option<Json>, l: string, w: Option<Json>, other: Option<Json>): Option<Json>
  {
    if x == j then u else if x == k then v else if x == l then w else other
  }

  lemma ThreePut(m: Object, j: string, u: Option<Json>, k: string, v: Option<Json>, l: string, w: Option<Json>, x: string)
    requires j != k && k != l && j != l && j !in m && k !in m && l !in m
    ensures Get(Put(Put(Put(m, j, u), k, v), l, w), x) == Pick(x, j, u, k, v, l, w, Get(m, x))
  {
  }

  // ----- section by section

  function SwitchField(s: Switch, x: string): Option<Json>
  {
    var a := Pick(x, "initial_state", OfString(s.initialState), "auto_on", OfBool(s.autoOn), "auto_on_delay", OfInt(s.autoOnDelay), None);
    var b := Pick(x, "auto_off", OfBool(s.autoOff), "auto_off_delay", OfInt(s.autoOffDelay), "power_limit", OfInt(s.powerLimit), a);
    Pick(x, "voltage_limit", OfInt(s.voltageLimit), "current_limit", OfInt(s.currentLimit),
         "autorecover_voltage_errors", OfBool(s.autorecoverVoltageErrors), b)
  }

  lemma SwitchFields(s: Switch, x: string)
    ensures var r := RenderSwitch(Some(s)); r == IfAny(FieldsOf(OrNull(r))) && Get(FieldsOf(OrNull(r)), x) == SwitchField(s, x)
  {
    var a := Put(Put(Put(map[], "initial_state", OfString(s.initialState)), "auto_on", OfBool(s.autoOn)), "auto_on_delay", OfInt(s.autoOnDelay));
    var b := Put(Put(Put(a, "auto_off", OfBool(s.autoOff)), "auto_off_delay", OfInt(s.autoOffDelay)), "power_limit", OfInt(s.powerLimit));
    ThreePut(map[], "initial_state", OfString(s.initialState), "auto_on", OfBool(s.autoOn), "auto_on_delay", OfInt(s.autoOnDelay), x);
    ThreePut(a, "auto_off", OfBool(s.autoOff), "auto_off_delay", OfInt(s.autoOffDelay), "power_limit", OfInt(s.powerLimit), x);
    ThreePut(b, "voltage_limit", OfInt(s.voltageLimit), "current_limit", OfInt(s.currentLimit),
             "autorecover_voltage_errors", OfBool(s.autorecoverVoltageErrors), x);
  }

  lemma SwitchFieldSays(sw: Switch, path: seq<string>, v: Json)
    ensures |path| == 1 && SwitchField(sw, path[0]) == Some(v) <==> SwitchSays(sw, path, v)
    ensures |path| >= 1 && SwitchField(sw, path[0]).Some? ==> !SwitchField(sw, path[0]).value.Obj?
  {
  }

  lemma SwitchLeaves(sw: Switch, path: seq<string>, v: Json)
    ensures Has(RenderSwitch(Some(sw)), path, v) <==> SwitchSays(sw, path, v)
  {
    SwitchFields(sw, if path == [] then "" else path[0]);
    SwitchFieldSays(sw, path, v);
    PlainHas(FieldsOf(OrNull(RenderSwitch(Some(sw)))), path, v);
  }

  lemma MqttLeaves(mqtt: Mqtt, path: seq<string>, v: Json)
    ensures Has(RenderMqtt(Some(mqtt)), path, v) <==> MqttSays(mqtt, path, v)
  {
    PlainHas(Put(Put(map[], "enable", OfBool(mqtt.enable)), "server", OfText(mqtt.server)), path, v);
  }

  lemma ToggleLeaves(t: Toggle, path: seq<string>, v: Json)
    ensures Has(RenderToggle(Some(t)), path, v) <==> ToggleSays(t, path, v)
  {
    PlainHas(Put(map[], "enable", OfBool(t.enable)), path, v);
  }

  lemma NetworkLeaves(n: Option<WifiNetwork>, net: string, path: seq<string>, v: Json)
    requires path != [] && path[0] == net
    ensures Has(RenderWifiNetwork(n), path[1..], v) <==> NetworkSays(n, net, path, v)
  {
    if n.Some? {
      PlainHas(Put(Put(map[], "enable", OfBool(n.value.enable)), "ssid", OfText(n.value.ssid)), path[1..], v);
    }
  }

  lemma ApLeaves(ap: Option<WifiAP>, path: seq<string>, v: Json)
    requires path != [] && path[0] == "ap"
    ensures Has(RenderWifiAP(ap), path[1..], v) <==> ApSays(ap, path, v)
  {
    if ap.Some? {
      var extender := Put(map[], "enable", OfBool(ap.value.rangeExtender));
      ObjectHas(Put(Put(map[], "enable", OfBool(ap.value.enable)), "range_extender", IfAny(extender)), path[1..], v);
      if |path| > 1 {
        FieldHas(OfBool(ap.value.enable), path[1..][1..], v);
        PlainHas(extender, path[1..][1..], v);
      }
    }
  }

  lemma RoamLeaves(roam: Option<WifiRoam>, path: seq<string>, v: Json)
    requires path != [] && path[0] == "roam"
    ensures Has(RenderWifiRoam(roam), path[1..], v) <==> RoamSays(roam, path, v)
  {
    if roam.Some? {
      PlainHas(Put(Put(map[], "rssi_thr", OfInt(roam.value.rssiThreshold)), "interval", OfInt(roam.value.interval)), path[1..], v);
    }
  }

  lemma WifiLeaves(w: Wifi, path: seq<string>, v: Json)
    ensures Has(RenderWifi(Some(w)), path, v) <==> WifiSays(w, path, v)
  {
    var m := Put(Put(Put(map[], "sta", RenderWifiNetwork(w.sta)), "sta1", RenderWifiNetwork(w.sta1)), "ap", RenderWifiAP(w.ap));
    ObjectHas(Put(m, "roam", RenderWifiRoam(w.roam)), path, v);
    if path != [] {
      ThreePut(map[], "sta", RenderWifiNetwork(w.sta), "sta1", RenderWifiNetwork(w.sta1), "ap", RenderWifiAP(w.ap), path[0]);
      if path[0] == "sta" {
        NetworkLeaves(w.sta, "sta", path, v);
      } else if path[0] == "sta1" {
        NetworkLeaves(w.sta1, "sta1", path, v);
      } else if path[0] == "ap" {
        ApLeaves(w.ap, path, v);
      } else if path[0] == "roam" {
        RoamLeaves(w.roam, path, v);
      }
    }
  }

  lemma NightLeaves(nm: Option<NightMode>, path: seq<string>, v: Json)
    requires |path| > 1 && path[0] == "leds" && path[1] == "night_mode"
    ensures Has(RenderNightMode(nm), path[2..], v) <==> NightSays(nm, path, v)
  {
    if nm.Some? {
      var between := nm.value.activeBetween;
      var window: Option<Json> := if between == [] then None else Some(Arr(seq(|between|, i requires 0 <= i < |between| => Str(between[i]))));
      TimesSay(between, window, v);
      if |path| > 2 {
        ThreePut(map[], "enable", OfBool(nm.value.enable), "brightness", OfInt(nm.value.brightness), "active_between", window, path[2]);
      }
      PlainHas(Put(Put(Put(map[], "enable", OfBool(nm.value.enable)), "brightness", OfInt(nm.value.brightness)), "active_between", window), path[2..], v);
    }
  }

  lemma TimesSay(between: seq<string>, window: Option<Json>, v: Json)
    requires window == if between == [] then None else Some(Arr(seq(|between|, i requires 0 <= i < |between| => Str(between[i]))))
    ensures window == Some(v) <==> SaysTimes(between, v)
  {
    if SaysTimes(between, v) {
      assert window.value.items == v.items;
    }
  }

  lemma LedsLeaves(ui: UI, path: seq<string>, v: Json)
    requires path != [] && path[0] == "leds"
    ensures Has(RenderLeds(ui), path[1..], v) <==> (Under(path, "leds", "mode") && SaysText(ui.ledMode, v)) || NightSays(ui.nightMode, path, v)
  {
    ObjectHas(Put(Put(map[], "mode", OfString(ui.ledMode)), "night_mode", RenderNightMode(ui.nightMode)), path[1..], v);
    if |path| > 1 {
      assert path[1..][1..] == path[2..];
      FieldHas(OfString(ui.ledMode), path[2..], v);
      if path[1] == "night_mode" {
        NightLeaves(ui.nightMode, path, v);
      }
    }
  }

  /** A plug UI component is named by small letters and digits, one at least, and then _ui. */
  lemma UiKeyMeans(k: string)
    ensures IsUiKey(k) <==> exists stem: string :: stem != "" && k == stem + "_ui" && forall i :: 0 <= i < |stem| ==> 97 <= stem[i] as int <= 122 || 48 <= stem[i] as int <= 57
  {
    if IsUiKey(k) {
      var stem := k[..|k| - 3];
      assert k == stem + "_ui";
      assert forall i :: 0 <= i < |stem| ==> 97 <= stem[i] as int <= 122 || 48 <= stem[i] as int <= 57;
    }
    if stem: string :| stem != "" && k == stem + "_ui" && forall i :: 0 <= i < |stem| ==> 97 <= stem[i] as int <= 122 || 48 <= stem[i] as int <= 57 {
      assert k[|k| - 3..] == "_ui";
      assert forall i :: 0 <= i < |stem| ==> k[i] == stem[i];
    }
  }

  /** The controls managed are those the component has, or the one it must have. */
  lemma ManagedMeans(have: Json, k: string)
    ensures k in ManagedControls(Some(have)) <==> HasControl(have, k)
  {
    forall c ensures c in ControlKeys(Some(have)) <==> "switch:" <= c && Lookup(have, ["controls", c]).Some? {
      HasControlKey(have, c);
    }
    if c :| c in ControlKeys(Some(have)) {
      assert "switch:" <= c && Lookup(have, ["controls", c]).Some?;
    }
  }

  lemma HasControlKey(have: Json, c: string)
    ensures c in ControlKeys(Some(have)) <==> "switch:" <= c && Lookup(have, ["controls", c]).Some?
  {
    var controls := OrNull(Get(FieldsOf(have), "controls"));
    assert ["controls", c][1..] == [c];
    assert Lookup(have, ["controls", c]).Some? <==> Lookup(controls, [c]).Some?;
    assert Lookup(controls, [c]).Some? <==> c in FieldsOf(controls);
    assert IsSwitchKey(c) <==> "switch:" <= c;
  }

  lemma ControlsLeaves(ui: UI, have: Json, path: seq<string>, v: Json)
    requires path != [] && path[0] == "controls" && ui.buttonInMode.Some?
    ensures Has(IfAny(RenderControls(ui.buttonInMode.value, Some(have))), path[1..], v) <==>
              |path| == 3 && HasControl(have, path[1]) && path[2] == "in_mode" && SaysText(ui.buttonInMode, v)
  {
    var mode := ui.buttonInMode.value;
    ObjectHas(RenderControls(mode, Some(have)), path[1..], v);
    if |path| > 1 {
      ManagedMeans(have, path[1]);
      assert path[1..][1..] == path[2..];
      var entry := InMode(mode);
      assert entry.fields["in_mode"] == Str(mode) && IfAny(entry.fields) == Some(entry);
      PlainHas(entry.fields, path[2..], v);
    }
  }

  lemma UiLeaves(ui: UI, have: Json, path: seq<string>, v: Json)
    ensures Has(RenderUI(ui, Some(have)), path, v) <==> UiSays(ui, have, path, v)
  {
    var controls: Option<Json> := if ui.buttonInMode.Some? then IfAny(RenderControls(ui.buttonInMode.value, Some(have))) else None;
    ObjectHas(Put(Put(map[], "leds", RenderLeds(ui)), "controls", controls), path, v);
    if path != [] && path[0] == "leds" {
      LedsLeaves(ui, path, v);
    } else if path != [] && path[0] == "controls" && ui.buttonInMode.Some? {
      ControlsLeaves(ui, have, path, v);
    }
  }

  lemma DeviceLeaves(sys: Option<System>, managed: bool, name: string, path: seq<string>, v: Json)
    requires path != [] && path[0] == "device"
    ensures Has(RenderSysDevice(sys, managed, name), path[1..], v) <==> (sys.Some? && SysSays(sys.value, path, v)) || NameSays(managed, name, path, v)
  {
    var eco, discoverable := if sys.Some? then sys.value.ecoMode else None, if sys.Some? then sys.value.discoverable else None;
    var text := if managed then OfText(name) else None;
    if |path| > 1 {
      ThreePut(map[], "eco_mode", OfBool(eco), "discoverable", OfBool(discoverable), "name", text, path[1]);
    }
    PlainHas(Put(Put(Put(map[], "eco_mode", OfBool(eco)), "discoverable", OfBool(discoverable)), "name", text), path[1..], v);
  }

  lemma LocationLeaves(sys: System, path: seq<string>, v: Json)
    requires path != [] && path[0] == "location"
    ensures Has(RenderLocation(sys), path[1..], v) <==> SysSays(sys, path, v)
  {
    if |path| > 1 {
      ThreePut(map[], "tz", OfString(sys.timezone), "lat", OfCoordinate(sys.latitude), "lon", OfCoordinate(sys.longitude), path[1]);
    }
    PlainHas(Put(Put(Put(map[], "tz", OfString(sys.timezone)), "lat", OfCoordinate(sys.latitude)), "lon", OfCoordinate(sys.longitude)), path[1..], v);
  }

  lemma SysLeaves(sys: Option<System>, managed: bool, name: string, path: seq<string>, v: Json)
    ensures Has(RenderSys(sys, managed, name), path, v) <==> (sys.Some? && SysSays(sys.value, path, v)) || NameSays(managed, name, path, v)
  {
    var part := RenderSysDevice(sys, managed, name);
    var device := Put(map[], "device", part);
    if path != [] && path[0] == "device" {
      DeviceLeaves(sys, managed, name, path, v);
    }
    if sys.None? {
      ObjectHas(device, path, v);
    } else {
      var s := sys.value;
      var server, level := Put(map[], "server", OfString(s.sntpServer)), Put(map[], "level", OfInt(s.debugLevel));
      ObjectHas(Put(Put(Put(device, "location", RenderLocation(s)), "sntp", IfAny(server)), "debug", IfAny(level)), path, v);
      if path != [] {
        ThreePut(device, "location", RenderLocation(s), "sntp", IfAny(server), "debug", IfAny(level), path[0]);
        PlainHas(server, path[1..], v);
        PlainHas(level, path[1..], v);
        if path[0] == "location" {
          LocationLeaves(s, path, v);
        }
      }
    }
  }

  lemma StaticLeaves(cfg: ProfileConfig, name: string, s: string, path: seq<string>, v: Json)
    requires s in STATIC_SECTIONS
    ensures Has(StaticSection(cfg, name, s), path, v) <==> DeclaresStatic(cfg, name, s, path, v)
  {
    if s == "sys" {
      SysLeaves(cfg.system, cfg.nameManaged, name, path, v);
    } else if s == "wifi" {
      if cfg.wifi.Some? {
        WifiLeaves(cfg.wifi.value, path, v);
      }
    } else if s == "mqtt" {
      if cfg.mqtt.Some? {
        MqttLeaves(cfg.mqtt.value, path, v);
      }
    } else {
      var t := if s == "cloud" then cfg.cloud else if s == "ble" then cfg.ble else cfg.ws;
      if t.Some? {
        ToggleLeaves(t.value, path, v);
      }
    }
  }

  /**
   Every declared field of the profile stands in the rendered configuration, at the path and
   with the value that is its own, and nothing else does.
   */
  lemma RenderedIsDeclared(cfg: ProfileConfig, name: string, uiKey: Option<string>, actual: Config, s: string, path: seq<string>, v: Json)
    requires cfg.ui.Some? ==> IsDiscovered(uiKey, actual)
    ensures Has(Get(Render(cfg, name, uiKey, actual), s), path, v) <==> Declares(cfg, name, uiKey, actual, s, path, v)
  {
    KindsDiffer(s);
    assert IsSwitchKey(s) <==> "switch:" <= s;
    if s in STATIC_SECTIONS {
      StaticLeaves(cfg, name, s, path, v);
    } else if s in actual && IsSwitchKey(s) {
      if cfg.switch.Some? {
        SwitchLeaves(cfg.switch.value, path, v);
      }
    } else if s in actual && uiKey == Some(s) && cfg.ui.Some? {
      UiLeaves(cfg.ui.value, actual[s], path, v);
    }
  }
}
