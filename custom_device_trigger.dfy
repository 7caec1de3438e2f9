/**
 * Device automations of the current integration: the list of triggers a
 * device offers, built by nested loops over the event types and subtypes of
 * its kind, and the event filter a chosen trigger is attached with.
 */
module CustomDeviceTrigger {
  import opened Wrappers
  import CustomEntity

  const PLATFORM_DEVICE: string := "device"
  const PLATFORM_EVENT: string := "event"
  const EVENT_BOSCH_SHC: string := "bosch_shc.event"

  /** The button presses a two-button remote or switch reports as triggers. */
  const PRESS_TYPES: set<string> := {"PRESS_SHORT", "PRESS_LONG", "PRESS_LONG_RELEASED"}

  /**
   * The integration's event constants, each in the order its set is
   * iterated: the supported event types and the subtypes per device model.
   */
  datatype EventConstants = EventConstants(
    supportedTypes: seq<string>,
    wrc2Subtypes: seq<string>,
    switch2Subtypes: seq<string>,
    sdSubtypes: seq<string>,
    sdsSubtypes: seq<string>)

  /** A device found in the device registry, with the model it was found as. */
  datatype FoundDevice = FoundDevice(deviceType: string, scenarioNames: seq<string>)

  /** One trigger record, as Home Assistant lists it. */
  datatype Trigger = Trigger(platform: string, deviceId: string, domain: string, triggerType: string, subtype: string)

  datatype TriggerError = DeviceNotFound(deviceId: string) | UnsupportedType(triggerType: string)

  /** What a trigger record of this device always carries. */
  predicate Carries(t: Trigger, deviceId: string) {
    t.platform == PLATFORM_DEVICE && t.deviceId == deviceId && t.domain == CustomEntity.DOMAIN
  }

  function MakeTrigger(deviceId: string, triggerType: string, subtype: string): (t: Trigger)
    ensures Carries(t, deviceId) && t.triggerType == triggerType && t.subtype == subtype
  {
    Trigger(PLATFORM_DEVICE, deviceId, CustomEntity.DOMAIN, triggerType, subtype)
  }

  /** One (type, subtype) pair per subtype, in order. */
  function Pairs(triggerType: string, subtypes: seq<string>): (ps: seq<(string, string)>)
    ensures |ps| == |subtypes|
    ensures forall k :: 0 <= k < |ps| ==> ps[k] == (triggerType, subtypes[k])
  {
    seq(|subtypes|, k requires 0 <= k < |subtypes| => (triggerType, subtypes[k]))
  }

  /** The input pairs of the remote and switch: press types crossed with the subtypes, type by type. */
  function InputPairs(types: seq<string>, subtypes: seq<string>): seq<(string, string)>
  {
    if |types| == 0 then []
    else InputPairs(types[..|types| - 1], subtypes)
         + (if types[|types| - 1] in PRESS_TYPES then Pairs(types[|types| - 1], subtypes) else [])
  }

  /** The trigger records for a list of pairs. */
  function ToTriggers(deviceId: string, pairs: seq<(string, string)>): (ts: seq<Trigger>)
    ensures |ts| == |pairs|
    ensures forall k :: 0 <= k < |ts| ==> ts[k] == MakeTrigger(deviceId, pairs[k].0, pairs[k].1)
  {
    seq(|pairs|, k requires 0 <= k < |pairs| => MakeTrigger(deviceId, pairs[k].0, pairs[k].1))
  }

  /** The triggers a found device offers, by the model it was found as. */
  function Triggers(device: FoundDevice, deviceId: string, c: EventConstants): seq<Trigger> {
    var dt := device.deviceType;
    if dt == "WRC2" then ToTriggers(deviceId, InputPairs(c.supportedTypes, c.wrc2Subtypes))
    else if dt == "SWITCH2" then ToTriggers(deviceId, InputPairs(c.supportedTypes, c.switch2Subtypes))
    else if dt == "MD" then [MakeTrigger(deviceId, "MOTION", "")]
    else if dt == "SD" then ToTriggers(deviceId, Pairs("ALARM", c.sdSubtypes))
    else if dt == "SMOKE_DETECTION_SYSTEM" then ToTriggers(deviceId, Pairs("ALARM", c.sdsSubtypes))
    else if dt == "SHC" then ToTriggers(deviceId, Pairs("SCENARIO", device.scenarioNames))
    else []
  }

  /** An input pair is exactly a supported press type with one of the subtypes. */
  lemma {:induction false} InputPairsMembers(types: seq<string>, subtypes: seq<string>, p: (string, string))
    ensures p in InputPairs(types, subtypes) <==> p.0 in types && p.0 in PRESS_TYPES && p.1 in subtypes
  {
    if |types| > 0 {
      var init, last := types[..|types| - 1], types[|types| - 1];
      assert types == init + [last];
      InputPairsMembers(init, subtypes, p);
      if p.0 == last && last in PRESS_TYPES && p.1 in subtypes {
        var k :| 0 <= k < |subtypes| && subtypes[k] == p.1;
        assert Pairs(last, subtypes)[k] == p;
      }
    }
  }

  /** The press types among the supported types. */
  function PressTypesIn(types: seq<string>): (press: set<string>)
    ensures forall t :: t in press <==> t in types && t in PRESS_TYPES
  {
    if |types| == 0 then {}
    else
      var init := types[..|types| - 1];
      assert types == init + [types[|types| - 1]];
      PressTypesIn(init) + (if types[|types| - 1] in PRESS_TYPES then {types[|types| - 1]} else {})
  }

  /** The list names each value once, as a set iterated in some order does. */
  predicate NoRepeats(s: seq<string>) {
    forall i, j :: 0 <= i < j < |s| ==> s[i] != s[j]
  }

  /** Dropping the last element of a list without repeats leaves one without repeats, and without that element. */
  lemma DistinctInit(types: seq<string>)
    requires |types| > 0
    requires NoRepeats(types)
    ensures NoRepeats(types[..|types| - 1])
    ensures types[|types| - 1] !in types[..|types| - 1]
  {
  }

  lemma MulSucc(a: int, n: int)
    ensures (a + 1) * n == a * n + n
  {
  }

  /** The last supported type adds one press type when it is one and was not already listed. */
  lemma PressTypesStep(types: seq<string>)
    requires |types| > 0
    requires types[|types| - 1] !in types[..|types| - 1]
    ensures |PressTypesIn(types)| ==
      |PressTypesIn(types[..|types| - 1])| + (if types[|types| - 1] in PRESS_TYPES then 1 else 0)
  {
    var init, last := types[..|types| - 1], types[|types| - 1];
    assert last !in PressTypesIn(init);
  }

  /** The last supported type adds one pair per subtype when it is a press type, none otherwise. */
  lemma InputPairsStep(types: seq<string>, subtypes: seq<string>)
    requires |types| > 0
    ensures |InputPairs(types, subtypes)| ==
      |InputPairs(types[..|types| - 1], subtypes)| + (if types[|types| - 1] in PRESS_TYPES then |subtypes| else 0)
  {
  }

  /** With each supported type listed once, every press type among them contributes one pair per subtype. */
  lemma {:induction false} InputPairsCount(types: seq<string>, subtypes: seq<string>)
    requires NoRepeats(types)
    ensures |InputPairs(types, subtypes)| == |PressTypesIn(types)| * |subtypes|
  {
    if |types| > 0 {
      var init := types[..|types| - 1];
      DistinctInit(types);
      InputPairsCount(init, subtypes);
      PressTypesStep(types);
      InputPairsStep(types, subtypes);
      MulSucc(|PressTypesIn(init)|, |subtypes|);
    }
  }

  /** A listed trigger is of a known device, and carries the device id, the platform and the domain. */
  lemma TriggersCarry(device: FoundDevice, deviceId: string, c: EventConstants, t: Trigger)
    requires t in Triggers(device, deviceId, c)
    ensures Carries(t, deviceId)
    ensures device.deviceType in {"WRC2", "SWITCH2", "MD", "SD", "SMOKE_DETECTION_SYSTEM", "SHC"}
  {
  }

  /**
   * A remote's or switch's triggers are all the pairs of a supported press
   * type and one of the model's subtypes, and nothing else.
   */
  lemma InputTriggersExactly(device: FoundDevice, deviceId: string, c: EventConstants, t: Trigger)
    requires device.deviceType == "WRC2" || device.deviceType == "SWITCH2"
    ensures var subtypes := if device.deviceType == "WRC2" then c.wrc2Subtypes else c.switch2Subtypes;
            t in Triggers(device, deviceId, c) <==>
              Carries(t, deviceId) && t.triggerType in c.supportedTypes && t.triggerType in PRESS_TYPES
              && t.subtype in subtypes
  {
    var subtypes := if device.deviceType == "WRC2" then c.wrc2Subtypes else c.switch2Subtypes;
    var pairs := InputPairs(c.supportedTypes, subtypes);
    InputPairsMembers(c.supportedTypes, subtypes, (t.triggerType, t.subtype));
    if t in Triggers(device, deviceId, c) {
      var k :| 0 <= k < |pairs| && ToTriggers(deviceId, pairs)[k] == t;
      assert pairs[k] == (t.triggerType, t.subtype);
    }
    if Carries(t, deviceId) && (t.triggerType, t.subtype) in pairs {
      var k :| 0 <= k < |pairs| && pairs[k] == (t.triggerType, t.subtype);
      assert ToTriggers(deviceId, pairs)[k] == t;
    }
  }

  /** A smoke detector, a smoke detection system or the controller offers one trigger per subtype, in order. */
  lemma OneTriggerPerSubtype(device: FoundDevice, deviceId: string, c: EventConstants)
    ensures device.deviceType == "SD" ==>
      |Triggers(device, deviceId, c)| == |c.sdSubtypes|
      && forall k :: 0 <= k < |c.sdSubtypes| ==> Triggers(device, deviceId, c)[k] == MakeTrigger(deviceId, "ALARM", c.sdSubtypes[k])
    ensures device.deviceType == "SMOKE_DETECTION_SYSTEM" ==>
      |Triggers(device, deviceId, c)| == |c.sdsSubtypes|
      && forall k :: 0 <= k < |c.sdsSubtypes| ==> Triggers(device, deviceId, c)[k] == MakeTrigger(deviceId, "ALARM", c.sdsSubtypes[k])
    ensures device.deviceType == "SHC" ==>
      |Triggers(device, deviceId, c)| == |device.scenarioNames|
      && forall k :: 0 <= k < |device.scenarioNames| ==> Triggers(device, deviceId, c)[k] == MakeTrigger(deviceId, "SCENARIO", device.scenarioNames[k])
    ensures device.deviceType == "MD" ==> Triggers(device, deviceId, c) == [MakeTrigger(deviceId, "MOTION", "")]
  {
  }

  /**
   * `async_get_triggers`: collects the input pairs by nested loops, then one
   * record per pair; a motion detector gets one record, the alarm and
   * scenario kinds one per subtype. An unknown device is an error.
   */
  method GetTriggers(found: Option<FoundDevice>, deviceId: string, c: EventConstants)
      returns (r: Result<seq<Trigger>, TriggerError>)
    ensures found.None? ==> r == Failure(DeviceNotFound(deviceId))
    ensures found.Some? ==> r == Success(Triggers(found.value, deviceId, c))
  {
    if found.None? {
      return Failure(DeviceNotFound(deviceId));
    }
    var device := found.value;
    var devType := device.deviceType;
    var triggers: seq<Trigger> := [];
    if devType == "WRC2" || devType == "SWITCH2" {
      var subtypes := if devType == "WRC2" then c.wrc2Subtypes else c.switch2Subtypes;
      var inputTriggers: seq<(string, string)> := [];
      var i := 0;
      while i < |c.supportedTypes|
        invariant 0 <= i <= |c.supportedTypes|
        invariant inputTriggers == InputPairs(c.supportedTypes[..i], subtypes)
      {
        var trigger := c.supportedTypes[i];
        assert c.supportedTypes[..i + 1][..i] == c.supportedTypes[..i];
        if trigger in PRESS_TYPES {
          var j := 0;
          while j < |subtypes|
            invariant 0 <= j <= |subtypes|
            invariant inputTriggers == InputPairs(c.supportedTypes[..i], subtypes) + Pairs(trigger, subtypes[..j])
          {
            assert Pairs(trigger, subtypes[..j + 1]) == Pairs(trigger, subtypes[..j]) + [(trigger, subtypes[j])];
            inputTriggers := inputTriggers + [(trigger, subtypes[j])];
            j := j + 1;
          }
          assert subtypes[..j] == subtypes;
        }
        i := i + 1;
      }
      assert c.supportedTypes[..i] == c.supportedTypes;
      triggers := AppendTriggers(triggers, deviceId, inputTriggers);
    }
    if devType == "MD" {
      triggers := triggers + [MakeTrigger(deviceId, "MOTION", "")];
    }
    if devType == "SD" {
      triggers := AppendTriggers(triggers, deviceId, Pairs("ALARM", c.sdSubtypes));
    }
    if devType == "SMOKE_DETECTION_SYSTEM" {
      triggers := AppendTriggers(triggers, deviceId, Pairs("ALARM", c.sdsSubtypes));
    }
    if devType == "SHC" {
      triggers := AppendTriggers(triggers, deviceId, Pairs("SCENARIO", device.scenarioNames));
    }
    assert devType == "WRC2" || devType == "SWITCH2" ==> triggers == Triggers(device, deviceId, c);
    assert devType == "MD" ==> triggers == Triggers(device, deviceId, c);
    assert devType == "SD" ==> triggers == Triggers(device, deviceId, c);
    assert devType == "SHC" ==> triggers == Triggers(device, deviceId, c);
    assert devType == "SMOKE_DETECTION_SYSTEM" ==> triggers == Triggers(device, deviceId, c);
    assert devType !in {"WRC2", "SWITCH2", "MD", "SD", "SMOKE_DETECTION_SYSTEM", "SHC"} ==> triggers == Triggers(device, deviceId, c);
    return Success(triggers);
  }

  /** Appends one trigger record per pair, in order. */
  method AppendTriggers(triggers: seq<Trigger>, deviceId: string, pairs: seq<(string, string)>)
      returns (result: seq<Trigger>)
    ensures result == triggers + ToTriggers(deviceId, pairs)
  {
    result := triggers;
    var k := 0;
    while k < |pairs|
      invariant 0 <= k <= |pairs|
      invariant result == triggers + ToTriggers(deviceId, pairs[..k])
    {
      assert ToTriggers(deviceId, pairs[..k + 1]) == ToTriggers(deviceId, pairs[..k]) + [MakeTrigger(deviceId, pairs[k].0, pairs[k].1)];
      result := result + [MakeTrigger(deviceId, pairs[k].0, pairs[k].1)];
      k := k + 1;
    }
    assert pairs[..k] == pairs;
  }

  /** An automation's trigger configuration. */
  datatype TriggerConfig = TriggerConfig(deviceId: string, triggerType: string, subtype: string)

  /** The event trigger it is attached as: fire on integration events whose data matches. */
  datatype EventTriggerConfig = EventTriggerConfig(
    platform: string, eventType: string, dataDeviceId: string, dataEventType: string, dataEventSubtype: string)

  /**
   * Validates the type against the supported event types, then listens for
   * the integration's events whose data carry exactly the configured device
   * id, type and subtype.
   */
  function EventFilter(config: TriggerConfig, c: EventConstants): (r: Result<EventTriggerConfig, TriggerError>)
    ensures r.Failure? <==> config.triggerType !in c.supportedTypes
    ensures r.Failure? ==> r.error == UnsupportedType(config.triggerType)
    ensures r.Success? ==>
      r.value.platform == PLATFORM_EVENT && r.value.eventType == EVENT_BOSCH_SHC
      && r.value.dataDeviceId == config.deviceId && r.value.dataEventType == config.triggerType
      && r.value.dataEventSubtype == config.subtype
  {
    if config.triggerType !in c.supportedTypes then Failure(UnsupportedType(config.triggerType))
    else Success(EventTriggerConfig(PLATFORM_EVENT, EVENT_BOSCH_SHC, config.deviceId, config.triggerType, config.subtype))
  }

  /** Every trigger listed for a remote or a switch can be attached, and listens for its own device and buttons. */
  lemma InputTriggersAttach(device: FoundDevice, deviceId: string, c: EventConstants, t: Trigger)
    requires device.deviceType == "WRC2" || device.deviceType == "SWITCH2"
    requires t in Triggers(device, deviceId, c)
    ensures var r := EventFilter(TriggerConfig(t.deviceId, t.triggerType, t.subtype), c);
            r.Success? && r.value.dataDeviceId == deviceId && r.value.dataEventType in PRESS_TYPES
  {
    InputTriggersExactly(device, deviceId, c, t);
  }
}
