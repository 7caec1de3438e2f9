/**
 * The base entity of the current integration and the migration of its
 * registry entries from the serial-based unique ids of earlier versions to
 * ids built from the controller's root device id and the device id.
 */
module CustomEntity {
  import opened Wrappers

  const DOMAIN: string := "bosch_shc"
  const AVAILABLE: string := "AVAILABLE"

  /** One letter of `str.lower()`: ASCII capitals become small letters, every other character stays. */
  function LowerChar(c: char): (l: char)
    ensures 'A' <= c <= 'Z' ==> l as int == c as int + 32
    ensures !('A' <= c <= 'Z') ==> l == c
    ensures !('A' <= l <= 'Z')
  {
    if 'A' <= c <= 'Z' then (c as int + 32) as char else c
  }

  function Lower(s: string): (l: string)
    ensures |l| == |s|
    ensures forall i :: 0 <= i < |s| ==> l[i] == LowerChar(s[i])
  {
    if |s| == 0 then [] else [LowerChar(s[0])] + Lower(s[1..])
  }

  /** Lower-casing twice is lower-casing once. */
  lemma LowerIdempotent(s: string)
    ensures Lower(Lower(s)) == Lower(s)
  {
    assert forall i :: 0 <= i < |s| ==> Lower(Lower(s))[i] == Lower(s)[i];
  }

  /** `serial`, or `serial_attr` with the attribute name lower-cased. */
  function OldUniqueId(serial: string, attrName: Option<string>): (id: string)
    ensures |id| >= |serial| && id[..|serial|] == serial
    ensures attrName.None? ==> |id| == |serial|
    ensures attrName.Some? ==> id[|serial|..] == "_" + Lower(attrName.value)
  {
    if attrName.None? then serial else serial + "_" + Lower(attrName.value)
  }

  /** `root_device_id_id`, or with `_attr` lower-cased after it. */
  function NewUniqueId(rootDeviceId: string, deviceId: string, attrName: Option<string>): (id: string)
    ensures |id| >= |rootDeviceId| + 1 + |deviceId|
    ensures id[..|rootDeviceId| + 1 + |deviceId|] == rootDeviceId + "_" + deviceId
    ensures attrName.None? ==> |id| == |rootDeviceId| + 1 + |deviceId|
    ensures attrName.Some? ==> id[|rootDeviceId| + 1 + |deviceId|..] == "_" + Lower(attrName.value)
  {
    var base := rootDeviceId + "_" + deviceId;
    if attrName.None? then base else base + "_" + Lower(attrName.value)
  }

  /** Where the registry files an entity: its platform, its integration domain and its unique id. */
  datatype RegistryKey = RegistryKey(platform: string, domain: string, uniqueId: string)

  /** How a migration ended. */
  datatype Migration = NotRegistered | Migrated(entityId: string) | SkippedExisting(entityId: string)

  /** The entity registry: which entity id is filed under which key. */
  class EntityRegistry {
    var entities: map<RegistryKey, string>

    constructor (entities: map<RegistryKey, string>)
      ensures this.entities == entities
    {
      this.entities := entities;
    }

    function EntityId(key: RegistryKey): (entityId: Option<string>)
      reads this
      ensures entityId.Some? <==> key in entities
      ensures entityId.Some? ==> entities[key] == entityId.value
    {
      if key in entities then Some(entities[key]) else None
    }

    /**
     * Re-files the entity under `key` with a new unique id. A unique id held
     * by another entity is refused (the registry raises) and nothing changes.
     */
    method UpdateUniqueId(key: RegistryKey, newUniqueId: string) returns (refused: bool)
      requires key in entities
      modifies this
      ensures var newKey := key.(uniqueId := newUniqueId);
              refused <==> newKey in old(entities) && old(entities)[newKey] != old(entities)[key]
      ensures refused ==> entities == old(entities)
      ensures !refused ==> entities == (old(entities) - {key})[key.(uniqueId := newUniqueId) := old(entities)[key]]
    {
      var newKey := key.(uniqueId := newUniqueId);
      if newKey in entities && entities[newKey] != entities[key] {
        return true;
      }
      entities := (entities - {key})[newKey := entities[key]];
      return false;
    }
  }

  /** The fields of a Bosch device the ids are built from. */
  datatype DeviceIds = DeviceIds(serial: string, rootDeviceId: string, id: string)

  /**
   * Moves the entity filed under the old id (given, or built from the serial)
   * to the new id. Nothing happens when no entity is filed under the old id;
   * when the new id is taken, the migration is skipped and only logged.
   */
  method MigrateToNewUniqueId(registry: EntityRegistry, platform: string, device: DeviceIds,
                              attrName: Option<string>, oldUniqueId: Option<string>)
      returns (outcome: Migration)
    modifies registry
    ensures var oldId := if oldUniqueId.Some? then oldUniqueId.value else OldUniqueId(device.serial, attrName);
            var oldKey := RegistryKey(platform, DOMAIN, oldId);
            var newKey := RegistryKey(platform, DOMAIN, NewUniqueId(device.rootDeviceId, device.id, attrName));
            && (oldKey !in old(registry.entities) ==> outcome == NotRegistered && registry.entities == old(registry.entities))
            && (oldKey in old(registry.entities) ==>
                  var entityId := old(registry.entities)[oldKey];
                  if newKey in old(registry.entities) && old(registry.entities)[newKey] != entityId then
                    outcome == SkippedExisting(entityId) && registry.entities == old(registry.entities)
                  else
                    outcome == Migrated(entityId)
                    && registry.entities == (old(registry.entities) - {oldKey})[newKey := entityId]
                    && registry.EntityId(newKey) == Some(entityId))
  {
    var oldId := if oldUniqueId.Some? then oldUniqueId.value else OldUniqueId(device.serial, attrName);
    var oldKey := RegistryKey(platform, DOMAIN, oldId);
    var entityId := registry.EntityId(oldKey);
    if entityId.Some? {
      var newUniqueId := NewUniqueId(device.rootDeviceId, device.id, attrName);
      var refused := registry.UpdateUniqueId(oldKey, newUniqueId);
      if refused {
        outcome := SkippedExisting(entityId.value);
      } else {
        outcome := Migrated(entityId.value);
      }
    } else {
      outcome := NotRegistered;
    }
  }

  /** A Bosch device as the base entity sees it. */
  class Device {
    const rootDeviceId: string
    const id: string
    var status: string

    constructor (rootDeviceId: string, id: string, status: string)
      ensures this.rootDeviceId == rootDeviceId && this.id == id && this.status == status
    {
      this.rootDeviceId := rootDeviceId;
      this.id := id;
      this.status := status;
    }
  }

  class ShcEntity {
    const device: Device

    constructor (device: Device)
      ensures this.device == device
    {
      this.device := device;
    }

    /** The base entity claims the id a migration without attribute name moves its old entry to. */
    function UniqueId(): (id: string)
      ensures id == NewUniqueId(device.rootDeviceId, device.id, None)
      ensures |id| == |device.rootDeviceId| + 1 + |device.id|
      ensures id[..|device.rootDeviceId|] == device.rootDeviceId && id[|device.rootDeviceId|] == '_'
      ensures id[|device.rootDeviceId| + 1..] == device.id
    {
      device.rootDeviceId + "_" + device.id
    }

    function Available(): (available: bool)
      reads device
      ensures available <==> device.status == AVAILABLE
    {
      device.status == AVAILABLE
    }
  }

  /** `f"{root_device_id}_{id}_battery"`: the id the battery binary sensor claims. */
  function BatterySensorUniqueId(rootDeviceId: string, deviceId: string): (id: string)
    ensures |id| == |rootDeviceId| + 1 + |deviceId| + 8
    ensures id[..|rootDeviceId| + 1 + |deviceId|] == rootDeviceId + "_" + deviceId
  {
    rootDeviceId + "_" + deviceId + "_battery"
  }

  /** The battery sensors migrate with the attribute name "Battery" onto exactly the id they then claim. */
  lemma BatteryMigrationTarget(rootDeviceId: string, deviceId: string)
    ensures NewUniqueId(rootDeviceId, deviceId, Some("Battery")) == BatterySensorUniqueId(rootDeviceId, deviceId)
  {
    assert Lower("Battery") == "battery" by {
      assert Lower("Battery")[0] == 'b';
    }
  }
}
