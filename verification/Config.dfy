/** The master configuration and its validators (src/master/clm_master.c). */
module Config {
  import opened Words

  /** Compile-time limits, anywhere inside the range the source's #error checks allow. */
  type GroupLimit = n: int | 1 <= n <= 64 witness 1
  type StationLimit = n: int | 1 <= n <= 16 witness 1
  const CLM_MAX_GROUPS: GroupLimit
  const CLM_MAX_OCCUPIED_STATIONS_PER_GROUP: StationLimit

  const MAX_STATIONS_PER_GROUP := 16
  const MAX_STATIONS_ALL_GROUPS := 64
  const MIN_PROTOCOL_VER := 1
  const MAX_PROTOCOL_VER := 2
  const MIN_TIMEOUT := 1
  const MAX_TIMEOUT_CONSTANT_LINKSCAN := 2000
  const MIN_TIMEOUT_COUNT := 1
  const IPADDR_INVALID: u32 := 0

  datatype DeviceSetting = DeviceSetting(slaveId: u32, stations: u16, reserved: bool)

  /** The sequence holds the first num_slave_devices entries of the source's array. */
  datatype GroupSetting = GroupSetting(
    timeout: u16, offCount: u16, constantScan: bool, devices: seq<DeviceSetting>)

  datatype MasterConfig = MasterConfig(
    protocolVer: u16, masterId: u32, arbitrationTime: u16, maxSamples: u16, groups: seq<GroupSetting>)

  // ---------------------------------------------------------------- what a valid configuration is

  /** 0.0.0.1 to 223.255.255.254 */
  predicate IpInRange(ip: u32) {
    ip != IPADDR_INVALID && ip <= 0xDFFF_FFFE
  }

  /** Stations taken by the first k devices. */
  function Occupied(devices: seq<DeviceSetting>, k: nat): (n: nat)
    requires k <= |devices|
  {
    if k == 0 then 0 else Occupied(devices, k - 1) + devices[k - 1].stations
  }

  function Total(devices: seq<DeviceSetting>): nat {
    Occupied(devices, |devices|)
  }

  /** Stations taken by the first k groups. */
  function OccupiedByGroups(groups: seq<GroupSetting>, k: nat): nat
    requires k <= |groups|
  {
    if k == 0 then 0 else OccupiedByGroups(groups, k - 1) + Total(groups[k - 1].devices)
  }

  predicate ValidDevice(d: DeviceSetting, masterId: u32) {
    && IpInRange(d.slaveId)
    && d.slaveId != masterId
    && 1 <= d.stations <= CLM_MAX_OCCUPIED_STATIONS_PER_GROUP
  }

  predicate ValidGroup(g: GroupSetting, masterId: u32) {
    && MIN_TIMEOUT <= g.timeout
    && (g.constantScan ==> g.timeout <= MAX_TIMEOUT_CONSTANT_LINKSCAN)
    && MIN_TIMEOUT_COUNT <= g.offCount
    && 1 <= |g.devices| <= CLM_MAX_OCCUPIED_STATIONS_PER_GROUP
    && (forall i :: 0 <= i < |g.devices| ==> ValidDevice(g.devices[i], masterId))
    && Total(g.devices) <= CLM_MAX_OCCUPIED_STATIONS_PER_GROUP
  }

  predicate ValidConfig(cfg: MasterConfig) {
    && MIN_PROTOCOL_VER <= cfg.protocolVer <= MAX_PROTOCOL_VER
    && IpInRange(cfg.masterId)
    && 1 <= |cfg.groups| <= CLM_MAX_GROUPS
    && (forall g :: 0 <= g < |cfg.groups| ==> ValidGroup(cfg.groups[g], cfg.masterId))
    && OccupiedByGroups(cfg.groups, |cfg.groups|) <= MAX_STATIONS_ALL_GROUPS
  }

  /** No slave address is configured twice, in one group or across groups. */
  predicate DistinctSlaves(cfg: MasterConfig) {
    forall g, i, h, j ::
      (&& 0 <= g < |cfg.groups| && 0 <= i < |cfg.groups[g].devices|
       && 0 <= h < |cfg.groups| && 0 <= j < |cfg.groups[h].devices|
       && (g != h || i != j))
      ==> cfg.groups[g].devices[i].slaveId != cfg.groups[h].devices[j].slaveId
  }

  // ---------------------------------------------------------------- clm_validate_config

  lemma {:induction false} OccupiedBound(devices: seq<DeviceSetting>, k: nat, max: nat)
    requires k <= |devices|
    requires forall i :: 0 <= i < k ==> devices[i].stations <= max
    ensures Occupied(devices, k) <= k * max
  {
    if k > 0 {
      OccupiedBound(devices, k - 1, max);
    }
  }

  /** Accepts exactly the valid configurations: the wrapping uint16_t sums never wrap
      before one of the checks has already failed. */
  method ValidateConfig(cfg: MasterConfig) returns (ok: bool)
    ensures ok <==> ValidConfig(cfg)
  {
    if cfg.protocolVer < MIN_PROTOCOL_VER || cfg.protocolVer > MAX_PROTOCOL_VER {
      return false;
    }
    if !IpInRange(cfg.masterId) {
      return false;
    }
    if |cfg.groups| < 1 || |cfg.groups| > CLM_MAX_GROUPS {
      return false;
    }
    var totalAll: u16 := 0;
    for g := 0 to |cfg.groups|
      invariant forall h :: 0 <= h < g ==> ValidGroup(cfg.groups[h], cfg.masterId)
      invariant totalAll == OccupiedByGroups(cfg.groups, g) <= g * MAX_STATIONS_PER_GROUP
    {
      var group := cfg.groups[g];
      var total: u16;
      ok, total, totalAll := ValidateGroup(group, cfg.masterId, totalAll);
      if !ok {
        return false;
      }
    }
    return totalAll <= MAX_STATIONS_ALL_GROUPS;
  }

  /** The body of the group loop of clm_validate_config. */
  method ValidateGroup(group: GroupSetting, masterId: u32, before: u16)
    returns (ok: bool, total: u16, totalAll: u16)
    requires before <= 64 * MAX_STATIONS_PER_GROUP
    ensures ok <==> ValidGroup(group, masterId)
    ensures ok ==> total == Total(group.devices) && totalAll == before + Total(group.devices)
  {
    total, totalAll := 0, before;
    if group.timeout < MIN_TIMEOUT {
      return false, total, totalAll;
    }
    if group.constantScan && group.timeout > MAX_TIMEOUT_CONSTANT_LINKSCAN {
      return false, total, totalAll;
    }
    if group.offCount < MIN_TIMEOUT_COUNT {
      return false, total, totalAll;
    }
    if |group.devices| == 0 || |group.devices| > CLM_MAX_OCCUPIED_STATIONS_PER_GROUP {
      return false, total, totalAll;
    }
    for i := 0 to |group.devices|
      invariant forall j :: 0 <= j < i ==> ValidDevice(group.devices[j], masterId)
      invariant total == Occupied(group.devices, i) <= i * MAX_STATIONS_PER_GROUP
      invariant totalAll == before + Occupied(group.devices, i)
    {
      var device := group.devices[i];
      if !IpInRange(device.slaveId) {
        return false, total, totalAll;
      }
      if device.slaveId == masterId {
        return false, total, totalAll;
      }
      if device.stations == 0 || device.stations > CLM_MAX_OCCUPIED_STATIONS_PER_GROUP {
        return false, total, totalAll;
      }
      total := (total + device.stations) % 0x1_0000;
      totalAll := (totalAll + device.stations) % 0x1_0000;
    }
    if total > CLM_MAX_OCCUPIED_STATIONS_PER_GROUP {
      return false, total, totalAll;
    }
    return true, total, totalAll;
  }

  // ---------------------------------------------------------------- clm_validate_config_duplicates

  ghost predicate Unlike(cfg: MasterConfig, g: int, i: int, h: int, j: int)
    requires 0 <= g < |cfg.groups| && 0 <= i < |cfg.groups[g].devices|
    requires 0 <= h < |cfg.groups| && 0 <= j < |cfg.groups[h].devices|
  {
    g != h || i != j ==> cfg.groups[g].devices[i].slaveId != cfg.groups[h].devices[j].slaveId
  }

  /** Device (g, i) differs from every other device of the first `to` groups. */
  ghost predicate UnlikeGroups(cfg: MasterConfig, g: int, i: int, to: int)
    requires 0 <= g < |cfg.groups| && 0 <= i < |cfg.groups[g].devices| && to <= |cfg.groups|
  {
    forall h, j :: 0 <= h < to && 0 <= j < |cfg.groups[h].devices| ==> Unlike(cfg, g, i, h, j)
  }

  method ValidateConfigDuplicates(cfg: MasterConfig) returns (ok: bool)
    ensures ok <==> DistinctSlaves(cfg)
  {
    for g := 0 to |cfg.groups|
      invariant forall a, i :: 0 <= a < g && 0 <= i < |cfg.groups[a].devices| ==>
                  UnlikeGroups(cfg, a, i, |cfg.groups|)
    {
      for i := 0 to |cfg.groups[g].devices|
        invariant forall b :: 0 <= b < i ==> UnlikeGroups(cfg, g, b, |cfg.groups|)
      {
        for h := 0 to |cfg.groups|
          invariant UnlikeGroups(cfg, g, i, h)
        {
          for j := 0 to |cfg.groups[h].devices|
            invariant forall b :: 0 <= b < j ==> Unlike(cfg, g, i, h, b)
          {
            if h == g && j == i {
              continue;
            }
            if cfg.groups[g].devices[i].slaveId == cfg.groups[h].devices[j].slaveId {
              return false;
            }
          }
        }
      }
    }
    assert DistinctSlaves(cfg) by {
      forall g, i, h, j | 0 <= g < |cfg.groups| && 0 <= i < |cfg.groups[g].devices|
        && 0 <= h < |cfg.groups| && 0 <= j < |cfg.groups[h].devices| && (g != h || i != j)
        ensures cfg.groups[g].devices[i].slaveId != cfg.groups[h].devices[j].slaveId
      {
        assert UnlikeGroups(cfg, g, i, |cfg.groups|);
        assert Unlike(cfg, g, i, h, j);
      }
    }
    return true;
  }
}
