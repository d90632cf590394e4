/** Where the slaves of a group sit in a frame: station numbers, the list of slave IDs,
    and the search a slave makes in it. */
module Layout {
  import opened Words
  import opened Config

  /** Filler at the second and later stations of a slave, 255.255.255.255. */
  const MULTISTATION: u32 := 0xFFFF_FFFF

  // ---------------------------------------------------------------- station numbers

  /** Index of the first station of device i; its station number is one more. */
  function Start(devices: seq<DeviceSetting>, i: nat): nat
    requires i < |devices|
  {
    Occupied(devices, i)
  }

  function End(devices: seq<DeviceSetting>, i: nat): nat
    requires i < |devices|
  {
    Occupied(devices, i + 1)
  }

  predicate Positive(devices: seq<DeviceSetting>) {
    forall i :: 0 <= i < |devices| ==> devices[i].stations >= 1
  }

  lemma {:induction false} OccupiedMonotone(devices: seq<DeviceSetting>, i: nat, j: nat)
    requires i <= j <= |devices|
    ensures Occupied(devices, i) <= Occupied(devices, j)
  {
    if i < j {
      OccupiedMonotone(devices, i, j - 1);
    }
  }

  lemma {:induction false} OccupiedOfPrefix(devices: seq<DeviceSetting>, k: nat, i: nat)
    requires i <= k <= |devices|
    ensures Occupied(devices[..k], i) == Occupied(devices, i)
  {
    if i > 0 {
      OccupiedOfPrefix(devices, k, i - 1);
    }
  }

  predicate Owns(devices: seq<DeviceSetting>, i: nat, s: nat) {
    i < |devices| && Start(devices, i) <= s < End(devices, i)
  }

  /** The station ranges of the devices partition [0, total): every station has exactly
      one owner, and no range reaches outside. */
  lemma RangesPartition(devices: seq<DeviceSetting>, s: nat)
    ensures s < Total(devices) <==> exists i: nat :: Owns(devices, i, s)
    ensures forall i: nat, j: nat :: Owns(devices, i, s) && Owns(devices, j, s) ==> i == j
  {
    if s < Total(devices) {
      var i := OwnerOf(devices, |devices|, s);
      assert Owns(devices, i, s);
    }
    forall i: nat | Owns(devices, i, s) ensures s < Total(devices) {
      OccupiedMonotone(devices, i + 1, |devices|);
    }
    forall i: nat, j: nat | Owns(devices, i, s) && Owns(devices, j, s) ensures i == j {
      if i < j {
        OccupiedMonotone(devices, i + 1, j);
      } else if j < i {
        OccupiedMonotone(devices, j + 1, i);
      }
    }
  }

  lemma {:induction false} OwnerOf(devices: seq<DeviceSetting>, k: nat, s: nat) returns (i: nat)
    requires k <= |devices| && s < Occupied(devices, k)
    ensures i < k && Owns(devices, i, s)
  {
    if s >= Occupied(devices, k - 1) {
      i := k - 1;
    } else {
      i := OwnerOf(devices, k - 1, s);
    }
  }

  /** Ranges of different devices do not meet. */
  lemma RangesApart(devices: seq<DeviceSetting>, i: nat, j: nat)
    requires i < |devices| && j < |devices| && i != j
    ensures End(devices, i) <= Start(devices, j) || End(devices, j) <= Start(devices, i)
    ensures End(devices, i) <= Total(devices)
  {
    OccupiedMonotone(devices, i + 1, |devices|);
    if i < j {
      OccupiedMonotone(devices, i + 1, j);
    } else {
      OccupiedMonotone(devices, j + 1, i);
    }
  }

  /** clm_iefb_calc_occupied_per_group: a uint16_t sum. */
  method CalcOccupiedPerGroup(devices: seq<DeviceSetting>) returns (total: u16)
    ensures total == Total(devices) % 0x1_0000
  {
    total := 0;
    for i := 0 to |devices|
      invariant total == Occupied(devices, i) % 0x1_0000
    {
      total := (total + devices[i].stations) % 0x1_0000;
    }
  }

  /** clm_iefb_calc_slave_station_no */
  method CalcSlaveStationNo(devices: seq<DeviceSetting>, i: nat) returns (ok: bool, station: u16)
    ensures ok <==> i < |devices|
    ensures ok ==> station == (1 + Start(devices, i)) % 0x1_0000
  {
    station := 1;
    if i >= |devices| {
      return false, station;
    }
    for j := 0 to i
      invariant station == (1 + Occupied(devices, j)) % 0x1_0000
    {
      station := (station + devices[j].stations) % 0x1_0000;
    }
    return true, station;
  }

  /** Index of the device with an address. */
  function DeviceIndex(devices: seq<DeviceSetting>, ip: u32): (i: nat)
    ensures i <= |devices|
    ensures forall j :: 0 <= j < i ==> devices[j].slaveId != ip
    ensures i < |devices| ==> devices[i].slaveId == ip
  {
    if |devices| == 0 || devices[0].slaveId == ip then 0 else
      var i := DeviceIndex(devices[1..], ip);
      assert forall j :: 1 <= j <= i ==> devices[j] == devices[1..][j - 1];
      1 + i
  }

  /** clm_iefb_calc_slave_device_index: the first device with the address, if any. */
  method CalcSlaveDeviceIndex(devices: seq<DeviceSetting>, ip: u32) returns (ok: bool, index: nat)
    ensures ok <==> exists j :: 0 <= j < |devices| && devices[j].slaveId == ip
    ensures index == DeviceIndex(devices, ip) && (ok <==> index < |devices|)
  {
    index := 0;
    while index < |devices|
      invariant index <= |devices| && forall j :: 0 <= j < index ==> devices[j].slaveId != ip
    {
      if devices[index].slaveId == ip {
        return true, index;
      }
      index := index + 1;
    }
    return false, index;
  }

  // ---------------------------------------------------------------- the list of slave IDs

  /** The IDs a request carries when the devices marked in `shown` are enabled. */
  function SlaveIds(devices: seq<DeviceSetting>, shown: seq<bool>): (ids: seq<u32>)
    requires |shown| == |devices|
    ensures Positive(devices) ==> |ids| == Total(devices)
  {
    if devices == [] then []
    else
      var k := |devices| - 1;
      var d := devices[k];
      OccupiedOfPrefix(devices, k, k);
      SlaveIds(devices[..k], shown[..k])
      + (if d.stations == 0 then []
         else [if shown[k] then d.slaveId else IPADDR_INVALID] + seq(d.stations - 1, j => MULTISTATION))
  }

  /** What stands at each station. */
  lemma {:induction false} SlaveIdAt(devices: seq<DeviceSetting>, shown: seq<bool>, i: nat, s: nat)
    requires |shown| == |devices| && Positive(devices) && Owns(devices, i, s)
    ensures s < |SlaveIds(devices, shown)|
    ensures SlaveIds(devices, shown)[s] ==
            if s > Start(devices, i) then MULTISTATION
            else if shown[i] then devices[i].slaveId else IPADDR_INVALID
  {
    var k := |devices| - 1;
    OccupiedOfPrefix(devices, k, k);
    OccupiedMonotone(devices, i + 1, |devices|);
    if i < k {
      OccupiedMonotone(devices, i + 1, k);
      OccupiedOfPrefix(devices, k, i);
      OccupiedOfPrefix(devices, k, i + 1);
      SlaveIdAt(devices[..k], shown[..k], i, s);
    }
  }

  /** The in-place patch of one ID (clm_iefb_update_request_slave_id) enables or disables
      exactly that device. */
  lemma PatchShowsDevice(devices: seq<DeviceSetting>, shown: seq<bool>, i: nat, on: bool)
    requires |shown| == |devices| && Positive(devices) && i < |devices|
    ensures Start(devices, i) < |SlaveIds(devices, shown)|
    ensures SlaveIds(devices, shown)[Start(devices, i) := if on then devices[i].slaveId else IPADDR_INVALID]
            == SlaveIds(devices, shown[i := on])
  {
    var ids, want := SlaveIds(devices, shown), SlaveIds(devices, shown[i := on]);
    OccupiedMonotone(devices, i + 1, |devices|);
    var got := ids[Start(devices, i) := if on then devices[i].slaveId else IPADDR_INVALID];
    forall s | 0 <= s < |ids| ensures got[s] == want[s] {
      var j := OwnerOf(devices, |devices|, s);
      SlaveIdAt(devices, shown, j, s);
      SlaveIdAt(devices, shown[i := on], j, s);
      if j != i {
        RangesApart(devices, i, j);
      }
    }
  }

  // ---------------------------------------------------------------- the search of a slave

  datatype IdSearch = SearchError | NotFound | Found(station: nat, count: nat)

  /** Number of filler entries from position p on. */
  function FillerRun(ids: seq<u32>, p: nat): (n: nat)
    requires p <= |ids|
    ensures p + n <= |ids|
    ensures forall q :: p <= q < p + n ==> ids[q] == MULTISTATION
    ensures p + n < |ids| ==> ids[p + n] != MULTISTATION
    decreases |ids| - p
  {
    if p < |ids| && ids[p] == MULTISTATION then 1 + FillerRun(ids, p + 1) else 0
  }

  function FirstIndex(ids: seq<u32>, id: u32): (p: nat)
    ensures p <= |ids|
    ensures forall q :: 0 <= q < p ==> ids[q] != id
    ensures p < |ids| ==> ids[p] == id
  {
    if ids == [] || ids[0] == id then 0 else
      var p := FirstIndex(ids[1..], id);
      assert forall q :: 1 <= q <= p ==> ids[q] == ids[1..][q - 1];
      1 + p
  }

  /** What a slave concludes from the IDs of a request: its station and the number of
      stations the master reserved for it. An address listed twice is an error. */
  function SearchSlaveId(mine: u32, ids: seq<u32>): IdSearch {
    if mine == IPADDR_INVALID || |ids| < 1 || |ids| > MAX_STATIONS_PER_GROUP then SearchError else
    var p := FirstIndex(ids, mine);
    if p == |ids| then NotFound
    else if mine in ids[p + 1..] then SearchError
    else Found(p + 1, 1 + FillerRun(ids, p + 1))
  }

  /** cl_iefb_analyze_slave_ids, with its three outputs folded into one value. */
  method AnalyzeSlaveIds(mine: u32, ids: seq<u32>) returns (r: IdSearch)
    ensures r == SearchSlaveId(mine, ids)
  {
    if mine == IPADDR_INVALID {
      return SearchError;
    }
    if |ids| < 1 {
      return SearchError;
    }
    var found, station, count, looking := false, 0, 0, false;
    ghost var p := FirstIndex(ids, mine);
    for s := 1 to |ids| + 1
      invariant s > 1 ==> |ids| <= MAX_STATIONS_PER_GROUP
      invariant found <==> p < s - 1
      invariant !found ==> !looking
      invariant found ==> station == p + 1 && forall q :: p < q < s - 1 ==> ids[q] != mine
      invariant found ==> count >= 1 && p + count <= s - 1
      invariant found && looking ==> p + count == s - 1
      invariant found ==> forall q :: p < q < p + count ==> ids[q] == MULTISTATION
      invariant found && !looking ==> p + count < |ids| && ids[p + count] != MULTISTATION
    {
      // cl_iefb_request_get_slave_id rejects a total above the protocol's limit
      if |ids| > MAX_STATIONS_PER_GROUP {
        return SearchError;
      }
      var id := ids[s - 1];
      if id == mine {
        if !found {
          station, count, looking := s, 1, true;
        } else {
          assert ids[p + 1..][s - 2 - p] == mine;
          return SearchError;
        }
        found := true;
      } else {
        if looking {
          if id == MULTISTATION {
            count := count + 1;
          } else {
            looking := false;
          }
        }
      }
    }
    if !found {
      return NotFound;
    }
    RunIsUnique(ids, p + 1, count - 1);
    return Found(station, count);
  }

  lemma {:induction false} RunIsUnique(ids: seq<u32>, p: nat, n: nat)
    requires p + n <= |ids|
    requires forall q :: p <= q < p + n ==> ids[q] == MULTISTATION
    requires p + n < |ids| ==> ids[p + n] != MULTISTATION
    ensures FillerRun(ids, p) == n
    decreases n
  {
    if n > 0 {
      RunIsUnique(ids, p + 1, n - 1);
    }
  }

  predicate DistinctInGroup(devices: seq<DeviceSetting>) {
    forall i, j :: 0 <= i < j < |devices| ==> devices[i].slaveId != devices[j].slaveId
  }

  predicate UsableIds(devices: seq<DeviceSetting>) {
    forall i :: 0 <= i < |devices| ==> IpInRange(devices[i].slaveId)
  }

  /** The address of device i stands at its first station if it is enabled, and nowhere else. */
  lemma OwnIdPositions(devices: seq<DeviceSetting>, shown: seq<bool>, i: nat, s: nat)
    requires |shown| == |devices| && i < |devices|
    requires Positive(devices) && UsableIds(devices) && DistinctInGroup(devices)
    requires s < Total(devices)
    ensures SlaveIds(devices, shown)[s] == devices[i].slaveId <==> shown[i] && s == Start(devices, i)
  {
    var j := OwnerOf(devices, |devices|, s);
    SlaveIdAt(devices, shown, j, s);
    var there := SlaveIds(devices, shown)[s];
    assert IpInRange(devices[i].slaveId);
    if j != i {
      RangesApart(devices, i, j);
      assert devices[j].slaveId != devices[i].slaveId by {
        assert devices[if i < j then i else j].slaveId != devices[if i < j then j else i].slaveId;
      }
      assert there != devices[i].slaveId;
    }
  }

  /** Behind the first station of device i there are exactly its fillers. */
  lemma OwnFillers(devices: seq<DeviceSetting>, shown: seq<bool>, i: nat)
    requires |shown| == |devices| && i < |devices|
    requires Positive(devices) && UsableIds(devices)
    ensures Start(devices, i) < |SlaveIds(devices, shown)|
    ensures FillerRun(SlaveIds(devices, shown), Start(devices, i) + 1) == devices[i].stations - 1
  {
    var ids := SlaveIds(devices, shown);
    OccupiedMonotone(devices, i + 1, |devices|);
    forall s | Start(devices, i) < s < End(devices, i) ensures ids[s] == MULTISTATION {
      SlaveIdAt(devices, shown, i, s);
    }
    if End(devices, i) < |ids| {
      var j := OwnerOf(devices, |devices|, End(devices, i));
      SlaveIdAt(devices, shown, j, End(devices, i));
      RangesApart(devices, i, j);
    }
    RunIsUnique(ids, Start(devices, i) + 1, devices[i].stations - 1);
  }

  lemma FirstIndexIs(ids: seq<u32>, id: u32, p: nat)
    requires p < |ids| && ids[p] == id && forall q :: 0 <= q < p ==> ids[q] != id
    ensures FirstIndex(ids, id) == p
  {
  }

  /** Layout round trip: whatever set of devices is enabled, an enabled slave finds exactly
      its configured station number and station count, and a disabled one finds nothing. */
  lemma SearchFindsConfiguredStation(devices: seq<DeviceSetting>, shown: seq<bool>, i: nat)
    requires |shown| == |devices| && i < |devices|
    requires Positive(devices) && UsableIds(devices) && DistinctInGroup(devices)
    requires Total(devices) <= MAX_STATIONS_PER_GROUP
    ensures SearchSlaveId(devices[i].slaveId, SlaveIds(devices, shown)) ==
            if shown[i] then Found(1 + Start(devices, i), devices[i].stations) else NotFound
  {
    var ids, mine, start := SlaveIds(devices, shown), devices[i].slaveId, Start(devices, i);
    assert IpInRange(mine);
    OwnFillers(devices, shown, i);
    forall s | 0 <= s < |ids| ensures ids[s] == mine <==> shown[i] && s == start {
      OwnIdPositions(devices, shown, i, s);
    }
    if shown[i] {
      FirstIndexIs(ids, mine, start);
      assert mine !in ids[start + 1..];
    }
  }
}
