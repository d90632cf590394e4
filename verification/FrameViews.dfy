/** The request frame as each device appears in it: its ID, its transmission bit and its
    output data. A scan start writes some of these views and touches no others. */
module FrameViews {
  import opened Words
  import opened Buffers
  import opened Config
  import opened Layout
  import opened Frames
  import opened GroupModel
  import D = DeviceModel

  datatype View = View(id: u32, bit: bool, rww: seq<byte>, ry: seq<byte>)

  /** Offset of station s in an area with `size` bytes per station. */
  function Offset(size: nat, s: nat): nat {
    size * s
  }

  lemma OffsetGrows(size: nat, a: nat, b: nat)
    requires a <= b
    ensures Offset(size, a) <= Offset(size, b) && Offset(size, b) - Offset(size, a) == size * (b - a)
  {
  }

  /** The part of a station-by-station area that belongs to device i. */
  function AreaOf<T>(setting: GroupSetting, data: seq<T>, size: nat, i: nat): seq<T>
    requires i < |setting.devices| && Offset(size, End(setting.devices, i)) <= |data|
  {
    OffsetGrows(size, Start(setting.devices, i), End(setting.devices, i));
    data[Offset(size, Start(setting.devices, i))..Offset(size, End(setting.devices, i))]
  }

  predicate Holds(setting: GroupSetting, frame: Request) {
    ValidGroupSetting(setting) && frame.WellFormed() && |frame.ids| == Total(setting.devices)
  }

  lemma Fits(setting: GroupSetting, i: nat)
    requires ValidGroupSetting(setting) && i < |setting.devices|
    ensures Start(setting.devices, i) < End(setting.devices, i) <= Total(setting.devices) <= MAX_STATIONS_PER_GROUP
  {
    StationInRange(setting, i);
  }

  function ViewOf(setting: GroupSetting, word: u16, frame: Request, i: nat): View
    requires Holds(setting, frame) && i < |setting.devices|
  {
    Fits(setting, i);
    View(frame.ids[Start(setting.devices, i)], Bit(word, Start(setting.devices, i)),
         AreaOf(setting, frame.rww, WORD_AREA, i), AreaOf(setting, frame.ry, BIT_AREA, i))
  }

  /** The output data a scan start writes for device i. */
  function Payload(setting: GroupSetting, data: seq<byte>, size: nat, d: D.Device, i: nat): seq<byte>
    requires i < |setting.devices| && Offset(size, End(setting.devices, i)) <= |data|
  {
    if d.bit || d.forced then AreaOf(setting, data, size, i) else Zeros(size * setting.devices[i].stations)
  }

  /** What a scan start writes for a device in its new state. */
  function Written(setting: GroupSetting, rww: seq<byte>, ry: seq<byte>, d: D.Device, i: nat): View
    requires ValidGroupSetting(setting) && i < |setting.devices| && |rww| == WORDS && |ry| == BITS
  {
    Fits(setting, i);
    View(if d.state == D.CyclicSuspend then IPADDR_INVALID else setting.devices[i].slaveId, d.bit || d.forced,
         Payload(setting, rww, WORD_AREA, d, i), Payload(setting, ry, BIT_AREA, d, i))
  }

  predicate IsStart(devices: seq<DeviceSetting>, s: nat) {
    exists i: nat :: i < |devices| && Start(devices, i) == s
  }

  /** Stations that are not a device's first carry a filler ID and no transmission bit. */
  predicate Fillers(setting: GroupSetting, word: u16, frame: Request) {
    forall s: nat :: s < MAX_STATIONS_PER_GROUP && !IsStart(setting.devices, s) ==>
      !Bit(word, s) && (s < |frame.ids| ==> frame.ids[s] == MULTISTATION)
  }

  predicate SameHeader(r: Request, q: Request) {
    q == r.(ids := q.ids, rww := q.rww, ry := q.ry)
  }

  // ---------------------------------------------------------------- one patch

  lemma AreaBounds(setting: GroupSetting, size: nat, i: nat)
    requires ValidGroupSetting(setting) && i < |setting.devices|
    ensures var a, b := Offset(size, Start(setting.devices, i)), Offset(size, End(setting.devices, i));
            a <= b <= Offset(size, Total(setting.devices)) && b - a == size * setting.devices[i].stations
  {
    hide Offset;
    StationInRange(setting, i);
    OffsetGrows(size, Start(setting.devices, i), End(setting.devices, i));
    OffsetGrows(size, End(setting.devices, i), Total(setting.devices));
  }

  lemma AreasApart(setting: GroupSetting, size: nat, i: nat, j: nat)
    requires ValidGroupSetting(setting) && i < |setting.devices| && j < |setting.devices| && i != j
    ensures Offset(size, End(setting.devices, i)) <= Offset(size, Start(setting.devices, j))
            || Offset(size, End(setting.devices, j)) <= Offset(size, Start(setting.devices, i))
  {
    hide Offset;
    RangesApart(setting.devices, i, j);
    if End(setting.devices, i) <= Start(setting.devices, j) {
      OffsetGrows(size, End(setting.devices, i), Start(setting.devices, j));
    } else {
      OffsetGrows(size, End(setting.devices, j), Start(setting.devices, i));
    }
  }

  /** Writing the area of one device leaves the areas of the others. */
  lemma SpliceArea<T>(setting: GroupSetting, data: seq<T>, size: nat, i: nat, j: nat, d: seq<T>)
    requires ValidGroupSetting(setting) && i < |setting.devices| && j < |setting.devices|
    requires Offset(size, End(setting.devices, i)) <= |data| && Offset(size, End(setting.devices, j)) <= |data|
    requires Offset(size, Start(setting.devices, i)) + |d| == Offset(size, End(setting.devices, i))
    ensures AreaOf(setting, Splice(data, Offset(size, Start(setting.devices, i)), d), size, j)
            == if j == i then d else AreaOf(setting, data, size, j)
  {
    hide Start, End, Splice, Offset;
    AreaBounds(setting, size, j);
    if i != j {
      AreasApart(setting, size, i, j);
    }
    SpliceRead(data, Offset(size, Start(setting.devices, i)), d,
               Offset(size, Start(setting.devices, j)), Offset(size, End(setting.devices, j)));
  }

  lemma PatchSplices(setting: GroupSetting, g: Group, i: nat)
    requires LaidOut(setting, g) && ValidGroupSetting(setting) && i < |g.devices|
    requires Offset(WORD_AREA, End(setting.devices, i)) <= |g.frame.rww| && Offset(BIT_AREA, End(setting.devices, i)) <= |g.frame.ry|
    ensures var r, d, start := PatchFrame(setting, g, i), g.devices[i], Start(setting.devices, i);
            var w, b := Payload(setting, g.rww, WORD_AREA, d, i), Payload(setting, g.ry, BIT_AREA, d, i);
            && Offset(WORD_AREA, start) + |w| == Offset(WORD_AREA, End(setting.devices, i))
            && Offset(BIT_AREA, start) + |b| == Offset(BIT_AREA, End(setting.devices, i))
            && r.frame.rww == Splice(g.frame.rww, Offset(WORD_AREA, start), w)
            && r.frame.ry == Splice(g.frame.ry, Offset(BIT_AREA, start), b)
  {
    hide SetTransmissionState, Splice, Zeros;
    StationInRange(setting, i);
  }

  lemma PatchData(setting: GroupSetting, g: Group, i: nat, j: nat)
    requires LaidOut(setting, g) && ValidGroupSetting(setting) && i < |g.devices| && j < |g.devices|
    requires Offset(WORD_AREA, End(setting.devices, i)) <= |g.frame.rww| && Offset(BIT_AREA, End(setting.devices, i)) <= |g.frame.ry|
    requires Offset(WORD_AREA, End(setting.devices, j)) <= |g.frame.rww| && Offset(BIT_AREA, End(setting.devices, j)) <= |g.frame.ry|
    ensures var r, d := PatchFrame(setting, g, i), g.devices[i];
            && |r.frame.rww| == |g.frame.rww| && |r.frame.ry| == |g.frame.ry|
            && AreaOf(setting, r.frame.rww, WORD_AREA, j)
               == (if j != i then AreaOf(setting, g.frame.rww, WORD_AREA, j) else Payload(setting, g.rww, WORD_AREA, d, i))
            && AreaOf(setting, r.frame.ry, BIT_AREA, j)
               == (if j != i then AreaOf(setting, g.frame.ry, BIT_AREA, j) else Payload(setting, g.ry, BIT_AREA, d, i))
  {
    hide PatchFrame, Splice, Payload, Offset, Start, End, AreaOf;
    PatchSplices(setting, g, i);
    SpliceArea(setting, g.frame.rww, WORD_AREA, i, j, Payload(setting, g.rww, WORD_AREA, g.devices[i], i));
    SpliceArea(setting, g.frame.ry, BIT_AREA, i, j, Payload(setting, g.ry, BIT_AREA, g.devices[i], i));
  }

  /** Patching one device writes its view and no other. */
  lemma PatchViews(setting: GroupSetting, g: Group, i: nat, j: nat)
    requires LaidOut(setting, g) && ValidGroupSetting(setting) && i < |g.devices| && j < |g.devices|
    ensures var r := PatchFrame(setting, g, i);
            ViewOf(setting, r.word, r.frame, j)
            == if j == i then Written(setting, g.rww, g.ry, g.devices[i], i) else ViewOf(setting, g.word, g.frame, j)
  {
    hide AreaOf, PatchFrame;
    Fits(setting, i);
    Fits(setting, j);
    PatchWord(setting, g, i, j);
    PatchIds(setting, g, i, j);
    PatchData(setting, g, i, j);
  }

  lemma PatchHeader(setting: GroupSetting, g: Group, i: nat)
    requires LaidOut(setting, g) && ValidGroupSetting(setting) && i < |g.devices|
    ensures SameHeader(g.frame, PatchFrame(setting, g, i).frame)
  {
  }

  lemma PatchIds(setting: GroupSetting, g: Group, i: nat, j: nat)
    requires LaidOut(setting, g) && ValidGroupSetting(setting) && i < |g.devices| && j < |g.devices|
    ensures Start(setting.devices, j) < |g.frame.ids|
    ensures PatchFrame(setting, g, i).frame.ids[Start(setting.devices, j)]
            == if j != i then g.frame.ids[Start(setting.devices, j)]
               else if g.devices[i].state == D.CyclicSuspend then IPADDR_INVALID else setting.devices[i].slaveId
  {
    Fits(setting, i);
    Fits(setting, j);
    if i != j {
      RangesApart(setting.devices, i, j);
    }
  }

  lemma PatchWord(setting: GroupSetting, g: Group, i: nat, j: nat)
    requires LaidOut(setting, g) && ValidGroupSetting(setting) && i < |g.devices| && j < |g.devices|
    ensures Bit(PatchFrame(setting, g, i).word, Start(setting.devices, j))
            == if j == i then g.devices[i].bit || g.devices[i].forced else Bit(g.word, Start(setting.devices, j))
  {
    Fits(setting, i);
    Fits(setting, j);
    Pow2Values();
    if i != j {
      RangesApart(setting.devices, i, j);
    }
  }

  lemma PatchFillers(setting: GroupSetting, g: Group, i: nat)
    requires LaidOut(setting, g) && ValidGroupSetting(setting) && i < |g.devices|
    requires Fillers(setting, g.word, g.frame)
    ensures Fillers(setting, PatchFrame(setting, g, i).word, PatchFrame(setting, g, i).frame)
  {
    Fits(setting, i);
    Pow2Values();
    var r := PatchFrame(setting, g, i);
    forall s: nat | s < MAX_STATIONS_PER_GROUP && !IsStart(setting.devices, s)
      ensures !Bit(r.word, s) && (s < |r.frame.ids| ==> r.frame.ids[s] == MULTISTATION)
    {
      assert s != Start(setting.devices, i);
      assert !Bit(g.word, s);
    }
  }
}
