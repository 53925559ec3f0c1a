/**
 CAN frames and the `cb_can_message` records that carry them over UDP: the record of a
 frame, the loop that reads the records of a datagram, and what a frame costs on the bus.
 */
module CanWire {
  import opened Common

  const RECORD_SIZE := 100
  const HEADER_SIZE := 36
  const DATA_SIZE := 64
  const FLAGS_AT := 30
  const ID_AT := 31
  const DLC_AT := 35

  type uint32 = n: int | 0 <= n < 0x1_0000_0000

  /** What fits into the data array of a record. */
  type Payload = p: seq<byte> | |p| <= 64

  /** A host frame (`can_dataset`); the identifier may carry bits beyond its frame format. */
  datatype Frame = Frame(id: uint32, eff: bool, rtr: bool, err: bool, payload: Payload) {
    /** `get_can_id`: the identifier under the mask of the frame format. */
    function PlainId(): (n: uint32) { id % (if eff then 0x2000_0000 else 0x800) }

    /** The frame as its accessors show it. */
    function Plain(): (f: Frame) { this.(id := PlainId()) }

    function Flags(): (b: byte) { (if eff then 1 else 0) + (if rtr then 2 else 0) + (if err then 4 else 0) }
  }

  function Zeros(n: nat): (r: seq<byte>)
    ensures |r| == n && forall i :: 0 <= i < n ==> r[i] == 0
  {
    seq(n, _ => 0)
  }

  function LittleEndian(n: uint32): (r: seq<byte>)
    ensures |r| == 4
  {
    [n % 256, n / 256 % 256, n / 65536 % 256, n / 16777216]
  }

  function FromLittleEndian(r: seq<byte>): (n: uint32)
    requires |r| == 4
  {
    var n0: int, n1: int, n2: int, n3: int := r[0], r[1], r[2], r[3];
    n0 + 256 * n1 + 65536 * n2 + 16777216 * n3
  }

  /** `msg_host_to_cb`, as the bytes of its struct. */
  function Record(f: Frame): (r: seq<byte>)
    ensures |r| == RECORD_SIZE
  {
    Zeros(FLAGS_AT) + [f.Flags()] + LittleEndian(f.PlainId()) + [|f.payload|] +
    f.payload + Zeros(DATA_SIZE - |f.payload|)
  }

  /** `msg_cb_to_host`: a length code beyond the data array is clamped to it. */
  function Host(r: seq<byte>): (f: Frame)
    requires |r| == RECORD_SIZE
  {
    var flags: int := r[FLAGS_AT];
    var length := if r[DLC_AT] <= DATA_SIZE then r[DLC_AT] else DATA_SIZE;
    Frame(FromLittleEndian(r[ID_AT..DLC_AT]), flags % 2 == 1, flags / 2 % 2 == 1, flags / 4 % 2 == 1,
          r[HEADER_SIZE..HEADER_SIZE + length])
  }

  lemma LittleEndianInverse(n: uint32)
    ensures FromLittleEndian(LittleEndian(n)) == n
  {
    assert n == 256 * (n / 256) + n % 256;
    assert n / 256 == 256 * (n / 65536) + n / 256 % 256;
    assert n / 65536 == 256 * (n / 16777216) + n / 65536 % 256;
  }

  lemma RecordParts(f: Frame)
    ensures var r := Record(f);
            && r[FLAGS_AT] == f.Flags() && r[ID_AT..DLC_AT] == LittleEndian(f.PlainId()) && r[DLC_AT] == |f.payload|
            && r[HEADER_SIZE..HEADER_SIZE + |f.payload|] == f.payload
            && forall i :: HEADER_SIZE + |f.payload| <= i < RECORD_SIZE ==> r[i] == 0
  {}

  /** A record shows the host exactly what the frame's accessors show. */
  lemma HostOfRecord(f: Frame)
    ensures Host(Record(f)) == f.Plain()
  {
    RecordParts(f);
    LittleEndianInverse(f.PlainId());
    hide Record;
  }

  // ---- Datagrams ----

  function Batch(fs: seq<Frame>): (r: seq<byte>) {
    if fs == [] then [] else Record(fs[0]) + Batch(fs[1..])
  }

  function Plain(fs: seq<Frame>): (r: seq<Frame>)
    ensures |r| == |fs| && forall i :: 0 <= i < |fs| ==> r[i] == fs[i].Plain()
  {
    if fs == [] then [] else [fs[0].Plain()] + Plain(fs[1..])
  }

  /** The bytes of a datagram's first record, with omitted trailing bytes read as zero. */
  function FirstRecord(d: seq<byte>): (r: seq<byte>)
    requires |d| >= HEADER_SIZE
    ensures |r| == RECORD_SIZE
  {
    if |d| >= RECORD_SIZE then d[..RECORD_SIZE] else d + Zeros(RECORD_SIZE - |d|)
  }

  /** The frames of a datagram. */
  function Frames(d: seq<byte>): (fs: seq<Frame>)
    ensures |fs| == (|d| + DATA_SIZE) / RECORD_SIZE
  {
    if |d| < HEADER_SIZE then []
    else if |d| <= RECORD_SIZE then [Host(FirstRecord(d))]
    else [Host(FirstRecord(d))] + Frames(d[RECORD_SIZE..])
  }

  /** What a datagram holds from an offset on, which may lie beyond its end. */
  function From(d: seq<byte>, off: nat): (rest: seq<byte>) { if off <= |d| then d[off..] else [] }

  lemma FramesFrom(d: seq<byte>, off: nat, msg: seq<byte>)
    requires off + HEADER_SIZE <= |d|
    requires var chunk := Least(|d| - off, RECORD_SIZE); msg == d[off..off + chunk] + Zeros(RECORD_SIZE - chunk)
    ensures Frames(From(d, off)) == [Host(msg)] + Frames(From(d, off + RECORD_SIZE))
  {
    hide Host;
    var rest := d[off..];
    assert msg == FirstRecord(rest);
    if |rest| > RECORD_SIZE { assert rest[RECORD_SIZE..] == d[off + RECORD_SIZE..]; }
  }

  lemma FramesEnd(d: seq<byte>, off: nat)
    requires off + HEADER_SIZE > |d|
    ensures Frames(From(d, off)) == []
  {}

  /** The UDP receive handler's loop over the records of a datagram. */
  method ReadDatagram(d: seq<byte>) returns (fs: seq<Frame>)
    ensures fs == Frames(d)
  {
    hide Host, Frames;
    fs := [];
    var off := 0;
    assert From(d, 0) == d;
    while off + HEADER_SIZE <= |d|
      invariant 0 <= off && fs + Frames(From(d, off)) == Frames(d)
      decreases |d| - off
    {
      var chunk := Least(|d| - off, RECORD_SIZE);
      var msg := d[off..off + chunk] + Zeros(RECORD_SIZE - chunk);
      FramesFrom(d, off, msg);
      Regroup(fs, [Host(msg)], Frames(From(d, off + RECORD_SIZE)));
      fs := fs + [Host(msg)];
      off := off + RECORD_SIZE;
    }
    FramesEnd(d, off);
  }

  lemma {:induction false} BatchSize(fs: seq<Frame>)
    ensures |Batch(fs)| == RECORD_SIZE * |fs|
  {
    if fs != [] { BatchSize(fs[1..]); }
  }

  lemma FramesOfRecord(f: Frame, omitted: nat)
    requires omitted <= DATA_SIZE - |f.payload|
    ensures Frames(Record(f)[..RECORD_SIZE - omitted]) == [f.Plain()]
  {
    RecordParts(f);
    HostOfRecord(f);
    assert FirstRecord(Record(f)[..RECORD_SIZE - omitted]) == Record(f);
    hide Record;
  }

  lemma FramesCons(r: seq<byte>, d: seq<byte>)
    requires |r| == RECORD_SIZE && |d| >= HEADER_SIZE
    ensures Frames(r + d) == [Host(r)] + Frames(d)
  {}

  lemma FramesSplit(d: seq<byte>)
    requires |d| == RECORD_SIZE || |d| >= RECORD_SIZE + HEADER_SIZE
    ensures Frames(d) == [Host(d[..RECORD_SIZE])] + Frames(d[RECORD_SIZE..])
  {}

  /** A record appended to whole records is read last. */
  lemma {:induction false} FramesSnoc(d: seq<byte>, n: nat, f: Frame)
    requires |d| == RECORD_SIZE * n
    ensures Frames(d + Record(f)) == Frames(d) + [f.Plain()]
  {
    hide Record, Frames, Host;
    if n == 0 {
      FramesOfRecord(f, 0);
      assert d + Record(f) == Record(f)[..RECORD_SIZE];
      assert Frames(d) == [];
    } else {
      FramesSplit(d);
      FramesSplit(d + Record(f));
      var rest := d[RECORD_SIZE..];
      assert (d + Record(f))[..RECORD_SIZE] == d[..RECORD_SIZE] && (d + Record(f))[RECORD_SIZE..] == rest + Record(f);
      FramesSnoc(rest, n - 1, f);
      assert Frames(d) + [f.Plain()] == [Host(d[..RECORD_SIZE])] + (Frames(rest) + [f.Plain()]);
    }
  }

  /**
   Reading a datagram gives back the frames put into it, also when the unused data bytes at the end
   of its last record are omitted.
   */
  lemma {:induction false} FramesOfBatch(fs: seq<Frame>, omitted: nat)
    requires if fs == [] then omitted == 0 else omitted <= DATA_SIZE - |fs[|fs| - 1].payload|
    ensures |Batch(fs)| == RECORD_SIZE * |fs|
    ensures Frames(Batch(fs)[..RECORD_SIZE * |fs| - omitted]) == Plain(fs)
  {
    hide Record, Frames, Host;
    BatchSize(fs);
    if |fs| == 1 {
      FramesOfRecord(fs[0], omitted);
      assert Batch(fs) == Record(fs[0]) + [] == Record(fs[0]);
      assert Plain(fs) == [fs[0].Plain()];
    } else if fs == [] {
      assert Frames([]) == [];
    } else {
      var n := RECORD_SIZE * (|fs| - 1) - omitted;
      HostOfRecord(fs[0]);
      FramesOfBatch(fs[1..], omitted);
      FramesCons(Record(fs[0]), Batch(fs[1..])[..n]);
      assert Batch(fs)[..RECORD_SIZE + n] == Record(fs[0]) + Batch(fs[1..])[..n];
    }
  }

  // ---- The cost of a frame on the bus ----

  const FD_LENGTHS: seq<nat> := [12, 16, 20, 24, 32, 48, 64]
  const STUFFING_PERMILLE := 65

  /** `frame_wire_bits` of a length code. */
  function WireBits(dlc: byte, extended: bool): (bits: nat) {
    var bytes: int := if dlc <= 8 then dlc else if dlc - 9 <= 6 then FD_LENGTHS[dlc - 9] else FD_LENGTHS[6];
    var fixed := (if extended then 67 else 47) + 8 * bytes;
    fixed + (fixed - 13) * STUFFING_PERMILLE / 1000
  }

  function RecordBits(r: seq<byte>): (bits: nat)
    requires |r| == RECORD_SIZE
  {
    WireBits(r[DLC_AT], r[FLAGS_AT] % 2 == 1)
  }

  function FrameBits(f: Frame): (bits: nat) { WireBits(|f.payload|, f.eff) }

  function Cost(fs: seq<Frame>): (bits: nat) {
    if fs == [] then 0 else FrameBits(fs[0]) + Cost(fs[1..])
  }

  lemma RecordBitsOfFrame(f: Frame)
    ensures RecordBits(Record(f)) == FrameBits(f)
  {}

  lemma {:induction false} CostSnoc(fs: seq<Frame>, f: Frame)
    ensures Cost(fs + [f]) == Cost(fs) + FrameBits(f)
  {
    if fs == [] {
      assert (fs + [f])[1..] == [];
    } else {
      CostSnoc(fs[1..], f);
      assert (fs + [f])[1..] == fs[1..] + [f];
    }
  }

  /** The range of the cost, and its range for classic frames; all four bounds are reached. */
  lemma WireBitsRange(dlc: byte, extended: bool)
    ensures 49 <= WireBits(dlc, extended) <= 615
    ensures dlc <= 8 ==> WireBits(dlc, extended) <= 138
    ensures WireBits(0, false) == 49 && WireBits(8, true) == 138 && WireBits(15, true) == 615
  {}
}
