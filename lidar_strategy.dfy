/**
 * The lidar decoder of src/lidar_only/lidar_strategy.py: framing of the
 * sensor's serial byte stream, decoding of a 45-byte payload into twelve
 * angle/distance samples, sector classification, and the per-sector
 * "closer wins, otherwise decay" estimate the controller reads.
 *
 * The serial port is replaced by a finite sequence of bytes that are all
 * waiting to be read; the background thread is replaced by a plain call.
 */
module Lidar {
  import opened Config
  import opened Wrappers

  type Byte = b: int | 0 <= b < 256

  /** `struct.unpack("<H", ...)` on two bytes: a little-endian uint16. */
  function LE16(lo: Byte, hi: Byte): (v: nat)
    ensures v < 65536
    ensures v % 256 == lo && v / 256 == hi
  {
    lo + 256 * hi
  }

  // Payload layout (offsets into the 45 bytes after the two header bytes).
  const START_ANGLE_POS: nat := 2
  const END_ANGLE_POS: nat := 40
  const FIRST_POINT_POS: nat := 4
  const POINT_STRIDE: nat := 3

  /** Offset of the distance field of point `i`. */
  function PointPos(i: nat): (k: nat)
    requires i < POINTS_PER_PACKET
    ensures FIRST_POINT_POS <= k && k + 1 <= 38
    ensures START_ANGLE_POS + 1 < k && k + 1 < END_ANGLE_POS
    ensures k + 1 < PAYLOAD_SIZE
  {
    FIRST_POINT_POS + i * POINT_STRIDE
  }

  /** The two-byte distance fields of different points never overlap. */
  lemma PointFieldsDisjoint(i: nat, j: nat)
    requires i < j < POINTS_PER_PACKET
    ensures PointPos(i) + 1 < PointPos(j)
  {
  }

  /** The start angle of a payload, in degrees. */
  function StartAngle(data: seq<Byte>): (a: real)
    requires |data| == PAYLOAD_SIZE
    ensures 0.0 <= a < 655.36
  {
    LE16(data[START_ANGLE_POS], data[START_ANGLE_POS + 1]) as real / ANGLE_DIVISOR
  }

  /** The end angle as transmitted, in degrees. */
  function RawEndAngle(data: seq<Byte>): (a: real)
    requires |data| == PAYLOAD_SIZE
    ensures 0.0 <= a < 655.36
  {
    LE16(data[END_ANGLE_POS], data[END_ANGLE_POS + 1]) as real / ANGLE_DIVISOR
  }

  /**
   * The end angle after the seam fix: a packet whose end angle is below its
   * start angle crossed 0 degrees, so 360 is added.
   */
  function EndAngle(data: seq<Byte>): (a: real)
    requires |data| == PAYLOAD_SIZE
    ensures a == RawEndAngle(data) || a == RawEndAngle(data) + 360.0
    ensures a == RawEndAngle(data) <==> RawEndAngle(data) >= StartAngle(data)
    ensures StartAngle(data) < 360.0 ==> a >= StartAngle(data)
  {
    var endAngle := RawEndAngle(data);
    if endAngle < StartAngle(data) then endAngle + 360.0 else endAngle
  }

  /**
   * The angular distance between consecutive points of a payload: eleven
   * such steps lead from the start angle to the end angle, and the step is
   * never negative once the start angle is below 360.
   */
  function AngleStep(data: seq<Byte>): (step: real)
    requires |data| == PAYLOAD_SIZE
    ensures 11.0 * step == EndAngle(data) - StartAngle(data)
    ensures StartAngle(data) < 360.0 ==> step >= 0.0
  {
    (EndAngle(data) - StartAngle(data)) / (POINTS_PER_PACKET - 1) as real
  }

  /** The interpolated, uncorrected angle of point `i`. */
  function RawAngle(startAngle: real, step: real, i: nat): (a: real)
    ensures i == 0 ==> a == startAngle
  {
    startAngle + i as real * step
  }

  /** Python's `x % 360` on a float: the remainder in [0, 360). */
  function Mod360(x: real): (r: real)
    ensures 0.0 <= r < 360.0
    ensures 0.0 <= x < 360.0 ==> r == x
    ensures 360.0 <= x < 720.0 ==> r == x - 360.0
    ensures ((x - r) / 360.0).Floor as real == (x - r) / 360.0
  {
    x - 360.0 * (x / 360.0).Floor as real
  }

  /** The heading of a raw angle once the mounting offset is applied. */
  function Corrected(raw: real): (a: real)
    ensures 0.0 <= a < 360.0
  {
    Mod360(raw + LIDAR_OFFSET_DEG)
  }

  /** One of the three watched sectors, or none (`None` in the source). */
  datatype Sector = Front | Left | Right | Ignored

  /** `_get_sector`: classification by the boundary table. */
  function GetSector(angle: real): (s: Sector)
    ensures s == Front <==> angle >= FRONT_START || angle < FRONT_END
    ensures s == Left <==> LEFT_START <= angle < LEFT_END
    ensures s == Right <==> RIGHT_START <= angle < RIGHT_END
    ensures s == Ignored <==> RIGHT_END <= angle < LEFT_START
  {
    if angle >= FRONT_START || angle < FRONT_END then Front
    else if LEFT_START <= angle < LEFT_END then Left
    else if RIGHT_START <= angle < RIGHT_END then Right
    else Ignored
  }

  /** One decoded point: its heading, its distance and its sector. */
  datatype Sample = Sample(angle: real, distCm: real, sector: Sector)

  /** The distance of point `i`, converted from millimetres to centimetres. */
  function PointDistance(data: seq<Byte>, i: nat): (d: real)
    requires |data| == PAYLOAD_SIZE && i < POINTS_PER_PACKET
    ensures 0.0 <= d < 6553.6
  {
    LE16(data[PointPos(i)], data[PointPos(i) + 1]) as real / MM_TO_CM
  }

  /**
   * Point `i` of a payload: its heading lies on the compass, its sector is
   * the heading's, and its distance is the point's little-endian millimetre
   * field in centimetres.
   */
  function DecodePoint(data: seq<Byte>, i: nat): (s: Sample)
    requires |data| == PAYLOAD_SIZE && i < POINTS_PER_PACKET
    ensures s.angle == Corrected(RawAngle(StartAngle(data), AngleStep(data), i))
    ensures 0.0 <= s.angle < 360.0
    ensures s.sector == GetSector(s.angle)
    ensures s.distCm == LE16(data[FIRST_POINT_POS + i * POINT_STRIDE], data[FIRST_POINT_POS + i * POINT_STRIDE + 1]) as real / MM_TO_CM
  {
    var angle := Corrected(RawAngle(StartAngle(data), AngleStep(data), i));
    Sample(angle, PointDistance(data, i), GetSector(angle))
  }

  /** The twelve samples of a payload, in the order the sensor sent them. */
  function Samples(data: seq<Byte>): (ss: seq<Sample>)
    requires |data| == PAYLOAD_SIZE
    ensures |ss| == POINTS_PER_PACKET
    ensures forall i :: 0 <= i < |ss| ==> ss[i] == DecodePoint(data, i)
  {
    seq(POINTS_PER_PACKET, i requires 0 <= i < POINTS_PER_PACKET => DecodePoint(data, i))
  }

  /** A decoded payload. */
  datatype Packet = Packet(startAngle: real, endAngle: real, samples: seq<Sample>)

  /** Decodes a payload; one of the wrong length carries no packet. */
  function DecodePayload(data: seq<Byte>): (r: Option<Packet>)
    ensures r.Some? <==> |data| == PAYLOAD_SIZE
    ensures r.Some? ==> |r.value.samples| == POINTS_PER_PACKET
    ensures r.Some? ==> r.value.startAngle == StartAngle(data) && r.value.endAngle == EndAngle(data)
    ensures r.Some? ==> forall i :: 0 <= i < POINTS_PER_PACKET ==> r.value.samples[i] == DecodePoint(data, i)
    ensures r.Some? ==> r.value.startAngle < 360.0 ==> r.value.endAngle >= r.value.startAngle
    ensures r.Some? ==> forall i :: 0 <= i < POINTS_PER_PACKET ==>
      var s := r.value.samples[i];
      && s.distCm == LE16(data[4 + 3 * i], data[5 + 3 * i]) as real / 10.0
      && 0.0 <= s.angle < 360.0
      && s.sector == GetSector(s.angle)
  {
    if |data| != PAYLOAD_SIZE then None
    else Some(Packet(StartAngle(data), EndAngle(data), Samples(data)))
  }

  /** A payload carrying the given raw fields; the bytes the decoder never reads are 0. */
  function EncodePayload(startRaw: nat, endRaw: nat, distMm: seq<nat>): (data: seq<Byte>)
    requires startRaw < 65536 && endRaw < 65536
    requires |distMm| == POINTS_PER_PACKET && forall i :: 0 <= i < |distMm| ==> distMm[i] < 65536
    ensures |data| == PAYLOAD_SIZE
  {
    seq(PAYLOAD_SIZE, k requires 0 <= k < PAYLOAD_SIZE =>
      if k == START_ANGLE_POS then startRaw % 256
      else if k == START_ANGLE_POS + 1 then startRaw / 256
      else if k == END_ANGLE_POS then endRaw % 256
      else if k == END_ANGLE_POS + 1 then endRaw / 256
      else if FIRST_POINT_POS <= k < END_ANGLE_POS && (k - FIRST_POINT_POS) % POINT_STRIDE == 0
        then distMm[(k - FIRST_POINT_POS) / POINT_STRIDE] % 256
      else if FIRST_POINT_POS <= k < END_ANGLE_POS && (k - FIRST_POINT_POS) % POINT_STRIDE == 1
        then distMm[(k - FIRST_POINT_POS) / POINT_STRIDE] / 256
      else 0)
  }

  /** Decoding an encoded payload gives back its angles and distances. */
  lemma DecodeEncode(startRaw: nat, endRaw: nat, distMm: seq<nat>)
    requires startRaw < 65536 && endRaw < 65536
    requires |distMm| == POINTS_PER_PACKET && forall i :: 0 <= i < |distMm| ==> distMm[i] < 65536
    ensures var r := DecodePayload(EncodePayload(startRaw, endRaw, distMm));
      && r.Some?
      && r.value.startAngle == startRaw as real / 100.0
      && (r.value.endAngle == endRaw as real / 100.0 || r.value.endAngle == endRaw as real / 100.0 + 360.0)
      && forall i :: 0 <= i < POINTS_PER_PACKET ==> r.value.samples[i].distCm == distMm[i] as real / 10.0
  {
    var data := EncodePayload(startRaw, endRaw, distMm);
    assert LE16(data[2], data[3]) == startRaw;
    assert LE16(data[40], data[41]) == endRaw;
    forall i | 0 <= i < POINTS_PER_PACKET
      ensures LE16(data[4 + 3 * i], data[5 + 3 * i]) == distMm[i]
    {
      assert (4 + 3 * i - 4) / 3 == i && (4 + 3 * i - 4) % 3 == 0;
      assert (5 + 3 * i - 4) / 3 == i && (5 + 3 * i - 4) % 3 == 1;
    }
  }

  /**
   * Point `i` of eleven equal steps from `lo` to `hi`: the last lands on
   * `hi`, and when `lo <= hi` every one lies between the two.
   */
  lemma StepWithin(lo: real, hi: real, step: real, i: nat)
    requires 11.0 * step == hi - lo && i <= 11
    ensures i == 11 ==> RawAngle(lo, step, i) == hi
    ensures lo <= hi ==> lo <= RawAngle(lo, step, i) <= hi
  {
    var x := i as real;
    assert RawAngle(lo, step, i) == lo + x * step;
    if i == 11 {
      assert x * step == 11.0 * step;
    }
    if lo <= hi {
      assert step >= 0.0;
      assert x * step >= 0.0;
      assert (11.0 - x) * step >= 0.0;
      assert x * step + (11.0 - x) * step == 11.0 * step;
    }
  }

  /** The first point sits at the start angle and the last at the end angle. */
  lemma InterpolationEndpoints(data: seq<Byte>)
    requires |data| == PAYLOAD_SIZE
    ensures RawAngle(StartAngle(data), AngleStep(data), 0) == StartAngle(data)
    ensures RawAngle(StartAngle(data), AngleStep(data), POINTS_PER_PACKET - 1) == EndAngle(data)
  {
    StepWithin(StartAngle(data), EndAngle(data), AngleStep(data), POINTS_PER_PACKET - 1);
  }

  /** Point 0 faces the corrected start angle and point 11 the corrected end angle. */
  lemma EndpointHeadings(data: seq<Byte>)
    requires |data| == PAYLOAD_SIZE
    ensures DecodePoint(data, 0).angle == Corrected(StartAngle(data))
    ensures DecodePoint(data, POINTS_PER_PACKET - 1).angle == Corrected(EndAngle(data))
  {
    InterpolationEndpoints(data);
  }

  /** With the start below 360, every point's raw angle lies between the start and the end angle. */
  lemma InterpolationWithin(data: seq<Byte>, i: nat)
    requires |data| == PAYLOAD_SIZE && i < POINTS_PER_PACKET && StartAngle(data) < 360.0
    ensures StartAngle(data) <= RawAngle(StartAngle(data), AngleStep(data), i) <= EndAngle(data)
  {
    StepWithin(StartAngle(data), EndAngle(data), AngleStep(data), i);
  }

  /**
   * A start field of 500.00 degrees with an end field of 100.00 degrees:
   * the seam fix still leaves the end below the start. The sensor reports
   * angles below 360, which the wrap fix relies on.
   */
  lemma WrapFixNeedsStartBelow360()
    ensures var data := seq(PAYLOAD_SIZE, k => if k == 2 then 0x50 else if k == 3 then 0xC3
                                            else if k == 40 then 0x10 else if k == 41 then 0x27 else 0);
      StartAngle(data) == 500.0 && EndAngle(data) == 460.0 && AngleStep(data) < 0.0
  {
    var data := seq(PAYLOAD_SIZE, k => if k == 2 then 0x50 else if k == 3 then 0xC3
                                    else if k == 40 then 0x10 else if k == 41 then 0x27 else 0);
    assert LE16(data[2], data[3]) == 50000;
    assert LE16(data[40], data[41]) == 10000;
  }

  /** The three sector estimates (`front_dist`, `left_dist`, `right_dist`). */
  datatype Estimates = Estimates(front: real, left: real, right: real)

  /** Every estimate starts as "clear". */
  const SENTINEL_CM: real := 999.0
  /** How far an estimate grows when a sample does not confirm it. */
  const DECAY_CM: real := 1.0

  const INITIAL: Estimates := Estimates(SENTINEL_CM, SENTINEL_CM, SENTINEL_CM)

  function Field(e: Estimates, s: Sector): real
    requires s != Ignored
  {
    match s
    case Front => e.front
    case Left => e.left
    case Right => e.right
  }

  predicate Positive(e: Estimates)
  {
    e.front > 0.0 && e.left > 0.0 && e.right > 0.0
  }

  /** Distances outside (0, MAX_VALID_DIST_CM) are noise. */
  predicate ValidDistance(d: real)
  {
    0.0 < d < MAX_VALID_DIST_CM
  }

  /** The update of one sample, as the body of the per-point loop does it. */
  function Update(e: Estimates, s: Sample): (r: Estimates)
    ensures !ValidDistance(s.distCm) || s.sector == Ignored ==> r == e
    ensures forall t :: t != Ignored && t != s.sector ==> Field(r, t) == Field(e, t)
    ensures ValidDistance(s.distCm) && s.sector != Ignored ==>
      if s.distCm < Field(e, s.sector) then Field(r, s.sector) == s.distCm
      else Field(r, s.sector) == Field(e, s.sector) + DECAY_CM
    ensures Positive(e) ==> Positive(r)
  {
    if 0.0 < s.distCm < MAX_VALID_DIST_CM then
      match s.sector
      case Front => e.(front := if s.distCm < e.front then s.distCm else e.front + DECAY_CM)
      case Left => e.(left := if s.distCm < e.left then s.distCm else e.left + DECAY_CM)
      case Right => e.(right := if s.distCm < e.right then s.distCm else e.right + DECAY_CM)
      case Ignored => e
    else e
  }

  /**
   * The samples applied one after another, first to last. No update ever
   * drives an estimate to zero or below.
   */
  function Fold(e: Estimates, ss: seq<Sample>): (r: Estimates)
    ensures Positive(e) ==> Positive(r)
  {
    if |ss| == 0 then e else Update(Fold(e, ss[..|ss| - 1]), ss[|ss| - 1])
  }

  /** The effect of one complete payload on the estimates. */
  function ApplyPayload(e: Estimates, data: seq<Byte>): (r: Estimates)
    requires |data| == PAYLOAD_SIZE
    ensures Positive(e) ==> Positive(r)
  {
    Fold(e, Samples(data))
  }

  /** A sector that no valid sample lands in keeps its estimate. */
  lemma {:induction false} FoldUntouched(e: Estimates, ss: seq<Sample>, t: Sector)
    requires t != Ignored
    requires forall i :: 0 <= i < |ss| ==> ss[i].sector != t || !ValidDistance(ss[i].distCm)
    ensures Field(Fold(e, ss), t) == Field(e, t)
  {
    if |ss| > 0 {
      FoldUntouched(e, ss[..|ss| - 1], t);
    }
  }

  /**
   * Bounded self-healing: across a run of samples an estimate grows by at
   * most DECAY_CM per sample, and never exceeds where it started plus that.
   */
  lemma {:induction false} FoldDecayBound(e: Estimates, ss: seq<Sample>, t: Sector)
    requires t != Ignored
    ensures Field(Fold(e, ss), t) <= Field(e, t) + |ss| as real * DECAY_CM
  {
    if |ss| > 0 {
      var ss' := ss[..|ss| - 1];
      FoldDecayBound(e, ss', t);
      var last := ss[|ss| - 1];
      if ValidDistance(last.distCm) && last.sector == t && last.distCm < Field(Fold(e, ss'), t) {
        assert Field(Fold(e, ss), t) < Field(Fold(e, ss'), t);
      }
    }
  }

  /**
   * Samples that keep landing in sector `t` without confirming its estimate
   * (each at least as far as the estimate it meets) raise it by exactly
   * DECAY_CM apiece.
   */
  lemma {:induction false} FoldDecaysExactly(e: Estimates, ss: seq<Sample>, t: Sector)
    requires t != Ignored
    requires forall i :: 0 <= i < |ss| ==>
      ss[i].sector == t && ValidDistance(ss[i].distCm) && ss[i].distCm >= Field(e, t) + i as real * DECAY_CM
    ensures Field(Fold(e, ss), t) == Field(e, t) + |ss| as real * DECAY_CM
  {
    if |ss| > 0 {
      FoldDecaysExactly(e, ss[..|ss| - 1], t);
    }
  }

  /** `ser.read(n)` on a port holding `stream[pos..]`: up to n bytes. */
  function ReadBytes(stream: seq<Byte>, pos: nat, n: nat): (chunk: seq<Byte>)
    requires pos <= |stream|
    ensures |chunk| == if pos + n <= |stream| then n else |stream| - pos
    ensures chunk == stream[pos..pos + |chunk|]
  {
    if pos + n <= |stream| then stream[pos..pos + n] else stream[pos..]
  }

  /** What one pass of the framing code finds at the head of the stream. */
  datatype Frame =
    | NoHeader          // the first byte read is not 0x54
    | BadSecondHeader   // 0x54 followed by anything but 0x2C
    | ShortPayload      // a header, then fewer than PAYLOAD_SIZE bytes
    | Complete(payload: seq<Byte>)

  /** One pass of the framing code: what it found and how many bytes it consumed. */
  function NextFrame(rest: seq<Byte>): (r: (Frame, nat))
    ensures r.1 <= |rest|
    ensures |rest| > 0 ==> r.1 > 0
    ensures |rest| > 0 && rest[0] != HEADER_BYTE_1 ==> r == (NoHeader, 1)
    ensures |rest| > 1 && rest[0] == HEADER_BYTE_1 && rest[1] != HEADER_BYTE_2 ==> r == (BadSecondHeader, 2)
    ensures r.0 == ShortPayload <==>
      |rest| >= 2 && rest[0] == HEADER_BYTE_1 && rest[1] == HEADER_BYTE_2 && |rest| < PACKET_SIZE
    ensures r.0.Complete? <==>
      |rest| >= PACKET_SIZE && rest[0] == HEADER_BYTE_1 && rest[1] == HEADER_BYTE_2
    ensures r.0.Complete? ==> r.0.payload == rest[2..PACKET_SIZE] && r.1 == PACKET_SIZE
    ensures r.0 == ShortPayload ==> r.1 == |rest|
  {
    var first := ReadBytes(rest, 0, 1);
    if first != [HEADER_BYTE_1] then (NoHeader, |first|)
    else
      var second := ReadBytes(rest, 1, 1);
      if second != [HEADER_BYTE_2] then (BadSecondHeader, 1 + |second|)
      else
        var data := ReadBytes(rest, 2, PAYLOAD_SIZE);
        if |data| != PAYLOAD_SIZE then (ShortPayload, 2 + |data|)
        else (Complete(data), 2 + |data|)
  }

  /**
   * The scan loop over a stream all of whose bytes are waiting: it frames
   * while more than PACKET_SIZE bytes remain, as the `in_waiting` gate demands.
   * Malformed input never corrupts the estimates.
   */
  function Scan(e: Estimates, stream: seq<Byte>): (r: Estimates)
    ensures Positive(e) ==> Positive(r)
    decreases |stream|
  {
    if |stream| <= PACKET_SIZE then e
    else
      var (frame, consumed) := NextFrame(stream);
      var e' := if frame.Complete? then ApplyPayload(e, frame.payload) else e;
      Scan(e', stream[consumed..])
  }

  /** One pass of the scan loop. */
  lemma ScanUnfold(e: Estimates, stream: seq<Byte>)
    requires |stream| > PACKET_SIZE
    ensures var r := NextFrame(stream);
      Scan(e, stream) == Scan(if r.0.Complete? then ApplyPayload(e, r.0.payload) else e, stream[r.1..])
  {
  }

  /** Under the `in_waiting` gate the payload read is never short. */
  lemma GateRulesOutShortPayload(rest: seq<Byte>)
    requires |rest| > PACKET_SIZE
    ensures NextFrame(rest).0 != ShortPayload
  {
  }

  /**
   * A stream in which 0x54 is never directly followed by 0x2C leaves the
   * estimates as they were: every pass skips one or two bytes.
   */
  lemma {:induction false} ScanNoHeader(e: Estimates, stream: seq<Byte>)
    requires forall i :: 0 <= i < |stream| - 1 ==> !(stream[i] == HEADER_BYTE_1 && stream[i + 1] == HEADER_BYTE_2)
    ensures Scan(e, stream) == e
    decreases |stream|
  {
    if |stream| > PACKET_SIZE {
      var (frame, consumed) := NextFrame(stream);
      assert !frame.Complete?;
      assert consumed == 1 || consumed == 2;
      var rest := stream[consumed..];
      assert forall i :: 0 <= i < |rest| ==> rest[i] == stream[consumed + i];
      ScanNoHeader(e, rest);
    }
  }

  /** The sensor-facing half of `LidarStrategy`: the three shared estimates. */
  class LidarStrategy {
    var frontDist: real
    var leftDist: real
    var rightDist: real

    function Estimate(): Estimates
      reads this
    {
      Estimates(frontDist, leftDist, rightDist)
    }

    ghost predicate Valid()
      reads this
    {
      Positive(Estimate())
    }

    constructor ()
      ensures Valid() && Estimate() == INITIAL
    {
      frontDist := SENTINEL_CM;
      leftDist := SENTINEL_CM;
      rightDist := SENTINEL_CM;
    }

    /** The per-sector update of one sample (the innermost `if` of the point loop). */
    method ApplySample(s: Sample)
      requires Valid()
      modifies this
      ensures Valid()
      ensures Estimate() == Update(old(Estimate()), s)
    {
      if 0.0 < s.distCm < MAX_VALID_DIST_CM {
        if s.sector == Front {
          if s.distCm < frontDist {
            frontDist := s.distCm;
          } else {
            frontDist := frontDist + DECAY_CM;
          }
        } else if s.sector == Left {
          if s.distCm < leftDist {
            leftDist := s.distCm;
          } else {
            leftDist := leftDist + DECAY_CM;
          }
        } else if s.sector == Right {
          if s.distCm < rightDist {
            rightDist := s.distCm;
          } else {
            rightDist := rightDist + DECAY_CM;
          }
        }
      }
    }

    /** One iteration of the per-point `for` loop: decode point `i` and fold it in. */
    method ApplyPoint(data: seq<Byte>, i: nat, startAngle: real, step: real)
      requires Valid() && |data| == PAYLOAD_SIZE && i < POINTS_PER_PACKET
      requires startAngle == StartAngle(data) && step == AngleStep(data)
      modifies this
      ensures Valid()
      ensures Estimate() == Update(old(Estimate()), DecodePoint(data, i))
    {
      var rawDistPos := FIRST_POINT_POS + i * POINT_STRIDE;
      var distMm := LE16(data[rawDistPos], data[rawDistPos + 1]);
      var distCm := distMm as real / MM_TO_CM;
      var rawAngle := RawAngle(startAngle, step, i);
      var correctedAngle := Mod360(rawAngle + LIDAR_OFFSET_DEG);
      var sector := GetSector(correctedAngle);
      ghost var sample := DecodePoint(data, i);
      assert Sample(correctedAngle, distCm, sector) == sample;
      ApplySample(Sample(correctedAngle, distCm, sector));
    }

    /** The angle header of a payload: the start angle and, after the seam fix, the step. */
    static method PayloadAngles(data: seq<Byte>) returns (startAngle: real, step: real)
      requires |data| == PAYLOAD_SIZE
      ensures startAngle == StartAngle(data) && step == AngleStep(data)
    {
      startAngle := StartAngle(data);
      var endAngle := RawEndAngle(data);
      if endAngle < startAngle {
        endAngle := endAngle + 360.0;
      }
      step := (endAngle - startAngle) / (POINTS_PER_PACKET - 1) as real;
    }

    /** The body of the scan loop after a complete payload: the per-point `for` loop. */
    method ProcessPayload(data: seq<Byte>)
      requires Valid() && |data| == PAYLOAD_SIZE
      modifies this
      ensures Valid()
      ensures Estimate() == ApplyPayload(old(Estimate()), data)
    {
      var startAngle, step := PayloadAngles(data);
      ghost var samples := Samples(data);
      for i := 0 to POINTS_PER_PACKET
        invariant Valid()
        invariant Estimate() == Fold(old(Estimate()), samples[..i])
      {
        assert samples[..i + 1][..i] == samples[..i];
        ApplyPoint(data, i, startAngle, step);
      }
      assert samples[..POINTS_PER_PACKET] == samples;
    }

    /**
     * One pass of the body of `_scan_loop` at `pos`: read and check the two
     * header bytes, read the payload and, when it is complete, process it.
     * Returns the position after the bytes it consumed.
     */
    method ReadFrame(stream: seq<Byte>, pos: nat) returns (next: nat)
      requires Valid() && pos <= |stream|
      modifies this
      ensures Valid()
      ensures var r := NextFrame(stream[pos..]);
        && next == pos + r.1
        && Estimate() == if r.0.Complete? then ApplyPayload(old(Estimate()), r.0.payload) else old(Estimate())
    {
      ghost var rest := stream[pos..];
      next := pos;
      var first := ReadBytes(stream, next, 1);
      next := next + |first|;
      if first != [HEADER_BYTE_1] {
        assert ReadBytes(rest, 0, 1) == first;
        return;
      }
      var second := ReadBytes(stream, next, 1);
      next := next + |second|;
      if second != [HEADER_BYTE_2] {
        assert ReadBytes(rest, 1, 1) == second;
        return;
      }
      var data := ReadBytes(stream, next, PAYLOAD_SIZE);
      next := next + |data|;
      assert ReadBytes(rest, 0, 1) == first && ReadBytes(rest, 1, 1) == second;
      assert ReadBytes(rest, 2, PAYLOAD_SIZE) == data;
      if |data| != PAYLOAD_SIZE {
        return;
      }
      ProcessPayload(data);
    }

    /** `_scan_loop` over the given bytes, all of them already waiting on the port. */
    method ScanLoop(stream: seq<Byte>)
      requires Valid()
      modifies this
      ensures Valid()
      ensures Estimate() == Scan(old(Estimate()), stream)
    {
      var pos := 0;
      while |stream| - pos > PACKET_SIZE
        invariant pos <= |stream|
        invariant Valid()
        invariant Scan(Estimate(), stream[pos..]) == Scan(old(Estimate()), stream)
        decreases |stream| - pos
      {
        ghost var rest := stream[pos..];
        ghost var r := NextFrame(rest);
        ScanUnfold(Estimate(), rest);
        pos := ReadFrame(stream, pos);
        assert stream[pos..] == rest[r.1..];
      }
    }

    /** `check_path`: the three estimates, read without changing them. */
    method CheckPath() returns (front: real, left: real, right: real)
      requires Valid()
      ensures Estimates(front, left, right) == Estimate()
      ensures front > 0.0 && left > 0.0 && right > 0.0
    {
      front, left, right := frontDist, leftDist, rightDist;
    }
  }
}
