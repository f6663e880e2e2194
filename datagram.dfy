/** The Forza Horizon 4 "data out" telemetry record: a fixed 324-byte
    little-endian layout. The physics block (`Sled`) is 58 naturally aligned
    4-byte fields; it is followed by four unknown bytes and two unknown
    floats, then the densely packed dashboard block (`Dash`, 79 bytes), then
    one unknown signed byte. `f32` fields are kept as their raw 32-bit
    patterns: decoding is a reinterpretation of bytes, never a conversion. */
module Datagram {
  import opened Primitives
  import opened Wire

  /** The bit pattern of an `f32` field, uninterpreted. */
  type F32Bits = uint32

  type Bytes4 = s: seq<uint8> | |s| == 4 witness [0, 0, 0, 0]

  datatype Vector<T> = Vector(x: T, y: T, z: T)

  datatype Quad<T> = Quad(frontLeft: T, frontRight: T, rearLeft: T, rearRight: T)

  datatype Sled = Sled(
    isRaceOn: int32,
    timestampMs: uint32,
    engineMaxRpm: F32Bits,
    engineIdleRpm: F32Bits,
    currentEngineRpm: F32Bits,
    acceleration: Vector<F32Bits>,
    velocity: Vector<F32Bits>,
    angularVelocity: Vector<F32Bits>,
    yaw: F32Bits,
    pitch: F32Bits,
    roll: F32Bits,
    normalizedSuspensionTravel: Quad<F32Bits>,
    tireSplitRatio: Quad<F32Bits>,
    wheelRotationSpeed: Quad<F32Bits>,
    wheelOnRumbleStrip: Quad<int32>,
    wheelInPuddleDepth: Quad<F32Bits>,
    surfaceRumble: Quad<F32Bits>,
    tireSlipAngle: Quad<F32Bits>,
    tireCombinedSlip: Quad<F32Bits>,
    suspensionTravelMeters: Quad<F32Bits>,
    carOrdinal: int32,
    carClass: int32,
    carPerformanceIndex: int32,
    drivetrainType: int32,
    numCylinders: int32)

  /** The packed dashboard block: 17 floats, a `u16` lap number, six `u8`
      and three `i8` fields, with no padding anywhere. */
  datatype Dash = Dash(
    position: Vector<F32Bits>,
    speed: F32Bits,
    power: F32Bits,
    torque: F32Bits,
    tireTemp: Quad<F32Bits>,
    boost: F32Bits,
    fuel: F32Bits,
    distanceTraveled: F32Bits,
    bestLap: F32Bits,
    lastLap: F32Bits,
    currentLap: F32Bits,
    currentRaceTime: F32Bits,
    lapNumber: uint16,
    racePosition: uint8,
    accel: uint8,
    brake: uint8,
    clutch: uint8,
    handBrake: uint8,
    gear: uint8,
    steer: int8,
    normalizedDrivingLine: int8,
    normalizedAiBrakeDifference: int8)

  datatype Horizon4Datagram = Horizon4Datagram(
    sled: Sled,
    unknown1: Bytes4,
    unknown2: F32Bits,
    unknown3: F32Bits,
    dash: Dash,
    unknown4: int8)

  const SLED_SIZE: nat := 232
  const DASH_SIZE: nat := 79
  const DATAGRAM_SIZE: nat := 324

  const SLED_OFFSET: nat := 0
  const UNKNOWN1_OFFSET: nat := 232
  const UNKNOWN2_OFFSET: nat := 236
  const UNKNOWN3_OFFSET: nat := 240
  const DASH_OFFSET: nat := 244
  const UNKNOWN4_OFFSET: nat := 323

  // ---------------------------------------------------------------------
  // Vectors and quads

  function VectorWords(v: Vector<F32Bits>): (r: seq<uint32>)
    ensures |WordsToBytes(r)| == 12
  {
    [v.x, v.y, v.z]
  }

  function QuadWords(q: Quad<F32Bits>): (r: seq<uint32>)
    ensures |WordsToBytes(r)| == 16
  {
    [q.frontLeft, q.frontRight, q.rearLeft, q.rearRight]
  }

  // ---------------------------------------------------------------------
  // The physics block as 58 consecutive words

  /** Word `k` of the physics block, in declaration order. */
  function SledWord(s: Sled, k: nat): uint32
    requires k < 58
  {
    match k
    case 0 => I32ToWord(s.isRaceOn)
    case 1 => s.timestampMs
    case 2 => s.engineMaxRpm
    case 3 => s.engineIdleRpm
    case 4 => s.currentEngineRpm
    case 5 => s.acceleration.x
    case 6 => s.acceleration.y
    case 7 => s.acceleration.z
    case 8 => s.velocity.x
    case 9 => s.velocity.y
    case 10 => s.velocity.z
    case 11 => s.angularVelocity.x
    case 12 => s.angularVelocity.y
    case 13 => s.angularVelocity.z
    case 14 => s.yaw
    case 15 => s.pitch
    case 16 => s.roll
    case 17 => s.normalizedSuspensionTravel.frontLeft
    case 18 => s.normalizedSuspensionTravel.frontRight
    case 19 => s.normalizedSuspensionTravel.rearLeft
    case 20 => s.normalizedSuspensionTravel.rearRight
    case 21 => s.tireSplitRatio.frontLeft
    case 22 => s.tireSplitRatio.frontRight
    case 23 => s.tireSplitRatio.rearLeft
    case 24 => s.tireSplitRatio.rearRight
    case 25 => s.wheelRotationSpeed.frontLeft
    case 26 => s.wheelRotationSpeed.frontRight
    case 27 => s.wheelRotationSpeed.rearLeft
    case 28 => s.wheelRotationSpeed.rearRight
    case 29 => I32ToWord(s.wheelOnRumbleStrip.frontLeft)
    case 30 => I32ToWord(s.wheelOnRumbleStrip.frontRight)
    case 31 => I32ToWord(s.wheelOnRumbleStrip.rearLeft)
    case 32 => I32ToWord(s.wheelOnRumbleStrip.rearRight)
    case 33 => s.wheelInPuddleDepth.frontLeft
    case 34 => s.wheelInPuddleDepth.frontRight
    case 35 => s.wheelInPuddleDepth.rearLeft
    case 36 => s.wheelInPuddleDepth.rearRight
    case 37 => s.surfaceRumble.frontLeft
    case 38 => s.surfaceRumble.frontRight
    case 39 => s.surfaceRumble.rearLeft
    case 40 => s.surfaceRumble.rearRight
    case 41 => s.tireSlipAngle.frontLeft
    case 42 => s.tireSlipAngle.frontRight
    case 43 => s.tireSlipAngle.rearLeft
    case 44 => s.tireSlipAngle.rearRight
    case 45 => s.tireCombinedSlip.frontLeft
    case 46 => s.tireCombinedSlip.frontRight
    case 47 => s.tireCombinedSlip.rearLeft
    case 48 => s.tireCombinedSlip.rearRight
    case 49 => s.suspensionTravelMeters.frontLeft
    case 50 => s.suspensionTravelMeters.frontRight
    case 51 => s.suspensionTravelMeters.rearLeft
    case 52 => s.suspensionTravelMeters.rearRight
    case 53 => I32ToWord(s.carOrdinal)
    case 54 => I32ToWord(s.carClass)
    case 55 => I32ToWord(s.carPerformanceIndex)
    case 56 => I32ToWord(s.drivetrainType)
    case _ => I32ToWord(s.numCylinders)
  }

  function SledWords(s: Sled): (ws: seq<uint32>)
    ensures |ws| == 58 && |WordsToBytes(ws)| == SLED_SIZE
  {
    seq(58, k requires 0 <= k < 58 => SledWord(s, k))
  }

  function SledOfWords(ws: seq<uint32>): (s: Sled)
    requires |ws| == 58
    ensures SledWords(s) == ws
  {
    var s := Sled(WordToI32(ws[0]), ws[1], ws[2], ws[3], ws[4],
      Vector(ws[5], ws[6], ws[7]),
      Vector(ws[8], ws[9], ws[10]),
      Vector(ws[11], ws[12], ws[13]),
      ws[14], ws[15], ws[16],
      Quad(ws[17], ws[18], ws[19], ws[20]),
      Quad(ws[21], ws[22], ws[23], ws[24]),
      Quad(ws[25], ws[26], ws[27], ws[28]),
      Quad(WordToI32(ws[29]), WordToI32(ws[30]), WordToI32(ws[31]), WordToI32(ws[32])),
      Quad(ws[33], ws[34], ws[35], ws[36]),
      Quad(ws[37], ws[38], ws[39], ws[40]),
      Quad(ws[41], ws[42], ws[43], ws[44]),
      Quad(ws[45], ws[46], ws[47], ws[48]),
      Quad(ws[49], ws[50], ws[51], ws[52]),
      WordToI32(ws[53]), WordToI32(ws[54]), WordToI32(ws[55]), WordToI32(ws[56]), WordToI32(ws[57]));
    assert forall k | 0 <= k < 58 :: SledWord(s, k) == ws[k];
    s
  }

  lemma SledOfSledWords(s: Sled)
    ensures SledOfWords(SledWords(s)) == s
  {
  }

  // ---------------------------------------------------------------------
  // The packed dashboard block

  function DashWords(d: Dash): (ws: seq<uint32>)
    ensures |ws| == 17
  {
    VectorWords(d.position)
      + [d.speed, d.power, d.torque]
      + QuadWords(d.tireTemp)
      + [d.boost, d.fuel, d.distanceTraveled, d.bestLap, d.lastLap, d.currentLap, d.currentRaceTime]
  }

  function DashSmallBytes(d: Dash): (b: seq<uint8>)
    ensures |b| == 9
  {
    [d.racePosition, d.accel, d.brake, d.clutch, d.handBrake, d.gear,
     I8ToByte(d.steer), I8ToByte(d.normalizedDrivingLine), I8ToByte(d.normalizedAiBrakeDifference)]
  }

  function DashBytes(d: Dash): (b: seq<uint8>)
    ensures |b| == DASH_SIZE
  {
    WordsToBytes(DashWords(d)) + U16Bytes(d.lapNumber) + DashSmallBytes(d)
  }

  function DashOfBytes(b: seq<uint8>): (d: Dash)
    requires |b| == DASH_SIZE
  {
    var ws := BytesToWords(b[..68]);
    Dash(Vector(ws[0], ws[1], ws[2]), ws[3], ws[4], ws[5],
      Quad(ws[6], ws[7], ws[8], ws[9]),
      ws[10], ws[11], ws[12], ws[13], ws[14], ws[15], ws[16],
      LeU16(b[68..70]),
      b[70], b[71], b[72], b[73], b[74], b[75],
      ByteToI8(b[76]), ByteToI8(b[77]), ByteToI8(b[78]))
  }

  lemma DashBytesOfDashOfBytes(b: seq<uint8>)
    requires |b| == DASH_SIZE
    ensures DashBytes(DashOfBytes(b)) == b
  {
    var d := DashOfBytes(b);
    var ws := BytesToWords(b[..68]);
    assert DashWords(d) == ws;
    WordsToBytesOfBytesToWords(b[..68]);
    assert DashSmallBytes(d) == b[70..];
    assert b == b[..68] + b[68..70] + b[70..];
  }

  lemma DashOfDashBytes(d: Dash)
    ensures DashOfBytes(DashBytes(d)) == d
  {
    var b := DashBytes(d);
    assert b[..68] == WordsToBytes(DashWords(d));
    assert b[68..70] == U16Bytes(d.lapNumber);
    BytesToWordsOfWordsToBytes(DashWords(d));
    LeU16OfU16Bytes(d.lapNumber);
    I8ToByteOfByte(I8ToByte(d.steer));
  }

  // ---------------------------------------------------------------------
  // The whole datagram

  function Encode(d: Horizon4Datagram): (b: seq<uint8>)
    ensures |b| == DATAGRAM_SIZE
  {
    WordsToBytes(SledWords(d.sled)) + d.unknown1 + WordsToBytes([d.unknown2, d.unknown3])
      + DashBytes(d.dash) + [I8ToByte(d.unknown4)]
  }

  /** The layout read from a buffer of exactly the datagram's size. */
  function FromBytes(b: seq<uint8>): Horizon4Datagram
    requires |b| == DATAGRAM_SIZE
  {
    var extra := BytesToWords(b[UNKNOWN2_OFFSET..DASH_OFFSET]);
    Horizon4Datagram(
      SledOfWords(BytesToWords(b[..UNKNOWN1_OFFSET])),
      b[UNKNOWN1_OFFSET..UNKNOWN2_OFFSET],
      extra[0], extra[1],
      DashOfBytes(b[DASH_OFFSET..UNKNOWN4_OFFSET]),
      ByteToI8(b[UNKNOWN4_OFFSET]))
  }

  datatype DecodeError = SizeMismatch(received: nat, expected: nat)

  /** A received buffer is accepted only when its size is exactly the
      datagram's; its contents are never validated. */
  function Decode(b: seq<uint8>): (r: Result<Horizon4Datagram, DecodeError>)
    ensures r.Ok? <==> |b| == DATAGRAM_SIZE
    ensures r.Err? ==> r.error == SizeMismatch(|b|, DATAGRAM_SIZE)
  {
    if |b| != DATAGRAM_SIZE then Err(SizeMismatch(|b|, DATAGRAM_SIZE)) else Ok(FromBytes(b))
  }

  lemma Split5(b: seq<uint8>, i: nat, j: nat, k: nat, l: nat)
    requires i <= j <= k <= l <= |b|
    ensures b == b[..i] + b[i..j] + b[j..k] + b[k..l] + b[l..]
  {
    assert b == b[..i] + b[i..];
    assert b[i..] == b[i..j] + b[j..];
    assert b[j..] == b[j..k] + b[k..];
    assert b[k..] == b[k..l] + b[l..];
  }

  lemma SledPartOfDecode(b: seq<uint8>)
    requires |b| == DATAGRAM_SIZE
    ensures WordsToBytes(SledWords(FromBytes(b).sled)) == b[..UNKNOWN1_OFFSET]
  {
    WordsToBytesOfBytesToWords(b[..UNKNOWN1_OFFSET]);
  }

  lemma ExtraPartOfDecode(b: seq<uint8>)
    requires |b| == DATAGRAM_SIZE
    ensures WordsToBytes([FromBytes(b).unknown2, FromBytes(b).unknown3]) == b[UNKNOWN2_OFFSET..DASH_OFFSET]
  {
    var p := b[UNKNOWN2_OFFSET..DASH_OFFSET];
    WordsToBytesOfBytesToWords(p);
    assert [FromBytes(b).unknown2, FromBytes(b).unknown3] == BytesToWords(p);
  }

  lemma DashPartOfDecode(b: seq<uint8>)
    requires |b| == DATAGRAM_SIZE
    ensures DashBytes(FromBytes(b).dash) == b[DASH_OFFSET..UNKNOWN4_OFFSET]
  {
    DashBytesOfDashOfBytes(b[DASH_OFFSET..UNKNOWN4_OFFSET]);
  }

  lemma EncodeOfDecode(b: seq<uint8>)
    requires |b| == DATAGRAM_SIZE
    ensures Decode(b).Ok? && Encode(Decode(b).value) == b
  {
    SledPartOfDecode(b);
    ExtraPartOfDecode(b);
    DashPartOfDecode(b);
    assert [I8ToByte(FromBytes(b).unknown4)] == b[UNKNOWN4_OFFSET..];
    Split5(b, UNKNOWN1_OFFSET, UNKNOWN2_OFFSET, DASH_OFFSET, UNKNOWN4_OFFSET);
  }

  lemma DecodeOfEncode(d: Horizon4Datagram)
    ensures Decode(Encode(d)) == Ok(d)
  {
    var b := Encode(d);
    var sledBytes := WordsToBytes(SledWords(d.sled));
    var extraBytes := WordsToBytes([d.unknown2, d.unknown3]);
    assert b[..UNKNOWN1_OFFSET] == sledBytes;
    assert b[UNKNOWN1_OFFSET..UNKNOWN2_OFFSET] == d.unknown1;
    assert b[UNKNOWN2_OFFSET..DASH_OFFSET] == extraBytes;
    assert b[DASH_OFFSET..UNKNOWN4_OFFSET] == DashBytes(d.dash);
    BytesToWordsOfWordsToBytes(SledWords(d.sled));
    BytesToWordsOfWordsToBytes([d.unknown2, d.unknown3]);
    SledOfSledWords(d.sled);
    DashOfDashBytes(d.dash);
  }

  /** The leading physics fields sit at offsets 0, 4, 8, 12 and 16. */
  lemma SledFieldOffsets(b: seq<uint8>)
    requires |b| == DATAGRAM_SIZE
    ensures Decode(b).Ok?
    ensures Decode(b).value.sled.isRaceOn == WordToI32(LeWord(b[0..4]))
    ensures Decode(b).value.sled.timestampMs == LeWord(b[4..8])
    ensures Decode(b).value.sled.engineMaxRpm == LeWord(b[8..12])
    ensures Decode(b).value.sled.engineIdleRpm == LeWord(b[12..16])
    ensures Decode(b).value.sled.currentEngineRpm == LeWord(b[16..20])
  {
    var sled := b[..UNKNOWN1_OFFSET];
    assert Decode(b).value.sled == SledOfWords(BytesToWords(sled));
    BytesToWordsAt(sled, 0);
    BytesToWordsAt(sled, 1);
    BytesToWordsAt(sled, 2);
    BytesToWordsAt(sled, 3);
    BytesToWordsAt(sled, 4);
    assert sled[0..4] == b[0..4] && sled[4..8] == b[4..8] && sled[8..12] == b[8..12];
    assert sled[12..16] == b[12..16] && sled[16..20] == b[16..20];
  }

  /** The dashboard fields read downstream: speed at 256, lap number at 312,
      race position at 314 (unsigned), driving line at 321 (signed). */
  lemma DashFieldOffsets(b: seq<uint8>)
    requires |b| == DATAGRAM_SIZE
    ensures Decode(b).Ok?
    ensures Decode(b).value.dash.speed == LeWord(b[256..260])
    ensures Decode(b).value.dash.lapNumber == LeU16(b[312..314])
    ensures Decode(b).value.dash.racePosition == b[314]
    ensures Decode(b).value.dash.normalizedDrivingLine == ByteToI8(b[321])
    ensures Decode(b).value.dash.normalizedAiBrakeDifference == ByteToI8(b[322])
  {
    var dash := b[DASH_OFFSET..UNKNOWN4_OFFSET];
    assert Decode(b).value.dash == DashOfBytes(dash);
    BytesToWordsAt(dash[..68], 3);
    assert forall i | 12 <= i < 16 :: dash[i] == b[244 + i];
    assert dash[..68][12..16] == dash[12..16] == b[256..260];
    assert dash[68..70] == b[312..314];
  }

  // ---------------------------------------------------------------------
  // `Serialize for Dash`: the packed block is copied field by field into an
  // unpacked twin whose derived serializer emits the fields in order.

  datatype FieldValue =
    | F32Value(bits: F32Bits)
    | F32Vector(vector: Vector<F32Bits>)
    | F32Quad(quad: Quad<F32Bits>)
    | U16Value(u16: uint16)
    | U8Value(u8: uint8)
    | I8Value(i8: int8)

  const DASH_FIELD_NAMES: seq<string> := [
    "position", "speed", "power", "torque", "tire_temp", "boost", "fuel",
    "distance_traveled", "best_lap", "last_lap", "current_lap", "current_race_time",
    "lap_number", "race_position", "accel", "brake", "clutch", "hand_brake", "gear",
    "steer", "normalized_driving_line", "normalized_ai_brake_difference"]

  function SerializeDash(d: Dash): (fields: seq<(string, FieldValue)>)
    ensures |fields| == |DASH_FIELD_NAMES| == 22
    ensures forall i :: 0 <= i < |fields| ==> fields[i].0 == DASH_FIELD_NAMES[i]
  {
    [("position", F32Vector(d.position)), ("speed", F32Value(d.speed)),
     ("power", F32Value(d.power)), ("torque", F32Value(d.torque)),
     ("tire_temp", F32Quad(d.tireTemp)), ("boost", F32Value(d.boost)),
     ("fuel", F32Value(d.fuel)), ("distance_traveled", F32Value(d.distanceTraveled)),
     ("best_lap", F32Value(d.bestLap)), ("last_lap", F32Value(d.lastLap)),
     ("current_lap", F32Value(d.currentLap)), ("current_race_time", F32Value(d.currentRaceTime)),
     ("lap_number", U16Value(d.lapNumber)), ("race_position", U8Value(d.racePosition)),
     ("accel", U8Value(d.accel)), ("brake", U8Value(d.brake)),
     ("clutch", U8Value(d.clutch)), ("hand_brake", U8Value(d.handBrake)),
     ("gear", U8Value(d.gear)), ("steer", I8Value(d.steer)),
     ("normalized_driving_line", I8Value(d.normalizedDrivingLine)),
     ("normalized_ai_brake_difference", I8Value(d.normalizedAiBrakeDifference))]
  }

  /** Reads a dashboard block back from its serialized fields, if every
      field carries a value of its declared type. */
  function DashOfFields(fs: seq<(string, FieldValue)>): Option<Dash>
  {
    if |fs| != 22 then None
    else if && fs[0].1.F32Vector? && fs[1].1.F32Value? && fs[2].1.F32Value? && fs[3].1.F32Value?
            && fs[4].1.F32Quad? && fs[5].1.F32Value? && fs[6].1.F32Value? && fs[7].1.F32Value?
            && fs[8].1.F32Value? && fs[9].1.F32Value? && fs[10].1.F32Value? && fs[11].1.F32Value?
            && fs[12].1.U16Value? && fs[13].1.U8Value? && fs[14].1.U8Value? && fs[15].1.U8Value?
            && fs[16].1.U8Value? && fs[17].1.U8Value? && fs[18].1.U8Value? && fs[19].1.I8Value?
            && fs[20].1.I8Value? && fs[21].1.I8Value?
    then Some(Dash(fs[0].1.vector, fs[1].1.bits, fs[2].1.bits, fs[3].1.bits, fs[4].1.quad,
                   fs[5].1.bits, fs[6].1.bits, fs[7].1.bits, fs[8].1.bits, fs[9].1.bits,
                   fs[10].1.bits, fs[11].1.bits, fs[12].1.u16, fs[13].1.u8, fs[14].1.u8,
                   fs[15].1.u8, fs[16].1.u8, fs[17].1.u8, fs[18].1.u8, fs[19].1.i8,
                   fs[20].1.i8, fs[21].1.i8))
    else None
  }

  /** Serialization loses nothing: every field value is emitted unchanged. */
  lemma SerializeDashRoundTrip(d: Dash)
    ensures DashOfFields(SerializeDash(d)) == Some(d)
  {
  }
}
