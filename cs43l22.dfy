/**
 * The CS43L22 audio codec driver: the volume encoding, the read-modify-write
 * bit updates of the power and clocking registers, and the ordered register
 * writes of start-up and shut-down. The I2C transactions become reads and
 * writes of a register map; every write and every change of the reset pin is
 * appended to a trace so that the order of the writes can be stated.
 *
 * The register addresses, bit positions and power values come from a memory-map
 * header of the driver that is not part of this model, so they are parameters
 * (a `MemMap`) constrained only as the datasheet's register layout requires:
 * distinct registers, distinct bit positions below 8.
 */
module Cs43l22 {

  import opened Common

  // ---------------------------------------------------------------------------
  // Volume encoding

  /**
   * `REARRANGE_VOL`: the player's volume 0..255 as a MASTER_x_VOL code. The
   * code is the volume shifted by 25 modulo 256, so volume 0 is code 25
   * (-102 dB) and volume 255 is code 24 (+12 dB).
   */
  function RearrangeVol(volume: Byte): (code: Byte)
    ensures code == (volume + 25) % 256
  {
    if 231 <= volume <= 255 then volume - 231 else volume + 25
  }

  /** The volume a MASTER_x_VOL code stands for: the inverse of `RearrangeVol`. */
  function VolumeOf(code: Byte): (volume: Byte)
    ensures volume == (code + 231) % 256
  {
    if code <= 24 then code + 231 else code - 25
  }

  /** The remap is a bijection on 0..255: `VolumeOf` undoes it and it undoes `VolumeOf`. */
  lemma RearrangeVolBijective(volume: Byte, code: Byte)
    ensures VolumeOf(RearrangeVol(volume)) == volume
    ensures RearrangeVol(VolumeOf(code)) == code
    ensures RearrangeVol(volume) == RearrangeVol(code) ==> volume == code
  {
  }

  lemma RearrangeVolEnds()
    ensures RearrangeVol(0) == 25 && RearrangeVol(255) == 24
  {
  }

  // ---------------------------------------------------------------------------
  // Bits of a register value

  type BitPos = p: int | 0 <= p < 8

  function Mask(p: BitPos): bv8
  {
    match p
    case 0 => 0x01
    case 1 => 0x02
    case 2 => 0x04
    case 3 => 0x08
    case 4 => 0x10
    case 5 => 0x20
    case 6 => 0x40
    case 7 => 0x80
  }

  predicate Bit(v: bv8, p: BitPos)
  {
    v & Mask(p) != 0
  }

  /** Two register values that agree on every bit are equal. */
  lemma {:induction false} BitsDetermine(a: bv8, b: bv8)
    requires forall q: BitPos :: Bit(a, q) == Bit(b, q)
    ensures a == b
  {
    assert Bit(a, 0) == Bit(b, 0) && Bit(a, 1) == Bit(b, 1);
    assert Bit(a, 2) == Bit(b, 2) && Bit(a, 3) == Bit(b, 3);
    assert Bit(a, 4) == Bit(b, 4) && Bit(a, 5) == Bit(b, 5);
    assert Bit(a, 6) == Bit(b, 6) && Bit(a, 7) == Bit(b, 7);
  }

  /** `Val |= 1 << p` */
  function SetBit(v: bv8, p: BitPos): bv8
  {
    v | Mask(p)
  }

  /** `Val &= ~(1 << p)` */
  function ClearBit(v: bv8, p: BitPos): bv8
  {
    v & !Mask(p)
  }

  lemma SetBitBits(v: bv8, p: BitPos)
    ensures Bit(SetBit(v, p), p)
    ensures forall q: BitPos :: q != p ==> Bit(SetBit(v, p), q) == Bit(v, q)
  {
  }

  lemma ClearBitBits(v: bv8, p: BitPos)
    ensures !Bit(ClearBit(v, p), p)
    ensures forall q: BitPos :: q != p ==> Bit(ClearBit(v, p), q) == Bit(v, q)
  {
  }

  // ---------------------------------------------------------------------------
  // The memory map

  /** Register addresses, power values and bit positions of the codec. */
  datatype MemMap = MemMap(
    powerCtl1: Byte, powerCtl2: Byte, clockingCtl: Byte, interfaceCtl1: Byte,
    miscCtl: Byte, masterAVol: Byte, masterBVol: Byte,
    poweredDown: bv8, poweredUp: bv8,
    hpa1: BitPos, hpa0: BitPos, hpb1: BitPos, hpb0: BitPos,
    spka1: BitPos, spka0: BitPos, spkb1: BitPos, spkb0: BitPos,
    autoClock: BitPos,
    ms: BitPos, invSclk: BitPos, dsp: BitPos, dacdif1: BitPos, dacdif0: BitPos,
    awl1: BitPos, awl0: BitPos)
  {
    function Registers(): seq<Byte>
    {
      [powerCtl1, powerCtl2, clockingCtl, interfaceCtl1, miscCtl, masterAVol, masterBVol]
    }

    /** The eight bit positions of POWER_CTL2: two for each headphone and speaker channel. */
    function PowerCtl2Fields(): seq<BitPos>
    {
      [hpa1, hpa0, hpb1, hpb0, spka1, spka0, spkb1, spkb0]
    }

    function InterfaceFields(): seq<BitPos>
    {
      [ms, invSclk, dsp, dacdif1, dacdif0, awl1, awl0]
    }

    predicate Valid()
    {
      Distinct(Registers()) && Distinct(PowerCtl2Fields()) && Distinct(InterfaceFields()) &&
      poweredDown != poweredUp
    }

    /** q belongs to one of the two headphone fields of POWER_CTL2. */
    predicate HpBit(q: BitPos)
    {
      q == hpa1 || q == hpa0 || q == hpb1 || q == hpb0
    }

    /** q belongs to one of the two speaker fields of POWER_CTL2. */
    predicate SpkBit(q: BitPos)
    {
      q == spka1 || q == spka0 || q == spkb1 || q == spkb0
    }
  }

  /** Every register of the map is present in regs. */
  predicate RegistersPresent(mm: MemMap, regs: map<Byte, bv8>)
  {
    mm.powerCtl1 in regs && mm.powerCtl2 in regs && mm.clockingCtl in regs && mm.interfaceCtl1 in regs &&
    mm.miscCtl in regs && mm.masterAVol in regs && mm.masterBVol in regs
  }

  /** The consequences of a valid memory map that the driver's proofs use. */
  lemma {:induction false} LayoutFacts(mm: MemMap)
    requires mm.Valid()
    ensures mm.hpa1 != mm.hpa0 && mm.hpb1 != mm.hpb0 && mm.hpa1 != mm.hpb0 && mm.hpa0 != mm.hpb1
    ensures mm.hpa1 != mm.hpb1 && mm.hpa0 != mm.hpb0
    ensures mm.powerCtl1 != mm.powerCtl2 && mm.powerCtl1 != mm.clockingCtl && mm.powerCtl1 != mm.interfaceCtl1
    ensures mm.powerCtl1 != mm.miscCtl && mm.powerCtl1 != mm.masterAVol && mm.powerCtl1 != mm.masterBVol
    ensures mm.powerCtl2 != mm.clockingCtl && mm.powerCtl2 != mm.interfaceCtl1 && mm.powerCtl2 != mm.miscCtl
    ensures mm.powerCtl2 != mm.masterAVol && mm.powerCtl2 != mm.masterBVol
    ensures mm.clockingCtl != mm.interfaceCtl1 && mm.clockingCtl != mm.masterAVol && mm.clockingCtl != mm.masterBVol
    ensures mm.interfaceCtl1 != mm.masterAVol && mm.interfaceCtl1 != mm.masterBVol && mm.masterAVol != mm.masterBVol
  {
    var r := mm.Registers();
    assert r[0] != r[1] && r[0] != r[2] && r[0] != r[3] && r[0] != r[4] && r[0] != r[5] && r[0] != r[6];
    assert r[1] != r[2] && r[1] != r[3] && r[1] != r[4] && r[1] != r[5] && r[1] != r[6];
    assert r[2] != r[3] && r[2] != r[5] && r[2] != r[6] && r[3] != r[5] && r[3] != r[6] && r[5] != r[6];
    var f := mm.PowerCtl2Fields();
    assert f[0] != f[1] && f[2] != f[3] && f[0] != f[3] && f[1] != f[2] && f[0] != f[2] && f[1] != f[3];
  }

  predicate Distinct<T(==)>(s: seq<T>)
  {
    forall i, j :: 0 <= i < j < |s| ==> s[i] != s[j]
  }

  // ---------------------------------------------------------------------------
  // Power Control 2 transforms. Per the CS43L22 datasheet a two-bit power-down
  // field holds "10" for "always on" and "11" for "always off".

  /** `Enable{Left,Right}HP` on the field (hi, lo): set hi, then clear lo. */
  function EnableField(v: bv8, hi: BitPos, lo: BitPos): bv8
  {
    ClearBit(SetBit(v, hi), lo)
  }

  /** `Disable{Left,Right}{HP,SPK}` on the field (hi, lo): set hi, then set lo. */
  function DisableField(v: bv8, hi: BitPos, lo: BitPos): bv8
  {
    SetBit(SetBit(v, hi), lo)
  }

  /** Enabling a field makes it "10" (always on) and changes no other bit. */
  lemma {:induction false} EnableFieldBits(v: bv8, hi: BitPos, lo: BitPos)
    requires hi != lo
    ensures var r := EnableField(v, hi, lo);
            Bit(r, hi) && !Bit(r, lo) &&
            forall q: BitPos :: q != hi && q != lo ==> Bit(r, q) == Bit(v, q)
  {
    SetBitBits(v, hi);
    ClearBitBits(SetBit(v, hi), lo);
  }

  /** Disabling a field makes it "11" (always off) and changes no other bit. */
  lemma {:induction false} DisableFieldBits(v: bv8, hi: BitPos, lo: BitPos)
    ensures var r := DisableField(v, hi, lo);
            Bit(r, hi) && Bit(r, lo) &&
            forall q: BitPos :: q != hi && q != lo ==> Bit(r, q) == Bit(v, q)
  {
    SetBitBits(v, hi);
    SetBitBits(SetBit(v, hi), lo);
  }

  /** POWER_CTL2 after `CS43L22_Mute`: left, then right headphone field disabled. */
  function MuteValue(mm: MemMap, v: bv8): bv8
  {
    DisableField(DisableField(v, mm.hpa1, mm.hpa0), mm.hpb1, mm.hpb0)
  }

  /** POWER_CTL2 after `CS43L22_Unmute`: left, then right headphone field enabled. */
  function UnmuteValue(mm: MemMap, v: bv8): bv8
  {
    EnableField(EnableField(v, mm.hpa1, mm.hpa0), mm.hpb1, mm.hpb0)
  }

  /** Muting turns both headphone channels "11" (always off) and changes nothing else. */
  lemma {:induction false} MuteValueBits(mm: MemMap, v: bv8)
    ensures var r := MuteValue(mm, v);
            Bit(r, mm.hpa1) && Bit(r, mm.hpa0) && Bit(r, mm.hpb1) && Bit(r, mm.hpb0) &&
            forall q: BitPos :: !mm.HpBit(q) ==> Bit(r, q) == Bit(v, q)
  {
    DisableFieldBits(v, mm.hpa1, mm.hpa0);
    DisableFieldBits(DisableField(v, mm.hpa1, mm.hpa0), mm.hpb1, mm.hpb0);
  }

  /** Unmuting turns both headphone channels "10" (always on) and changes nothing else. */
  lemma {:induction false} UnmuteValueBits(mm: MemMap, v: bv8)
    requires mm.Valid()
    ensures var r := UnmuteValue(mm, v);
            Bit(r, mm.hpa1) && !Bit(r, mm.hpa0) && Bit(r, mm.hpb1) && !Bit(r, mm.hpb0) &&
            forall q: BitPos :: !mm.HpBit(q) ==> Bit(r, q) == Bit(v, q)
  {
    LayoutFacts(mm);
    EnableFieldBits(v, mm.hpa1, mm.hpa0);
    EnableFieldBits(EnableField(v, mm.hpa1, mm.hpa0), mm.hpb1, mm.hpb0);
  }

  /** Muting twice is muting once. */
  lemma {:induction false} MuteIdempotent(mm: MemMap, v: bv8)
    ensures MuteValue(mm, MuteValue(mm, v)) == MuteValue(mm, v)
  {
    var once := MuteValue(mm, v);
    var twice := MuteValue(mm, once);
    MuteValueBits(mm, v);
    MuteValueBits(mm, once);
    BitsDetermine(twice, once);
  }

  /** Unmuting twice is unmuting once. */
  lemma {:induction false} UnmuteIdempotent(mm: MemMap, v: bv8)
    requires mm.Valid()
    ensures UnmuteValue(mm, UnmuteValue(mm, v)) == UnmuteValue(mm, v)
  {
    var once := UnmuteValue(mm, v);
    var twice := UnmuteValue(mm, once);
    UnmuteValueBits(mm, v);
    UnmuteValueBits(mm, once);
    BitsDetermine(twice, once);
  }

  /**
   * Mute then unmute gives what unmuting alone gives, so every bit outside the
   * headphone fields is as it was before the mute.
   */
  lemma {:induction false} UnmuteAfterMute(mm: MemMap, v: bv8)
    requires mm.Valid()
    ensures UnmuteValue(mm, MuteValue(mm, v)) == UnmuteValue(mm, v)
    ensures forall q: BitPos :: !mm.HpBit(q) ==> Bit(UnmuteValue(mm, MuteValue(mm, v)), q) == Bit(v, q)
  {
    var a := UnmuteValue(mm, MuteValue(mm, v));
    var b := UnmuteValue(mm, v);
    MuteValueBits(mm, v);
    UnmuteValueBits(mm, MuteValue(mm, v));
    UnmuteValueBits(mm, v);
    BitsDetermine(a, b);
  }

  /** Unmute then mute gives what muting alone gives. */
  lemma {:induction false} MuteAfterUnmute(mm: MemMap, v: bv8)
    requires mm.Valid()
    ensures MuteValue(mm, UnmuteValue(mm, v)) == MuteValue(mm, v)
  {
    var a := MuteValue(mm, UnmuteValue(mm, v));
    var b := MuteValue(mm, v);
    UnmuteValueBits(mm, v);
    MuteValueBits(mm, UnmuteValue(mm, v));
    MuteValueBits(mm, v);
    BitsDetermine(a, b);
  }

  /** POWER_CTL2 after `CS43L22_DisableLeftSPK` and then `CS43L22_DisableRightSPK`. */
  function SpeakersOffValue(mm: MemMap, v: bv8): bv8
  {
    DisableField(DisableField(v, mm.spka1, mm.spka0), mm.spkb1, mm.spkb0)
  }

  /** Disabling the speakers turns both speaker fields "11" and changes nothing else. */
  lemma {:induction false} SpeakersOffBits(mm: MemMap, v: bv8)
    ensures var r := SpeakersOffValue(mm, v);
            (forall q: BitPos :: mm.SpkBit(q) ==> Bit(r, q)) &&
            (forall q: BitPos :: !mm.SpkBit(q) ==> Bit(r, q) == Bit(v, q))
  {
    DisableFieldBits(v, mm.spka1, mm.spka0);
    DisableFieldBits(DisableField(v, mm.spka1, mm.spka0), mm.spkb1, mm.spkb0);
  }

  /** CLOCKING_CTL after `CS43L22_AutoDetectClock`. */
  function AutoClockValue(mm: MemMap, v: bv8): bv8
  {
    SetBit(v, mm.autoClock)
  }

  /** `AutoDetectClock` sets the AUTO bit and no other bit. */
  lemma {:induction false} AutoClockBits(mm: MemMap, v: bv8)
    ensures Bit(AutoClockValue(mm, v), mm.autoClock)
    ensures forall q: BitPos :: q != mm.autoClock ==> Bit(AutoClockValue(mm, v), q) == Bit(v, q)
  {
    SetBitBits(v, mm.autoClock);
  }

  /** INTERFACE_CTL1 as `CS43L22_I2SInterface` builds it, starting from 0. */
  function InterfaceValue(mm: MemMap): bv8
  {
    var v := ClearBit(ClearBit(ClearBit(ClearBit(0, mm.ms), mm.invSclk), mm.dsp), mm.dacdif1);
    SetBit(SetBit(SetBit(v, mm.dacdif0), mm.awl1), mm.awl0)
  }

  /**
   * The interface word is slave, clock not inverted, no DSP mode, I2S up to
   * 24-bit data, 16-bit words: exactly DACDIF0, AWL1 and AWL0 are set.
   */
  lemma {:induction false} InterfaceValueBits(mm: MemMap)
    ensures forall q: BitPos :: Bit(InterfaceValue(mm), q) <==> (q == mm.dacdif0 || q == mm.awl1 || q == mm.awl0)
  {
    var v0 := ClearBit(ClearBit(ClearBit(ClearBit(0, mm.ms), mm.invSclk), mm.dsp), mm.dacdif1);
    forall q: BitPos ensures !Bit(v0, q) {
      ClearBitBits(0, mm.ms);
      ClearBitBits(ClearBit(0, mm.ms), mm.invSclk);
      ClearBitBits(ClearBit(ClearBit(0, mm.ms), mm.invSclk), mm.dsp);
      ClearBitBits(ClearBit(ClearBit(ClearBit(0, mm.ms), mm.invSclk), mm.dsp), mm.dacdif1);
    }
    SetBitBits(v0, mm.dacdif0);
    SetBitBits(SetBit(v0, mm.dacdif0), mm.awl1);
    SetBitBits(SetBit(SetBit(v0, mm.dacdif0), mm.awl1), mm.awl0);
  }

  /** POWER_CTL2 at the end of `CS43L22_Init`: headphones enabled, speakers off, then muted or unmuted. */
  function InitPowerCtl2(mm: MemMap, v: bv8, muted: bool): bv8
  {
    var configured := SpeakersOffValue(mm, UnmuteValue(mm, v));
    if muted then MuteValue(mm, configured) else UnmuteValue(mm, configured)
  }

  /** The headphone and speaker fields of POWER_CTL2 do not share a bit. */
  lemma {:induction false} HpSpkDisjoint(mm: MemMap)
    requires mm.Valid()
    ensures forall q: BitPos :: mm.SpkBit(q) ==> !mm.HpBit(q)
  {
    var f := mm.PowerCtl2Fields();
    assert f[0] == mm.hpa1 && f[1] == mm.hpa0 && f[2] == mm.hpb1 && f[3] == mm.hpb0;
    assert f[4] == mm.spka1 && f[5] == mm.spka0 && f[6] == mm.spkb1 && f[7] == mm.spkb0;
    assert f[0] != f[4] && f[0] != f[5] && f[0] != f[6] && f[0] != f[7];
    assert f[1] != f[4] && f[1] != f[5] && f[1] != f[6] && f[1] != f[7];
    assert f[2] != f[4] && f[2] != f[5] && f[2] != f[6] && f[2] != f[7];
    assert f[3] != f[4] && f[3] != f[5] && f[3] != f[6] && f[3] != f[7];
  }

  /**
   * Whatever POWER_CTL2 held, `Init` leaves both speakers "11" and both
   * headphones "11" when muted or "10" when not.
   */
  lemma {:induction false} InitPowerCtl2Fields(mm: MemMap, v: bv8, muted: bool)
    requires mm.Valid()
    ensures forall q: BitPos :: mm.SpkBit(q) ==> Bit(InitPowerCtl2(mm, v, muted), q)
    ensures var r := InitPowerCtl2(mm, v, muted);
            Bit(r, mm.hpa1) && Bit(r, mm.hpb1) && Bit(r, mm.hpa0) == muted && Bit(r, mm.hpb0) == muted
  {
    HpSpkDisjoint(mm);
    var configured := SpeakersOffValue(mm, UnmuteValue(mm, v));
    SpeakersOffBits(mm, UnmuteValue(mm, v));
    if muted {
      MuteValueBits(mm, configured);
    } else {
      UnmuteValueBits(mm, configured);
    }
  }

  // ---------------------------------------------------------------------------
  // The codec as the driver drives it

  /** The four POWER_CTL2 writes that turn both headphones on and both speakers off, from c2. */
  function OutputOps(mm: MemMap, c2: bv8): seq<BusOp>
  {
    var w1 := EnableField(c2, mm.hpa1, mm.hpa0);
    var w2 := EnableField(w1, mm.hpb1, mm.hpb0);
    var w3 := DisableField(w2, mm.spka1, mm.spka0);
    [Write(mm.powerCtl2, w1), Write(mm.powerCtl2, w2),
     Write(mm.powerCtl2, w3), Write(mm.powerCtl2, DisableField(w3, mm.spkb1, mm.spkb0))]
  }

  /** The two POWER_CTL2 writes of `CS43L22_Mute`, from c2. */
  function MuteOps(mm: MemMap, c2: bv8): seq<BusOp>
  {
    [Write(mm.powerCtl2, DisableField(c2, mm.hpa1, mm.hpa0)), Write(mm.powerCtl2, MuteValue(mm, c2))]
  }

  /** The two POWER_CTL2 writes of `CS43L22_Unmute`, from c2. */
  function UnmuteOps(mm: MemMap, c2: bv8): seq<BusOp>
  {
    [Write(mm.powerCtl2, EnableField(c2, mm.hpa1, mm.hpa0)), Write(mm.powerCtl2, UnmuteValue(mm, c2))]
  }

  /** The two writes of `CS43L22_SetVolume`. */
  function VolumeOps(mm: MemMap, volume: Byte): seq<BusOp>
  {
    var code := RearrangeVol(volume) as bv8;
    [Write(mm.masterAVol, code), Write(mm.masterBVol, code)]
  }

  /** The CLOCKING_CTL and INTERFACE_CTL1 writes of `CS43L22_Init`, from CLOCKING_CTL cc. */
  function InterfaceOps(mm: MemMap, cc: bv8): seq<BusOp>
  {
    [Write(mm.clockingCtl, AutoClockValue(mm, cc)), Write(mm.interfaceCtl1, InterfaceValue(mm))]
  }

  /** The writes of the mute or unmute step of `CS43L22_Init`, from c2. */
  function HeadphoneOps(mm: MemMap, c2: bv8, muted: bool): seq<BusOp>
  {
    if muted then MuteOps(mm, c2) else UnmuteOps(mm, c2)
  }

  /** The ten writes of `CS43L22_Init` between power-down and power-up, from POWER_CTL2 c2 and CLOCKING_CTL cc. */
  function ConfigureOps(mm: MemMap, c2: bv8, cc: bv8, muted: bool, volume: Byte): seq<BusOp>
  {
    OutputOps(mm, c2) + InterfaceOps(mm, cc)
      + HeadphoneOps(mm, SpeakersOffValue(mm, UnmuteValue(mm, c2)), muted) + VolumeOps(mm, volume)
  }

  /** Everything `CS43L22_Init` does on the bus and the reset line. */
  function InitOps(mm: MemMap, c2: bv8, cc: bv8, muted: bool, volume: Byte): seq<BusOp>
  {
    [ResetPin(true), Write(mm.powerCtl1, mm.poweredDown)]
      + ConfigureOps(mm, c2, cc, muted, volume)
      + [Write(mm.powerCtl1, mm.poweredUp)]
  }

  /**
   * The power sequence of `CS43L22_Init`: the reset pin is raised, POWER_CTL1 is
   * powered down by the first write and powered up by the last, and no write in
   * between touches POWER_CTL1; the last volume written is the remapped volume.
   */
  lemma {:induction false} InitPowerSequence(mm: MemMap, c2: bv8, cc: bv8, muted: bool, volume: Byte)
    requires mm.Valid()
    ensures var ops := InitOps(mm, c2, cc, muted, volume);
            |ops| == 13 && ops[0] == ResetPin(true) &&
            ops[1] == Write(mm.powerCtl1, mm.poweredDown) &&
            ops[12] == Write(mm.powerCtl1, mm.poweredUp) &&
            (forall k :: 1 < k < 12 ==> ops[k].Write? && ops[k].reg != mm.powerCtl1) &&
            ops[10] == Write(mm.masterAVol, RearrangeVol(volume) as bv8) &&
            ops[11] == Write(mm.masterBVol, RearrangeVol(volume) as bv8)
  {
    LayoutFacts(mm);
  }

  /** Overwriting a map entry again after two updates elsewhere is the same as writing the final value first. */
  lemma ReorderUpdates<K, V>(m: map<K, V>, a: K, b: K, c: K, x: V, y: V, z: V, w: V)
    requires a != b && a != c
    ensures m[a := x][b := y][c := z][a := w] == m[a := w][b := y][c := z]
  {
  }

  /** The registers after the configuration part of `CS43L22_Init`, from registers r. */
  function ConfiguredRegs(mm: MemMap, r: map<Byte, bv8>, muted: bool, volume: Byte): map<Byte, bv8>
    requires RegistersPresent(mm, r)
  {
    var code := RearrangeVol(volume) as bv8;
    r[mm.powerCtl2 := InitPowerCtl2(mm, r[mm.powerCtl2], muted)]
     [mm.clockingCtl := AutoClockValue(mm, r[mm.clockingCtl])]
     [mm.interfaceCtl1 := InterfaceValue(mm)]
     [mm.masterAVol := code][mm.masterBVol := code]
  }

  /** Powering down before the configuration leaves nothing behind once POWER_CTL1 is powered up. */
  lemma ConfiguredRegsShadowPower(mm: MemMap, r: map<Byte, bv8>, muted: bool, volume: Byte)
    requires mm.Valid() && RegistersPresent(mm, r)
    ensures RegistersPresent(mm, r[mm.powerCtl1 := mm.poweredDown])
    ensures ConfiguredRegs(mm, r[mm.powerCtl1 := mm.poweredDown], muted, volume)[mm.powerCtl1 := mm.poweredUp]
         == ConfiguredRegs(mm, r, muted, volume)[mm.powerCtl1 := mm.poweredUp]
  {
    LayoutFacts(mm);
    var r1 := r[mm.powerCtl1 := mm.poweredDown];
    assert r1[mm.powerCtl2] == r[mm.powerCtl2] && r1[mm.clockingCtl] == r[mm.clockingCtl];
    var code := RearrangeVol(volume) as bv8;
    ShadowedUpdate(r, mm.powerCtl1, mm.poweredDown, mm.poweredUp,
      mm.powerCtl2, InitPowerCtl2(mm, r[mm.powerCtl2], muted),
      mm.clockingCtl, AutoClockValue(mm, r[mm.clockingCtl]),
      mm.interfaceCtl1, InterfaceValue(mm), mm.masterAVol, code, mm.masterBVol, code);
  }

  /** A map entry written before five other updates and then overwritten keeps no trace of the first write. */
  lemma ShadowedUpdate<K, V>(m: map<K, V>, a: K, x: V, w: V, b1: K, v1: V, b2: K, v2: V, b3: K, v3: V,
                             b4: K, v4: V, b5: K, v5: V)
    ensures m[a := x][b1 := v1][b2 := v2][b3 := v3][b4 := v4][b5 := v5][a := w]
         == m[b1 := v1][b2 := v2][b3 := v3][b4 := v4][b5 := v5][a := w]
  {
  }

  /** What the driver puts on the I2C bus or the reset line, in order. */
  datatype BusOp = Write(reg: Byte, val: bv8) | ResetPin(high: bool)

  class Codec {
    const mm: MemMap
    /** The codec's registers as the I2C bus reads them. */
    var regs: map<Byte, bv8>
    /** Every register write and reset-pin change so far. */
    var trace: seq<BusOp>

    ghost predicate Valid()
      reads this
    {
      mm.Valid() && RegistersPresent(mm, regs)
    }

    constructor (mm: MemMap, regs: map<Byte, bv8>)
      requires mm.Valid() && RegistersPresent(mm, regs)
      ensures Valid() && this.mm == mm && this.regs == regs && trace == []
    {
      this.mm := mm;
      this.regs := regs;
      trace := [];
    }

    /** `CS43L22_I2CReadReg` */
    method ReadReg(reg: Byte) returns (val: bv8)
      requires reg in regs
      ensures val == regs[reg]
    {
      val := regs[reg];
    }

    /** `CS43L22_I2CWriteReg` */
    method WriteReg(reg: Byte, val: bv8)
      requires Valid()
      modifies this
      ensures Valid()
      ensures regs == old(regs)[reg := val] && trace == old(trace) + [Write(reg, val)]
    {
      regs := regs[reg := val];
      trace := trace + [Write(reg, val)];
    }

    method PullUpReset()
      requires Valid()
      modifies this
      ensures Valid() && regs == old(regs) && trace == old(trace) + [ResetPin(true)]
    {
      trace := trace + [ResetPin(true)];
    }

    method PullDownReset()
      requires Valid()
      modifies this
      ensures Valid() && regs == old(regs) && trace == old(trace) + [ResetPin(false)]
    {
      trace := trace + [ResetPin(false)];
    }

    method PowerDown()
      requires Valid()
      modifies this
      ensures Valid()
      ensures regs == old(regs)[mm.powerCtl1 := mm.poweredDown]
      ensures trace == old(trace) + [Write(mm.powerCtl1, mm.poweredDown)]
    {
      WriteReg(mm.powerCtl1, mm.poweredDown);
    }

    method PowerUp()
      requires Valid()
      modifies this
      ensures Valid()
      ensures regs == old(regs)[mm.powerCtl1 := mm.poweredUp]
      ensures trace == old(trace) + [Write(mm.powerCtl1, mm.poweredUp)]
    {
      WriteReg(mm.powerCtl1, mm.poweredUp);
    }

    /** Read-modify-write of POWER_CTL2 that sets the field (hi, lo) to "10". */
    method EnableHp(hi: BitPos, lo: BitPos)
      requires Valid()
      modifies this
      ensures Valid()
      ensures var v := EnableField(old(regs)[mm.powerCtl2], hi, lo);
              regs == old(regs)[mm.powerCtl2 := v] && trace == old(trace) + [Write(mm.powerCtl2, v)]
    {
      var val := ReadReg(mm.powerCtl2);
      val := SetBit(val, hi);
      val := ClearBit(val, lo);
      WriteReg(mm.powerCtl2, val);
    }

    /** Read-modify-write of POWER_CTL2 that sets the field (hi, lo) to "11". */
    method DisableHpOrSpk(hi: BitPos, lo: BitPos)
      requires Valid()
      modifies this
      ensures Valid()
      ensures var v := DisableField(old(regs)[mm.powerCtl2], hi, lo);
              regs == old(regs)[mm.powerCtl2 := v] && trace == old(trace) + [Write(mm.powerCtl2, v)]
    {
      var val := ReadReg(mm.powerCtl2);
      val := SetBit(val, hi);
      val := SetBit(val, lo);
      WriteReg(mm.powerCtl2, val);
    }

    /** `CS43L22_Mute`: left, then right headphone channel always off. */
    method Mute()
      requires Valid()
      modifies this
      ensures Valid()
      ensures regs == old(regs)[mm.powerCtl2 := MuteValue(mm, old(regs)[mm.powerCtl2])]
      ensures trace == old(trace) + MuteOps(mm, old(regs)[mm.powerCtl2])
    {
      DisableHpOrSpk(mm.hpa1, mm.hpa0);
      DisableHpOrSpk(mm.hpb1, mm.hpb0);
    }

    /** `CS43L22_Unmute`: left, then right headphone channel always on. */
    method Unmute()
      requires Valid()
      modifies this
      ensures Valid()
      ensures regs == old(regs)[mm.powerCtl2 := UnmuteValue(mm, old(regs)[mm.powerCtl2])]
      ensures trace == old(trace) + UnmuteOps(mm, old(regs)[mm.powerCtl2])
    {
      EnableHp(mm.hpa1, mm.hpa0);
      EnableHp(mm.hpb1, mm.hpb0);
    }

    /** `CS43L22_SetVolume`: the same remapped code goes to MASTER_A_VOL, then MASTER_B_VOL. */
    method SetVolume(volume: Byte)
      requires Valid()
      modifies this
      ensures Valid()
      ensures var code := RearrangeVol(volume) as bv8;
              regs == old(regs)[mm.masterAVol := code][mm.masterBVol := code]
      ensures trace == old(trace) + VolumeOps(mm, volume)
    {
      WriteReg(mm.masterAVol, RearrangeVol(volume) as bv8);
      WriteReg(mm.masterBVol, RearrangeVol(volume) as bv8);
    }

    /** `CS43L22_AutoDetectClock` */
    method AutoDetectClock()
      requires Valid()
      modifies this
      ensures Valid()
      ensures var v := AutoClockValue(mm, old(regs)[mm.clockingCtl]);
              regs == old(regs)[mm.clockingCtl := v] && trace == old(trace) + [Write(mm.clockingCtl, v)]
    {
      var val := ReadReg(mm.clockingCtl);
      val := SetBit(val, mm.autoClock);
      WriteReg(mm.clockingCtl, val);
    }

    /** `CS43L22_I2SInterface` */
    method I2sInterface()
      requires Valid()
      modifies this
      ensures Valid()
      ensures regs == old(regs)[mm.interfaceCtl1 := InterfaceValue(mm)]
      ensures trace == old(trace) + [Write(mm.interfaceCtl1, InterfaceValue(mm))]
    {
      var val: bv8 := 0;
      val := ClearBit(val, mm.ms);
      val := ClearBit(val, mm.invSclk);
      val := ClearBit(val, mm.dsp);
      val := ClearBit(val, mm.dacdif1);
      val := SetBit(val, mm.dacdif0);
      val := SetBit(val, mm.awl1);
      val := SetBit(val, mm.awl0);
      WriteReg(mm.interfaceCtl1, val);
    }

    /** The first part of `CS43L22_Init`'s configuration: both headphones on, both speakers off. */
    method SetupOutputs()
      requires Valid()
      modifies this
      ensures Valid()
      ensures regs == old(regs)[mm.powerCtl2 := SpeakersOffValue(mm, UnmuteValue(mm, old(regs)[mm.powerCtl2]))]
      ensures trace == old(trace) + OutputOps(mm, old(regs)[mm.powerCtl2])
    {
      EnableHp(mm.hpa1, mm.hpa0);
      EnableHp(mm.hpb1, mm.hpb0);
      DisableHpOrSpk(mm.spka1, mm.spka0);
      DisableHpOrSpk(mm.spkb1, mm.spkb0);
    }

    /** The clocking and interface part of `CS43L22_Init`. */
    method SetupInterface()
      requires Valid()
      modifies this
      ensures Valid()
      ensures regs == old(regs)[mm.clockingCtl := AutoClockValue(mm, old(regs)[mm.clockingCtl])]
                               [mm.interfaceCtl1 := InterfaceValue(mm)]
      ensures trace == old(trace) + InterfaceOps(mm, old(regs)[mm.clockingCtl])
    {
      AutoDetectClock();
      I2sInterface();
    }

    /** The mute-or-unmute step of `CS43L22_Init`. */
    method SetupHeadphones(muted: bool)
      requires Valid()
      modifies this
      ensures Valid()
      ensures var c := old(regs)[mm.powerCtl2];
              regs == old(regs)[mm.powerCtl2 := if muted then MuteValue(mm, c) else UnmuteValue(mm, c)]
      ensures trace == old(trace) + HeadphoneOps(mm, old(regs)[mm.powerCtl2], muted)
    {
      if muted {
        Mute();
      } else {
        Unmute();
      }
    }

    /** The start of `CS43L22_Init`: reset pin high, then POWER_CTL1 powered down. */
    method PowerDownForReset()
      requires Valid()
      modifies this
      ensures Valid()
      ensures regs == old(regs)[mm.powerCtl1 := mm.poweredDown]
      ensures trace == old(trace) + [ResetPin(true), Write(mm.powerCtl1, mm.poweredDown)]
      ensures regs[mm.powerCtl2] == old(regs)[mm.powerCtl2] && regs[mm.clockingCtl] == old(regs)[mm.clockingCtl]
    {
      LayoutFacts(mm);
      PullUpReset();
      PowerDown();
    }

    /** The part of `CS43L22_Init` between power-down and power-up. */
    method Configure(muted: bool, volume: Byte)
      requires Valid()
      modifies this
      ensures Valid()
      ensures trace == old(trace) + ConfigureOps(mm, old(regs)[mm.powerCtl2], old(regs)[mm.clockingCtl], muted, volume)
      ensures regs == ConfiguredRegs(mm, old(regs), muted, volume)
    {
      LayoutFacts(mm);
      ghost var r0 := regs;
      SetupOutputs();
      ghost var outputs := regs[mm.powerCtl2];
      SetupInterface();
      assert regs[mm.powerCtl2] == outputs;
      SetupHeadphones(muted);
      ReorderUpdates(r0, mm.powerCtl2, mm.clockingCtl, mm.interfaceCtl1, outputs,
        AutoClockValue(mm, r0[mm.clockingCtl]), InterfaceValue(mm), InitPowerCtl2(mm, r0[mm.powerCtl2], muted));
      SetVolume(volume);
    }

    /**
     * `CS43L22_Init`: reset pin high, POWER_CTL1 powered down, the
     * configuration, and POWER_CTL1 powered up.
     */
    method Init(muted: bool, volume: Byte)
      requires Valid()
      modifies this
      ensures Valid()
      ensures trace == old(trace) + InitOps(mm, old(regs)[mm.powerCtl2], old(regs)[mm.clockingCtl], muted, volume)
      ensures regs == ConfiguredRegs(mm, old(regs), muted, volume)[mm.powerCtl1 := mm.poweredUp]
    {
      ghost var r0 := regs;
      PowerDownForReset();
      Configure(muted, volume);
      ConfiguredRegsShadowPower(mm, r0, muted, volume);
      PowerUp();
    }

    /** `CS43L22_Start` */
    method Start()
      requires Valid()
      modifies this
      ensures Valid()
      ensures regs == old(regs)[mm.powerCtl1 := mm.poweredUp]
      ensures trace == old(trace) + [Write(mm.powerCtl1, mm.poweredUp)]
    {
      PowerUp();
    }

    /**
     * `CS43L22_Stop`: mute, soft ramp off (MISC_CTL := 0), POWER_CTL1 powered
     * down, reset pin low, in that order.
     */
    method Stop()
      requires Valid()
      modifies this
      ensures Valid()
      ensures trace == old(trace) + MuteOps(mm, old(regs)[mm.powerCtl2]) + [
                                     Write(mm.miscCtl, 0),
                                     Write(mm.powerCtl1, mm.poweredDown),
                                     ResetPin(false)]
      ensures regs == old(regs)[mm.powerCtl2 := MuteValue(mm, old(regs)[mm.powerCtl2])]
                               [mm.miscCtl := 0][mm.powerCtl1 := mm.poweredDown]
    {
      Mute();
      WriteReg(mm.miscCtl, 0);
      PowerDown();
      PullDownReset();
    }
  }
}
