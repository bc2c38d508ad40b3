/** The enumerations of the SPIM hardware abstraction layer and the
    register-layout constants they are built from.

    The numeric values (structure offsets, `_Msk`, `_Pos` and code
    constants) come from the device header `nrf.h`, which is not part of
    this model. They are therefore a parameter, `DeviceHeader`, whose fields
    carry the vendor names; the predicates on it state the only facts about
    them that the proofs use. */
module SpimDefs {
  import opened BitMasks

  datatype Option<T> = None | Some(value: T)

  /** `nrf_spim_task_t`: each task is the offset of its trigger register. */
  datatype Task = Start | Stop | Suspend | Resume

  /** `nrf_spim_event_t` (nRF52 variant, which has END). */
  datatype Event = Stopped | EndRx | End | EndTx | Started

  /** `nrf_spim_int_mask_t`: one interrupt per event. */
  datatype Interrupt = StoppedInt | EndRxInt | EndInt | EndTxInt | StartedInt

  /** `nrf_spim_short_mask_t` (nRF52 variant). */
  datatype Short = EndStart

  /** `nrf_spim_frequency_t`. */
  datatype Frequency = K125 | K250 | K500 | M1 | M2 | M4 | M8

  /** The two halves of an SPI mode and the bit order, as the CONFIG register
      holds them. */
  datatype Polarity = ActiveHigh | ActiveLow
  datatype Phase = Leading | Trailing
  datatype BitOrder = MsbFirst | LsbFirst
  datatype SpiConfig = SpiConfig(order: BitOrder, polarity: Polarity, phase: Phase)

  /** `NRF_SPIM_PIN_NOT_CONNECTED`: a pin-select value meaning "no pin". */
  const NRF_SPIM_PIN_NOT_CONNECTED: bv32 := 0xFFFF_FFFF

  /** `nrf_spim_mode_t` has no explicit values, so its enumerators are the
      `int` constants 0 to 3. The integer type compatible with the
      enumeration is implementation-defined (ISO/IEC 9899:2011, section
      6.7.2.2, paragraph 4) and may hold other values; an `int` argument
      covers every such choice. */
  const NRF_SPIM_MODE_0: int := 0
  const NRF_SPIM_MODE_1: int := 1
  const NRF_SPIM_MODE_2: int := 2
  const NRF_SPIM_MODE_3: int := 3

  /** The constants of `nrf.h` that the SPIM accessors use. */
  datatype DeviceHeader = DeviceHeader(
    // offsetof(NRF_SPIM_Type, ...) for the task and event registers
    TASKS_START: nat, TASKS_STOP: nat, TASKS_SUSPEND: nat, TASKS_RESUME: nat,
    EVENTS_STOPPED: nat, EVENTS_ENDRX: nat, EVENTS_END: nat, EVENTS_ENDTX: nat, EVENTS_STARTED: nat,
    SPIM_SHORTS_END_START_Msk: bv32,
    SPIM_INTENSET_STOPPED_Msk: bv32, SPIM_INTENSET_ENDRX_Msk: bv32, SPIM_INTENSET_END_Msk: bv32,
    SPIM_INTENSET_ENDTX_Msk: bv32, SPIM_INTENSET_STARTED_Msk: bv32,
    SPIM_FREQUENCY_FREQUENCY_K125: bv32, SPIM_FREQUENCY_FREQUENCY_K250: bv32,
    SPIM_FREQUENCY_FREQUENCY_K500: bv32, SPIM_FREQUENCY_FREQUENCY_M1: bv32,
    SPIM_FREQUENCY_FREQUENCY_M2: bv32, SPIM_FREQUENCY_FREQUENCY_M4: bv32,
    SPIM_FREQUENCY_FREQUENCY_M8: bv32,
    SPIM_ENABLE_ENABLE_Pos: nat, SPIM_ENABLE_ENABLE_Enabled: bv32, SPIM_ENABLE_ENABLE_Disabled: bv32,
    SPIM_CONFIG_ORDER_Msk: bv32, SPIM_CONFIG_ORDER_MsbFirst: bv32, SPIM_CONFIG_ORDER_LsbFirst: bv32,
    SPIM_CONFIG_CPOL_Pos: nat, SPIM_CONFIG_CPOL_Msk: bv32,
    SPIM_CONFIG_CPOL_ActiveHigh: bv32, SPIM_CONFIG_CPOL_ActiveLow: bv32,
    SPIM_CONFIG_CPHA_Pos: nat, SPIM_CONFIG_CPHA_Msk: bv32,
    SPIM_CONFIG_CPHA_Leading: bv32, SPIM_CONFIG_CPHA_Trailing: bv32)
  {
    function TaskOffset(t: Task): nat
    {
      match t
      case Start => TASKS_START
      case Stop => TASKS_STOP
      case Suspend => TASKS_SUSPEND
      case Resume => TASKS_RESUME
    }

    function EventOffset(e: Event): nat
    {
      match e
      case Stopped => EVENTS_STOPPED
      case EndRx => EVENTS_ENDRX
      case End => EVENTS_END
      case EndTx => EVENTS_ENDTX
      case Started => EVENTS_STARTED
    }

    /** The task and event registers are distinct members of `NRF_SPIM_Type`,
        so no two of them share an offset. */
    predicate DistinctOffsets()
    {
      (forall t, u :: TaskOffset(t) == TaskOffset(u) ==> t == u) &&
      (forall e, f :: EventOffset(e) == EventOffset(f) ==> e == f) &&
      (forall t, e :: TaskOffset(t) != EventOffset(e))
    }

    function IntMask(i: Interrupt): bv32
    {
      match i
      case StoppedInt => SPIM_INTENSET_STOPPED_Msk
      case EndRxInt => SPIM_INTENSET_ENDRX_Msk
      case EndInt => SPIM_INTENSET_END_Msk
      case EndTxInt => SPIM_INTENSET_ENDTX_Msk
      case StartedInt => SPIM_INTENSET_STARTED_Msk
    }

    function ShortMask(s: Short): bv32
    {
      match s
      case EndStart => SPIM_SHORTS_END_START_Msk
    }

    /** The vendor code of a data rate: what the FREQUENCY register expects. */
    function FrequencyCode(f: Frequency): bv32
    {
      match f
      case K125 => SPIM_FREQUENCY_FREQUENCY_K125
      case K250 => SPIM_FREQUENCY_FREQUENCY_K250
      case K500 => SPIM_FREQUENCY_FREQUENCY_K500
      case M1 => SPIM_FREQUENCY_FREQUENCY_M1
      case M2 => SPIM_FREQUENCY_FREQUENCY_M2
      case M4 => SPIM_FREQUENCY_FREQUENCY_M4
      case M8 => SPIM_FREQUENCY_FREQUENCY_M8
    }

    /** The seven data-rate codes are different values. */
    predicate FrequencyCodesDistinct()
    {
      forall f, g :: FrequencyCode(f) == FrequencyCode(g) ==> f == g
    }

    /** The data rate a FREQUENCY register value stands for, if any. */
    function FrequencyOf(w: bv32): Option<Frequency>
    {
      if w == FrequencyCode(K125) then Some(K125)
      else if w == FrequencyCode(K250) then Some(K250)
      else if w == FrequencyCode(K500) then Some(K500)
      else if w == FrequencyCode(M1) then Some(M1)
      else if w == FrequencyCode(M2) then Some(M2)
      else if w == FrequencyCode(M4) then Some(M4)
      else if w == FrequencyCode(M8) then Some(M8)
      else None
    }

    /** A register value reads as a data rate only if it is that rate's
        code. */
    lemma FrequencyOfSound(w: bv32, f: Frequency)
      ensures FrequencyOf(w) == Some(f) ==> w == FrequencyCode(f)
    {
    }

    /** With distinct codes every code reads as its own rate. */
    lemma FrequencyOfCode(f: Frequency)
      requires FrequencyCodesDistinct()
      ensures FrequencyOf(FrequencyCode(f)) == Some(f)
    {
    }

    /** The ENABLE register values written by enable and disable. */
    function EnabledWord(): bv32
    {
      ShiftLeft(SPIM_ENABLE_ENABLE_Enabled, SPIM_ENABLE_ENABLE_Pos)
    }

    function DisabledWord(): bv32
    {
      ShiftLeft(SPIM_ENABLE_ENABLE_Disabled, SPIM_ENABLE_ENABLE_Pos)
    }

    /** The enabled and disabled codes, shifted into the ENABLE field, still
        differ. */
    predicate EnableCodesDistinct()
    {
      EnabledWord() != DisabledWord()
    }

    // ---- CONFIG ----

    /** The bit order an `nrf_spim_bit_order_t` value selects: the MSB-first
        code selects MSB first, every other value LSB first. */
    function OrderOf(code: bv32): (o: BitOrder)
      ensures o == MsbFirst <==> code == SPIM_CONFIG_ORDER_MsbFirst
    {
      if code == SPIM_CONFIG_ORDER_MsbFirst then MsbFirst else LsbFirst
    }

    /** The configuration that configure(mode, bit order) selects: MSB first
        exactly for the MSB-first code, the standard clock for modes 0 to 3,
        and mode 0's clock for every other value. */
    function ConfigFor(mode: int, bitOrder: bv32): (c: SpiConfig)
      ensures c.order == MsbFirst <==> bitOrder == SPIM_CONFIG_ORDER_MsbFirst
      ensures 0 <= mode < 4 ==> (c.polarity, c.phase) == StandardMode(mode)
      ensures !(0 <= mode < 4) ==> c.polarity == ActiveHigh && c.phase == Leading
    {
      SpiConfig(OrderOf(bitOrder), ModeClock(mode).0, ModeClock(mode).1)
    }

    function OrderCode(o: BitOrder): bv32
    {
      match o
      case MsbFirst => SPIM_CONFIG_ORDER_MsbFirst
      case LsbFirst => SPIM_CONFIG_ORDER_LsbFirst
    }

    function PolarityCode(p: Polarity): bv32
    {
      match p
      case ActiveHigh => SPIM_CONFIG_CPOL_ActiveHigh
      case ActiveLow => SPIM_CONFIG_CPOL_ActiveLow
    }

    function PhaseCode(h: Phase): bv32
    {
      match h
      case Leading => SPIM_CONFIG_CPHA_Leading
      case Trailing => SPIM_CONFIG_CPHA_Trailing
    }

    /** A CPOL or CPHA code shifted into its field. */
    function PolarityBits(p: Polarity): bv32
    {
      ShiftLeft(PolarityCode(p), SPIM_CONFIG_CPOL_Pos)
    }

    function PhaseBits(h: Phase): bv32
    {
      ShiftLeft(PhaseCode(h), SPIM_CONFIG_CPHA_Pos)
    }

    /** The CONFIG word of a configuration: the order code as it is (it is
        not shifted by an ORDER position), OR-ed with the CPOL and CPHA codes
        shifted into their fields, grouped as configure groups them. */
    function Encode(c: SpiConfig): bv32
    {
      Or(OrderCode(c.order), Or(PolarityBits(c.polarity), PhaseBits(c.phase)))
    }

    /** What reading a CONFIG word back needs of the vendor constants: each
        code, placed as configure places it, lies within its field's mask,
        the three masks do not overlap, and the two settings of each field
        differ. */
    predicate ConfigFieldsDisjoint()
    {
      (forall o :: Within(OrderCode(o), SPIM_CONFIG_ORDER_Msk)) &&
      (forall p :: Within(PolarityBits(p), SPIM_CONFIG_CPOL_Msk)) &&
      (forall h :: Within(PhaseBits(h), SPIM_CONFIG_CPHA_Msk)) &&
      Disjoint(SPIM_CONFIG_ORDER_Msk, SPIM_CONFIG_CPOL_Msk) &&
      Disjoint(SPIM_CONFIG_ORDER_Msk, SPIM_CONFIG_CPHA_Msk) &&
      Disjoint(SPIM_CONFIG_CPOL_Msk, SPIM_CONFIG_CPHA_Msk) &&
      OrderCode(MsbFirst) != OrderCode(LsbFirst) &&
      PolarityBits(ActiveHigh) != PolarityBits(ActiveLow) &&
      PhaseBits(Leading) != PhaseBits(Trailing)
    }

    /** The CONFIG layout as the vendor header defines it: the two ORDER codes
        differ and lie within the ORDER mask; CPOL and CPHA are one-bit
        fields, each mask the bit 1 shifted to the field's position without
        being shifted out, each field's two codes different one-bit values;
        and the three masks do not overlap. */
    predicate OneBitFields()
    {
      Within(SPIM_CONFIG_ORDER_MsbFirst, SPIM_CONFIG_ORDER_Msk) &&
      Within(SPIM_CONFIG_ORDER_LsbFirst, SPIM_CONFIG_ORDER_Msk) &&
      SPIM_CONFIG_ORDER_MsbFirst != SPIM_CONFIG_ORDER_LsbFirst &&
      SPIM_CONFIG_CPOL_Msk == ShiftLeft(1, SPIM_CONFIG_CPOL_Pos) && SPIM_CONFIG_CPOL_Msk != 0 &&
      Within(SPIM_CONFIG_CPOL_ActiveHigh, 1) && Within(SPIM_CONFIG_CPOL_ActiveLow, 1) &&
      SPIM_CONFIG_CPOL_ActiveHigh != SPIM_CONFIG_CPOL_ActiveLow &&
      SPIM_CONFIG_CPHA_Msk == ShiftLeft(1, SPIM_CONFIG_CPHA_Pos) && SPIM_CONFIG_CPHA_Msk != 0 &&
      Within(SPIM_CONFIG_CPHA_Leading, 1) && Within(SPIM_CONFIG_CPHA_Trailing, 1) &&
      SPIM_CONFIG_CPHA_Leading != SPIM_CONFIG_CPHA_Trailing &&
      Disjoint(SPIM_CONFIG_ORDER_Msk, SPIM_CONFIG_CPOL_Msk) &&
      Disjoint(SPIM_CONFIG_ORDER_Msk, SPIM_CONFIG_CPHA_Msk) &&
      Disjoint(SPIM_CONFIG_CPOL_Msk, SPIM_CONFIG_CPHA_Msk)
    }

    /** That layout gives what reading a CONFIG word back needs: the shifted
        codes land inside their masks and stay distinct. */
    lemma OneBitFieldsDisjoint()
      requires OneBitFields()
      ensures ConfigFieldsDisjoint()
    {
      forall p: Polarity ensures Within(PolarityBits(p), SPIM_CONFIG_CPOL_Msk) {
        ShiftWithin(PolarityCode(p), 1, SPIM_CONFIG_CPOL_Pos);
      }
      forall h: Phase ensures Within(PhaseBits(h), SPIM_CONFIG_CPHA_Msk) {
        ShiftWithin(PhaseCode(h), 1, SPIM_CONFIG_CPHA_Pos);
      }
      OneBitShiftsDiffer(SPIM_CONFIG_CPOL_ActiveHigh, SPIM_CONFIG_CPOL_ActiveLow, SPIM_CONFIG_CPOL_Pos);
      OneBitShiftsDiffer(SPIM_CONFIG_CPHA_Leading, SPIM_CONFIG_CPHA_Trailing, SPIM_CONFIG_CPHA_Pos);
    }

    /** Reading the configuration back out of a CONFIG word, field by field:
        a field holding neither of its two codes reads as `None`. */
    function DecodeOrder(w: bv32): Option<BitOrder>
    {
      var o := Field(w, SPIM_CONFIG_ORDER_Msk);
      if o == OrderCode(MsbFirst) then Some(MsbFirst)
      else if o == OrderCode(LsbFirst) then Some(LsbFirst)
      else None
    }

    function DecodePolarity(w: bv32): Option<Polarity>
    {
      var p := Field(w, SPIM_CONFIG_CPOL_Msk);
      if p == PolarityBits(ActiveHigh) then Some(ActiveHigh)
      else if p == PolarityBits(ActiveLow) then Some(ActiveLow)
      else None
    }

    function DecodePhase(w: bv32): Option<Phase>
    {
      var h := Field(w, SPIM_CONFIG_CPHA_Msk);
      if h == PhaseBits(Leading) then Some(Leading)
      else if h == PhaseBits(Trailing) then Some(Trailing)
      else None
    }

    function DecodeConfig(w: bv32): Option<SpiConfig>
    {
      match (DecodeOrder(w), DecodePolarity(w), DecodePhase(w))
      case (Some(o), Some(p), Some(h)) => Some(SpiConfig(o, p, h))
      case _ => None
    }

    /** Every configuration can be read back from the word it is encoded as. */
    lemma DecodeEncode(c: SpiConfig)
      requires ConfigFieldsDisjoint()
      ensures DecodeConfig(Encode(c)) == Some(c)
    {
      DecodeOrderEncode(c);
      DecodePolarityEncode(c);
      DecodePhaseEncode(c);
    }

    lemma DecodeOrderEncode(c: SpiConfig)
      requires ConfigFieldsDisjoint()
      ensures DecodeOrder(Encode(c)) == Some(c.order)
    {
      EncodedOrder(c);
    }

    lemma DecodePolarityEncode(c: SpiConfig)
      requires ConfigFieldsDisjoint()
      ensures DecodePolarity(Encode(c)) == Some(c.polarity)
    {
      EncodedPolarity(c);
    }

    lemma DecodePhaseEncode(c: SpiConfig)
      requires ConfigFieldsDisjoint()
      ensures DecodePhase(Encode(c)) == Some(c.phase)
    {
      EncodedPhase(c);
    }

    /** Masking an encoded word with a field's mask gives the code of that
        part of the configuration. */
    lemma EncodedOrder(c: SpiConfig)
      requires ConfigFieldsDisjoint()
      ensures Field(Encode(c), SPIM_CONFIG_ORDER_Msk) == OrderCode(c.order)
    {
      FirstField(OrderCode(c.order), PolarityBits(c.polarity), PhaseBits(c.phase),
                 SPIM_CONFIG_ORDER_Msk, SPIM_CONFIG_CPOL_Msk, SPIM_CONFIG_CPHA_Msk);
    }

    lemma EncodedPolarity(c: SpiConfig)
      requires ConfigFieldsDisjoint()
      ensures Field(Encode(c), SPIM_CONFIG_CPOL_Msk) == PolarityBits(c.polarity)
    {
      SecondField(OrderCode(c.order), PolarityBits(c.polarity), PhaseBits(c.phase),
                  SPIM_CONFIG_ORDER_Msk, SPIM_CONFIG_CPOL_Msk, SPIM_CONFIG_CPHA_Msk);
    }

    lemma EncodedPhase(c: SpiConfig)
      requires ConfigFieldsDisjoint()
      ensures Field(Encode(c), SPIM_CONFIG_CPHA_Msk) == PhaseBits(c.phase)
    {
      ThirdField(OrderCode(c.order), PolarityBits(c.polarity), PhaseBits(c.phase),
                 SPIM_CONFIG_ORDER_Msk, SPIM_CONFIG_CPOL_Msk, SPIM_CONFIG_CPHA_Msk);
    }

    /** Hence no two configurations share a CONFIG word. */
    lemma EncodeInjective(c: SpiConfig, d: SpiConfig)
      requires ConfigFieldsDisjoint()
      ensures Encode(c) == Encode(d) <==> c == d
    {
      DecodeEncode(c);
      DecodeEncode(d);
    }
  }

  /** The usual numbering of SPI modes, independent of the switch in
      configure: the high bit of the mode number is CPOL (set: the clock is
      active low), the low bit is CPHA (set: sample on the trailing edge). */
  function StandardMode(k: int): (Polarity, Phase)
    requires 0 <= k < 4
  {
    (if k / 2 == 1 then ActiveLow else ActiveHigh, if k % 2 == 1 then Trailing else Leading)
  }

  /** The (CPOL, CPHA) pair the mode switch of configure selects: CPOL is
      active low exactly for MODE_2 and MODE_3, CPHA trailing exactly for
      MODE_1 and MODE_3. MODE_0 is also the `default` case, so every value
      outside 0 to 3 selects it too. */
  function ModeClock(mode: int): (r: (Polarity, Phase))
    ensures r.0 == ActiveLow <==> mode == NRF_SPIM_MODE_2 || mode == NRF_SPIM_MODE_3
    ensures r.1 == Trailing <==> mode == NRF_SPIM_MODE_1 || mode == NRF_SPIM_MODE_3
  {
    if mode == NRF_SPIM_MODE_1 then (ActiveHigh, Trailing)
    else if mode == NRF_SPIM_MODE_2 then (ActiveLow, Leading)
    else if mode == NRF_SPIM_MODE_3 then (ActiveLow, Trailing)
    else (ActiveHigh, Leading)
  }

  /** The mode switch of configure follows the usual numbering for modes 0 to
      3, and treats any other value as mode 0. */
  lemma ModeClockIsStandard(mode: int)
    ensures ModeClock(mode) == StandardMode(if 0 <= mode < 4 then mode else NRF_SPIM_MODE_0)
  {
  }

  /** Different choices of a mode from 0 to 3 and a bit order give different
      words. */
  lemma ConfigForInjective(hw: DeviceHeader, m1: int, o1: bv32, m2: int, o2: bv32)
    requires hw.ConfigFieldsDisjoint()
    requires 0 <= m1 < 4 && 0 <= m2 < 4
    ensures hw.Encode(hw.ConfigFor(m1, o1)) == hw.Encode(hw.ConfigFor(m2, o2)) <==>
            m1 == m2 && hw.OrderOf(o1) == hw.OrderOf(o2)
  {
    hw.EncodeInjective(hw.ConfigFor(m1, o1), hw.ConfigFor(m2, o2));
  }
}
