/** The accessors of one SPIM instance (`NRF_SPIM_Type`, nRF52 variant).

    An instance is the block of memory-mapped registers the accessors read
    and write. The task and event registers are reached through their byte
    offsets from the instance's address, so they are a map from address to
    register value; the other registers the accessors touch are fields.
    Every write is modelled as an ordinary store: what the peripheral does
    with it is not part of this model. */
module SpimHal {
  import opened BitMasks
  import opened CTypes
  import opened SpimDefs

  class Spim {
    /** The device header the accessors are compiled against. */
    const hw: DeviceHeader
    /** The instance's address, `p_spim`. */
    const base: nat

    /** TASKS_* and EVENTS_* registers, by address. */
    var taskEvent: map<nat, bv32>

    var SHORTS: bv32
    var INTENSET: bv32
    var INTENCLR: bv32
    var ENABLE: bv32
    var PSEL_SCK: bv32
    var PSEL_MOSI: bv32
    var PSEL_MISO: bv32
    var FREQUENCY: bv32
    var TXD_PTR: bv32
    var TXD_MAXCNT: bv32
    var RXD_PTR: bv32
    var RXD_MAXCNT: bv32
    var CONFIG: bv32
    var ORC: bv32

    /** The task and event registers are distinct and all present. */
    ghost predicate Valid()
      reads this
    {
      hw.DistinctOffsets() &&
      (forall t :: TaskAddressGet(t) in taskEvent) &&
      (forall e :: EventAddressGet(e) in taskEvent)
    }

    /** Every register field holds zero. */
    ghost predicate RegistersZero()
      reads this
    {
      SHORTS == 0 && INTENSET == 0 && INTENCLR == 0 && ENABLE == 0 &&
      PSEL_SCK == 0 && PSEL_MOSI == 0 && PSEL_MISO == 0 && FREQUENCY == 0 &&
      TXD_PTR == 0 && TXD_MAXCNT == 0 && RXD_PTR == 0 && RXD_MAXCNT == 0 &&
      CONFIG == 0 && ORC == 0
    }

    /** An instance at `base` whose registers all hold zero (the reset
        values are not modelled). */
    constructor (hw: DeviceHeader, base: nat)
      requires hw.DistinctOffsets()
      ensures Valid() && this.hw == hw && this.base == base
      ensures forall t :: !TaskTriggered(t)
      ensures forall e :: !EventCheck(e)
      ensures forall i :: !IntEnableCheck(i)
      ensures RegistersZero()
    {
      this.hw := hw;
      this.base := base;
      SHORTS, INTENSET, INTENCLR, ENABLE := 0, 0, 0, 0;
      PSEL_SCK, PSEL_MOSI, PSEL_MISO, FREQUENCY := 0, 0, 0, 0;
      TXD_PTR, TXD_MAXCNT, RXD_PTR, RXD_MAXCNT := 0, 0, 0, 0;
      CONFIG, ORC := 0, 0;
      taskEvent := map[
        base + hw.TASKS_START := 0, base + hw.TASKS_STOP := 0,
        base + hw.TASKS_SUSPEND := 0, base + hw.TASKS_RESUME := 0,
        base + hw.EVENTS_STOPPED := 0, base + hw.EVENTS_ENDRX := 0,
        base + hw.EVENTS_END := 0, base + hw.EVENTS_ENDTX := 0,
        base + hw.EVENTS_STARTED := 0];
    }

    // ---- tasks and events ----

    /** task_address_get: the instance's address plus the task's offset. */
    function TaskAddressGet(t: Task): nat
    {
      base + hw.TaskOffset(t)
    }

    /** event_address_get: the instance's address plus the event's offset. */
    function EventAddressGet(e: Event): nat
    {
      base + hw.EventOffset(e)
    }

    /** Whether a task register holds a nonzero value (the store task_trigger
        makes). */
    ghost predicate TaskTriggered(t: Task)
      reads this
      requires Valid()
    {
      taskEvent[TaskAddressGet(t)] != 0
    }

    /** event_check: the event register read as a C `bool`, so any nonzero
        value is true. */
    predicate EventCheck(e: Event)
      reads this
      requires Valid()
    {
      taskEvent[EventAddressGet(e)] != 0
    }

    /** task_trigger: stores 1 in the task's register and nowhere else, so
        no event register and no other task register changes. */
    method TaskTrigger(t: Task)
      requires Valid()
      modifies this`taskEvent
      ensures Valid()
      ensures taskEvent == old(taskEvent)[TaskAddressGet(t) := 1]
      ensures TaskTriggered(t)
      ensures forall u :: u != t ==> TaskTriggered(u) == old(TaskTriggered(u))
      ensures forall e :: EventCheck(e) == old(EventCheck(e))
    {
      taskEvent := taskEvent[TaskAddressGet(t) := 1];
      AddressesDistinct();
    }

    /** event_clear: stores 0 in the event's register and nowhere else. */
    method EventClear(e: Event)
      requires Valid()
      modifies this`taskEvent
      ensures Valid()
      ensures taskEvent == old(taskEvent)[EventAddressGet(e) := 0]
      ensures !EventCheck(e)
      ensures forall f :: f != e ==> EventCheck(f) == old(EventCheck(f))
      ensures forall t :: TaskTriggered(t) == old(TaskTriggered(t))
    {
      taskEvent := taskEvent[EventAddressGet(e) := 0];
      AddressesDistinct();
    }

    /** No two task or event registers share an address. */
    lemma AddressesDistinct()
      requires hw.DistinctOffsets()
      ensures forall t, u :: TaskAddressGet(t) == TaskAddressGet(u) ==> t == u
      ensures forall e, f :: EventAddressGet(e) == EventAddressGet(f) ==> e == f
      ensures forall t, e :: TaskAddressGet(t) != EventAddressGet(e)
    {
    }

    // ---- shortcuts and interrupts ----

    /** Whether every bit of a shortcut's mask is set in SHORTS. */
    ghost predicate ShortEnabled(s: Short)
      reads this
    {
      Within(hw.ShortMask(s), SHORTS)
    }

    /** shorts_enable: `SHORTS |= mask`, so every shortcut whose mask lies
        within `mask` is enabled afterwards. */
    method ShortsEnable(mask: bv32)
      modifies this`SHORTS
      ensures SHORTS == WithBitsSet(old(SHORTS), mask)
      ensures forall s :: Within(hw.ShortMask(s), mask) ==> ShortEnabled(s)
    {
      SHORTS := WithBitsSet(SHORTS, mask);
    }

    /** shorts_disable: `SHORTS &= ~mask`, so every shortcut with a nonzero
        mask within `mask` is disabled afterwards. */
    method ShortsDisable(mask: bv32)
      modifies this`SHORTS
      ensures SHORTS == WithBitsCleared(old(SHORTS), mask)
      ensures forall s :: Within(hw.ShortMask(s), mask) && hw.ShortMask(s) != 0 ==> !ShortEnabled(s)
    {
      SHORTS := WithBitsCleared(SHORTS, mask);
    }

    /** int_enable_check: INTENSET masked with one interrupt, read as a C
        `bool`. */
    predicate IntEnableCheck(i: Interrupt)
      reads this
    {
      AnyBitsSet(INTENSET, hw.IntMask(i))
    }

    /** int_enable: the mask is stored in INTENSET as it is, so INTENSET
        then reads as the mask. */
    method IntEnable(mask: bv32)
      modifies this`INTENSET
      ensures INTENSET == mask
      ensures forall i :: IntEnableCheck(i) <==> AnyBitsSet(mask, hw.IntMask(i))
    {
      INTENSET := mask;
    }

    /** int_disable: the mask is stored in INTENCLR; INTENSET, and with it
        int_enable_check, is not written. */
    method IntDisable(mask: bv32)
      modifies this`INTENCLR
      ensures INTENCLR == mask
      ensures forall i :: IntEnableCheck(i) == old(IntEnableCheck(i))
    {
      INTENCLR := mask;
    }

    // ---- enable ----

    /** Whether ENABLE holds the value enable writes. */
    ghost predicate IsEnabled()
      reads this
    {
      ENABLE == hw.EnabledWord()
    }

    /** enable: the Enabled code shifted into the ENABLE field. */
    method Enable()
      modifies this`ENABLE
      ensures ENABLE == hw.EnabledWord()
      ensures IsEnabled()
    {
      ENABLE := ShiftLeft(hw.SPIM_ENABLE_ENABLE_Enabled, hw.SPIM_ENABLE_ENABLE_Pos);
    }

    /** disable: the Disabled code shifted into the ENABLE field; when the two
        codes differ the instance no longer reads as enabled. */
    method Disable()
      modifies this`ENABLE
      ensures ENABLE == hw.DisabledWord()
      ensures hw.EnableCodesDistinct() ==> !IsEnabled()
    {
      ENABLE := ShiftLeft(hw.SPIM_ENABLE_ENABLE_Disabled, hw.SPIM_ENABLE_ENABLE_Pos);
    }

    // ---- pins, data rate, buffers, configuration ----

    /** pins_set: the three pin numbers stored as given;
        NRF_SPIM_PIN_NOT_CONNECTED is stored like any other value. */
    method PinsSet(sckPin: bv32, mosiPin: bv32, misoPin: bv32)
      modifies this`PSEL_SCK, this`PSEL_MOSI, this`PSEL_MISO
      ensures PSEL_SCK == sckPin && PSEL_MOSI == mosiPin && PSEL_MISO == misoPin
    {
      PSEL_SCK := sckPin;
      PSEL_MOSI := mosiPin;
      PSEL_MISO := misoPin;
    }

    /** frequency_set: the data rate's code, which reads back as that rate
        when the codes are distinct. */
    method FrequencySet(frequency: Frequency)
      modifies this`FREQUENCY
      ensures FREQUENCY == hw.FrequencyCode(frequency)
      ensures hw.FrequencyCodesDistinct() ==> hw.FrequencyOf(FREQUENCY) == Some(frequency)
    {
      FREQUENCY := hw.FrequencyCode(frequency);
      if hw.FrequencyCodesDistinct() {
        hw.FrequencyOfCode(frequency);
      }
    }

    /** tx_buffer_set: the buffer's address and its length, zero-extended;
        the RXD pair is not touched. */
    method TxBufferSet(buffer: bv32, length: bv8)
      modifies this`TXD_PTR, this`TXD_MAXCNT
      ensures TXD_PTR == buffer && TXD_MAXCNT == ZeroExtend(length)
    {
      TXD_PTR := buffer;
      TXD_MAXCNT := ZeroExtend(length);
    }

    /** rx_buffer_set: the same for the RXD pair. */
    method RxBufferSet(buffer: bv32, length: bv8)
      modifies this`RXD_PTR, this`RXD_MAXCNT
      ensures RXD_PTR == buffer && RXD_MAXCNT == ZeroExtend(length)
    {
      RXD_PTR := buffer;
      RXD_MAXCNT := ZeroExtend(length);
    }

    /** configure: builds the CONFIG word from the bit order and the mode,
        any mode outside 0 to 3 counting as MODE_0, and stores it. By
        DeviceHeader.DecodeEncode the stored word reads back as the
        configuration asked for. */
    method Configure(spiMode: int, spiBitOrder: bv32)
      modifies this`CONFIG
      ensures CONFIG == hw.Encode(hw.ConfigFor(spiMode, spiBitOrder))
    {
      // the word the requested configuration encodes as
      ghost var expected := hw.Encode(hw.ConfigFor(spiMode, spiBitOrder));
      var config: bv32 := if spiBitOrder == hw.SPIM_CONFIG_ORDER_MsbFirst
        then hw.SPIM_CONFIG_ORDER_MsbFirst else hw.SPIM_CONFIG_ORDER_LsbFirst;
      if spiMode == NRF_SPIM_MODE_1 {
        config := Or(config, Or(ShiftLeft(hw.SPIM_CONFIG_CPOL_ActiveHigh, hw.SPIM_CONFIG_CPOL_Pos),
                               ShiftLeft(hw.SPIM_CONFIG_CPHA_Trailing, hw.SPIM_CONFIG_CPHA_Pos)));
      } else if spiMode == NRF_SPIM_MODE_2 {
        config := Or(config, Or(ShiftLeft(hw.SPIM_CONFIG_CPOL_ActiveLow, hw.SPIM_CONFIG_CPOL_Pos),
                               ShiftLeft(hw.SPIM_CONFIG_CPHA_Leading, hw.SPIM_CONFIG_CPHA_Pos)));
      } else if spiMode == NRF_SPIM_MODE_3 {
        config := Or(config, Or(ShiftLeft(hw.SPIM_CONFIG_CPOL_ActiveLow, hw.SPIM_CONFIG_CPOL_Pos),
                               ShiftLeft(hw.SPIM_CONFIG_CPHA_Trailing, hw.SPIM_CONFIG_CPHA_Pos)));
      } else {
        config := Or(config, Or(ShiftLeft(hw.SPIM_CONFIG_CPOL_ActiveHigh, hw.SPIM_CONFIG_CPOL_Pos),
                               ShiftLeft(hw.SPIM_CONFIG_CPHA_Leading, hw.SPIM_CONFIG_CPHA_Pos)));
      }
      CONFIG := config;
    }

    /** orc_set: the over-read character, zero-extended. */
    method OrcSet(orc: bv8)
      modifies this`ORC
      ensures ORC == ZeroExtend(orc)
    {
      ORC := ZeroExtend(orc);
    }
  }
}
