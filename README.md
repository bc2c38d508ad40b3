# nRF52 SPIM hardware abstraction layer, modelled in Dafny

This project models `nrf_spim.h` from the nRF52 SDK 0.9.1. That file holds the register-level accessors for SPIM, the SPI master with EasyDMA. Each accessor except the two address getters reads, stores, or reads and stores back named 32-bit registers of an `NRF_SPIM_Type` instance. The address getters only compute the instance's address plus a register offset and touch no register. Most of the others touch a single register: `pins_set` stores three, the buffer setters store two, and the shortcut accessors read SHORTS, change it and store it back. The accessors cover these operations:

- trigger a task, clear or check an event, and get the address of either;
- enable or disable shortcuts and interrupts, and check whether an interrupt is enabled;
- enable or disable the peripheral;
- set the pins, the data rate, the TX/RX DMA buffers and the over-read character;
- configure the SPI mode and bit order.

The model has three layers:

- `BitMasks` (`bit_masks.dfy`) holds the read-modify-write updates `reg |= mask` and `reg &= ~mask`, with their algebra. It also has the helpers that build a word from parts and mask it: `Or`, `Field`, `Within`, `Disjoint`, `FieldsLayout` and a constant-position `ShiftLeft`.
- `CTypes` (`c_types.dfy`) holds the zero extension of a `uint8_t` argument into a `uint32_t` register, as in section 6.3.1.3 of ISO/IEC 9899:2011.
- `SpimDefs` (`spim_defs.dfy`) holds the enumerations of the header: tasks, events, interrupts, the shortcut, data rates, modes and bit orders. The numeric constants come from `nrf.h`, which this model does not include. They are therefore one parameter, `DeviceHeader`, whose fields carry the vendor names: `offsetof` values, `_Msk`, `_Pos` and codes. The proofs use only these predicates on it:
  - `DistinctOffsets`: no two task or event registers share an offset;
  - `EnableCodesDistinct`;
  - `FrequencyCodesDistinct`;
  - `ConfigFieldsDisjoint`: each placed CONFIG code lies within its field's mask, the three masks do not overlap, and the two settings of each field differ.

  `ConfigFieldsDisjoint` is not only assumed. `OneBitFieldsDisjoint` derives it from `OneBitFields`, the layout the vendor header gives CONFIG: in that layout, CPOL and CPHA are one-bit fields whose masks are `1 << _Pos`.

  `SpimDefs` also holds the CONFIG encoder that `nrf_spim_configure` builds. `ConfigFor` maps the mode and bit order to a configuration, and `Encode` maps that configuration to the word. `DecodeConfig` reads a word back; it serves as the encoder's partner.
- `SpimHal` (`spim_hal.dfy`) holds the class `Spim`, one SPIM instance:
  - one `bv32` field per register the accessors touch;
  - the TASKS_*/EVENTS_* registers as a map from address to value;
  - one method per store accessor. Its `modifies` clause names the register fields that the accessor writes. For `TaskTrigger` and `EventClear` the frame is the whole task/event map, and the `ensures` clause states the single entry that changes;
  - the read accessors as functions: `EventCheck`, `IntEnableCheck`, `TaskAddressGet`, `EventAddressGet`;
  - two ghost predicates that name a state: `IsEnabled` and `ShortEnabled`.

The model follows the code where it sets its own terms:

- The ORDER code goes into CONFIG unshifted. No `SPIM_CONFIG_ORDER_Pos` is applied.
- Any mode outside 0 to 3 falls to the `default` label, which is MODE_0.
- Any bit-order value except the MSB-first code selects LSB first.

Setting and then clearing a mask in SHORTS gives back the original register only when none of the mask's bits was set before. `BitMasks.SetThenClearRestores` states this, and `BitMasks.SetThenClearCounterexample` gives a register and mask for which the original is not restored. In general, enable followed by disable leaves `original & ~mask`, as stated by `BitMasks.SetThenClear`.

## Model

| member | source | states |
|---|---|---|
| BitMasks.WithBitsSet | nRF52_SDK_0.9.1_3639cc9/components/drivers_nrf/hal/nrf_spim.h:345-349 | after `reg \| mask`, every bit of the mask is set and every bit outside it keeps its old value |
| BitMasks.WithBitsCleared | nRF52_SDK_0.9.1_3639cc9/components/drivers_nrf/hal/nrf_spim.h:351-355 | after `reg & ~mask`, no bit of the mask is set and every bit outside it keeps its old value |
| BitMasks.UpdateIsUnique | nRF52_SDK_0.9.1_3639cc9/components/drivers_nrf/hal/nrf_spim.h:345-355 | those two properties fix the result: a value that agrees with the register outside the mask and has the mask all set (all clear) is the set (cleared) register |
| BitMasks.SetThenClear | nRF52_SDK_0.9.1_3639cc9/components/drivers_nrf/hal/nrf_spim.h:345-355 | shorts_enable(m) followed by shorts_disable(m) leaves the original register with the bits of m cleared |
| BitMasks.SetThenClearRestores | nRF52_SDK_0.9.1_3639cc9/components/drivers_nrf/hal/nrf_spim.h:345-355 | that pair gives back the original register if and only if no bit of m was set before |
| BitMasks.SetThenClearCounterexample | nRF52_SDK_0.9.1_3639cc9/components/drivers_nrf/hal/nrf_spim.h:345-355 | register 1 with mask 1 is not restored by the pair |
| BitMasks.UpdatesIdempotent | nRF52_SDK_0.9.1_3639cc9/components/drivers_nrf/hal/nrf_spim.h:345-355 | repeating shorts_enable or shorts_disable with the same mask changes nothing more |
| BitMasks.FirstField | nRF52_SDK_0.9.1_3639cc9/components/drivers_nrf/hal/nrf_spim.h:421-446 | when three parts lie within pairwise disjoint masks, masking their OR with the first mask gives the first part |
| BitMasks.SecondField | nRF52_SDK_0.9.1_3639cc9/components/drivers_nrf/hal/nrf_spim.h:421-446 | the same for the second part |
| BitMasks.ThirdField | nRF52_SDK_0.9.1_3639cc9/components/drivers_nrf/hal/nrf_spim.h:421-446 | the same for the third part |
| BitMasks.ShiftZero | nRF52_SDK_0.9.1_3639cc9/components/drivers_nrf/hal/nrf_spim.h:421-446 | a zero code shifted to any position is zero |
| BitMasks.ShiftWithin | nRF52_SDK_0.9.1_3639cc9/components/drivers_nrf/hal/nrf_spim.h:421-446 | a code within a mask stays within the mask when both are shifted to the same position |
| BitMasks.OneBitShiftsDiffer | nRF52_SDK_0.9.1_3639cc9/components/drivers_nrf/hal/nrf_spim.h:421-446 | two different one-bit codes stay different once shifted to a position that the bit 1 reaches without being shifted out |
| CTypes.ZeroExtend | nRF52_SDK_0.9.1_3639cc9/components/drivers_nrf/hal/nrf_spim.h:401-415 | a `uint8_t` length stored into a 32-bit register keeps its value, so the register holds at most 255 |
| CTypes.ZeroExtendTruncate | nRF52_SDK_0.9.1_3639cc9/components/drivers_nrf/hal/nrf_spim.h:449-453 | the low byte of the stored register is the byte passed in |
| SpimDefs.DeviceHeader.TaskOffset | nRF52_SDK_0.9.1_3639cc9/components/drivers_nrf/hal/nrf_spim.h:42-50 | definition: each task is the `offsetof` of its TASKS_* register in `NRF_SPIM_Type` |
| SpimDefs.DeviceHeader.EventOffset | nRF52_SDK_0.9.1_3639cc9/components/drivers_nrf/hal/nrf_spim.h:55-66 | definition: each event, END included, is the `offsetof` of its EVENTS_* register |
| SpimDefs.DeviceHeader.ShortMask | nRF52_SDK_0.9.1_3639cc9/components/drivers_nrf/hal/nrf_spim.h:68-76 | definition: the END-to-START shortcut is the vendor mask `SPIM_SHORTS_END_START_Msk` |
| SpimDefs.DeviceHeader.IntMask | nRF52_SDK_0.9.1_3639cc9/components/drivers_nrf/hal/nrf_spim.h:81-90 | definition: each interrupt is the vendor INTENSET mask of its event |
| SpimDefs.DeviceHeader.FrequencyCode | nRF52_SDK_0.9.1_3639cc9/components/drivers_nrf/hal/nrf_spim.h:95-106 | definition: each data rate is the vendor FREQUENCY code of that rate |
| SpimDefs.DeviceHeader.OrderOf | nRF52_SDK_0.9.1_3639cc9/components/drivers_nrf/hal/nrf_spim.h:419-420 | a bit-order argument selects MSB first if and only if it is the MSB-first code; any other value selects LSB first |
| SpimDefs.ModeClock | nRF52_SDK_0.9.1_3639cc9/components/drivers_nrf/hal/nrf_spim.h:423-445 | the switch makes CPOL active low exactly for MODE_2 and MODE_3, and CPHA trailing exactly for MODE_1 and MODE_3; every other value gets MODE_0's clock |
| SpimDefs.DeviceHeader.ConfigFor | nRF52_SDK_0.9.1_3639cc9/components/drivers_nrf/hal/nrf_spim.h:417-447 | the configuration configure selects: MSB first exactly for the MSB-first code, the standard clock of modes 0 to 3, and (ActiveHigh, Leading) for any mode outside 0 to 3 |
| SpimDefs.DeviceHeader.Encode | nRF52_SDK_0.9.1_3639cc9/components/drivers_nrf/hal/nrf_spim.h:419-446 | definition: the CONFIG word is the unshifted order code OR the CPOL code shifted by its `_Pos` OR the CPHA code shifted by its `_Pos`, grouped as configure groups them; what the word means is given by the EncodedOrder, EncodedPolarity, EncodedPhase and DecodeEncode rows |
| SpimDefs.DeviceHeader.FrequencyOfSound | nRF52_SDK_0.9.1_3639cc9/components/drivers_nrf/hal/nrf_spim.h:95-106 | a FREQUENCY value reads as a data rate only if it is that rate's code |
| SpimDefs.DeviceHeader.FrequencyOfCode | nRF52_SDK_0.9.1_3639cc9/components/drivers_nrf/hal/nrf_spim.h:95-106 | with distinct codes, the code of every data rate reads back as that rate |
| SpimDefs.DeviceHeader.OneBitFieldsDisjoint | nRF52_SDK_0.9.1_3639cc9/components/drivers_nrf/hal/nrf_spim.h:421-446 | when CPOL and CPHA are one-bit fields at their `_Pos` and the three masks do not overlap, every code configure shifts into a field lies within that field's mask, and the two settings of each field stay distinct |
| SpimDefs.DeviceHeader.DecodeEncode | nRF52_SDK_0.9.1_3639cc9/components/drivers_nrf/hal/nrf_spim.h:417-447 | every (bit order, CPOL, CPHA) configuration is read back, field by field, from the CONFIG word it encodes as |
| SpimDefs.DeviceHeader.DecodeOrderEncode | nRF52_SDK_0.9.1_3639cc9/components/drivers_nrf/hal/nrf_spim.h:419-420 | the ORDER field of an encoded word reads back as the configured bit order |
| SpimDefs.DeviceHeader.DecodePolarityEncode | nRF52_SDK_0.9.1_3639cc9/components/drivers_nrf/hal/nrf_spim.h:421-446 | the CPOL field of an encoded word reads back as the configured polarity |
| SpimDefs.DeviceHeader.DecodePhaseEncode | nRF52_SDK_0.9.1_3639cc9/components/drivers_nrf/hal/nrf_spim.h:421-446 | the CPHA field of an encoded word reads back as the configured phase |
| SpimDefs.DeviceHeader.EncodedOrder | nRF52_SDK_0.9.1_3639cc9/components/drivers_nrf/hal/nrf_spim.h:419-420 | masking an encoded word with the ORDER mask gives the order code |
| SpimDefs.DeviceHeader.EncodedPolarity | nRF52_SDK_0.9.1_3639cc9/components/drivers_nrf/hal/nrf_spim.h:421-446 | masking an encoded word with the CPOL mask gives the shifted polarity code |
| SpimDefs.DeviceHeader.EncodedPhase | nRF52_SDK_0.9.1_3639cc9/components/drivers_nrf/hal/nrf_spim.h:421-446 | masking an encoded word with the CPHA mask gives the shifted phase code |
| SpimDefs.DeviceHeader.EncodeInjective | nRF52_SDK_0.9.1_3639cc9/components/drivers_nrf/hal/nrf_spim.h:417-447 | two configurations give the same CONFIG word if and only if they are the same configuration |
| SpimDefs.ModeClockIsStandard | nRF52_SDK_0.9.1_3639cc9/components/drivers_nrf/hal/nrf_spim.h:421-446 | the mode switch gives MODE_0 = (ActiveHigh, Leading), MODE_1 = (ActiveHigh, Trailing), MODE_2 = (ActiveLow, Leading), MODE_3 = (ActiveLow, Trailing), and MODE_0 for every other value |
| SpimDefs.ConfigForInjective | nRF52_SDK_0.9.1_3639cc9/components/drivers_nrf/hal/nrf_spim.h:417-447 | for modes 0 to 3, configure stores the same word for two (mode, bit order) requests if and only if the modes are equal and the bit orders select the same order |
| SpimHal.Spim.TaskAddressGet | nRF52_SDK_0.9.1_3639cc9/components/drivers_nrf/hal/nrf_spim.h:320-324 | definition: the instance's address plus the task's offset; AddressesDistinct states that these addresses are pairwise distinct |
| SpimHal.Spim.EventAddressGet | nRF52_SDK_0.9.1_3639cc9/components/drivers_nrf/hal/nrf_spim.h:338-342 | definition: the instance's address plus the event's offset; distinct from every task address and from every other event's address (AddressesDistinct) |
| SpimHal.Spim.EventCheck | nRF52_SDK_0.9.1_3639cc9/components/drivers_nrf/hal/nrf_spim.h:332-336 | definition: the event register at base plus offset, read as a C `bool`, so it is true exactly when the register is nonzero; EventClear shows it false after a clear |
| SpimHal.Spim.IntEnableCheck | nRF52_SDK_0.9.1_3639cc9/components/drivers_nrf/hal/nrf_spim.h:369-373 | definition: INTENSET ANDed with the interrupt's mask, read as a C `bool`, so it is true exactly when one of the mask's bits is set; IntEnable and IntDisable state it after each store |
| SpimHal.Spim.AddressesDistinct | nRF52_SDK_0.9.1_3639cc9/components/drivers_nrf/hal/nrf_spim.h:320-342 | with distinct offsets, task_address_get and event_address_get never give two registers the same address |
| SpimHal.Spim.TaskTrigger | nRF52_SDK_0.9.1_3639cc9/components/drivers_nrf/hal/nrf_spim.h:314-324 | stores 1 at the address task_address_get returns for the task, and nowhere else; every other task and every event reads as before |
| SpimHal.Spim.EventClear | nRF52_SDK_0.9.1_3639cc9/components/drivers_nrf/hal/nrf_spim.h:326-342 | stores 0 at the address event_address_get returns for the event, and nowhere else; event_check on it then returns false, and every other event and every task reads as before |
| SpimHal.Spim.ShortsEnable | nRF52_SDK_0.9.1_3639cc9/components/drivers_nrf/hal/nrf_spim.h:345-349 | SHORTS becomes the old value with the mask's bits set, so every shortcut whose mask lies within the argument is enabled; only SHORTS changes |
| SpimHal.Spim.ShortsDisable | nRF52_SDK_0.9.1_3639cc9/components/drivers_nrf/hal/nrf_spim.h:351-355 | SHORTS becomes the old value with the mask's bits cleared, so every shortcut with a nonzero mask within the argument is disabled; only SHORTS changes |
| SpimHal.Spim.IntEnable | nRF52_SDK_0.9.1_3639cc9/components/drivers_nrf/hal/nrf_spim.h:357-373 | INTENSET holds exactly the mask, so int_enable_check then reports an interrupt as enabled if and only if the mask has one of its bits; only INTENSET changes |
| SpimHal.Spim.IntDisable | nRF52_SDK_0.9.1_3639cc9/components/drivers_nrf/hal/nrf_spim.h:363-367 | INTENCLR holds exactly the mask; as a plain store it leaves INTENSET, and so int_enable_check, as before (the device's write-one-to-clear is left out) |
| SpimHal.Spim.Enable | nRF52_SDK_0.9.1_3639cc9/components/drivers_nrf/hal/nrf_spim.h:375-378 | ENABLE holds the Enabled code shifted to its position, whatever it held before, so repeating the call changes nothing |
| SpimHal.Spim.Disable | nRF52_SDK_0.9.1_3639cc9/components/drivers_nrf/hal/nrf_spim.h:380-383 | ENABLE holds the Disabled code shifted to its position; when the two codes differ the instance no longer reads as enabled |
| SpimHal.Spim.PinsSet | nRF52_SDK_0.9.1_3639cc9/components/drivers_nrf/hal/nrf_spim.h:385-393 | each PSEL register holds its pin value as given, including NRF_SPIM_PIN_NOT_CONNECTED; no other register changes |
| SpimHal.Spim.FrequencySet | nRF52_SDK_0.9.1_3639cc9/components/drivers_nrf/hal/nrf_spim.h:395-399 | FREQUENCY holds the data rate's code, which reads back as that rate when the codes are distinct |
| SpimHal.Spim.TxBufferSet | nRF52_SDK_0.9.1_3639cc9/components/drivers_nrf/hal/nrf_spim.h:401-407 | TXD.PTR holds the buffer address and TXD.MAXCNT the zero-extended length; the RXD pair is untouched |
| SpimHal.Spim.RxBufferSet | nRF52_SDK_0.9.1_3639cc9/components/drivers_nrf/hal/nrf_spim.h:409-415 | RXD.PTR holds the buffer address and RXD.MAXCNT the zero-extended length; the TXD pair is untouched |
| SpimHal.Spim.Configure | nRF52_SDK_0.9.1_3639cc9/components/drivers_nrf/hal/nrf_spim.h:417-447 | the local word built as the switch builds it is the encoding of the requested (bit order, mode) configuration, and only CONFIG changes |
| SpimHal.Spim.OrcSet | nRF52_SDK_0.9.1_3639cc9/components/drivers_nrf/hal/nrf_spim.h:449-453 | ORC holds the over-read character zero-extended; no other register changes |

## Left out

- Volatile accesses, compiler ordering and the pointer casts are not modelled. The instance's address is a natural number, `base`, and a task or event address is `base` plus its offset. A buffer pointer cast to `uint32_t` is passed in as that 32-bit value.
- What the peripheral does with a store is not modelled. This covers the write-one-to-set and write-one-to-clear behaviour that links INTENSET and INTENCLR, the hardware raising events, DMA progress, shortcuts firing, and the effect of ENABLE. Every write is an ordinary store, which is all the code performs.
- SpimHal.Spim.IntEnable: after int_enable the model reads INTENSET back as the mask that was stored. On the device, INTENSET would read back as the union of the enabled interrupts, because of the write-one-to-set behaviour above.
- SpimHal.Spim.IntDisable: int_enable_check reads the same after int_disable only because the model leaves out the write-one-to-clear effect of INTENCLR on INTENSET. On the device, every interrupt in the mask reads as disabled afterwards, as the header's documentation of int_disable says.
- Interrupt-context concurrency and critical sections are not modelled; the code has none.
- The numeric values in `nrf.h` are not part of this model. These are the `offsetof` values, `_Msk` and `_Pos` constants and codes, and any link between a frequency code and a real bit rate. Only the assumptions named above are made about them.
- The `SPIM_CONFIG_*_Msk` fields of `DeviceHeader` are used only to read a CONFIG word back. `nrf_spim.h` itself does not use them.
- Only the NRF52 variant is modelled, with the END event, END interrupt and SHORTS. The preprocessor split is not reproduced.
- The constructor starts every register at zero, and its contract states so; whether those are the device's reset values is not modelled.
- `ShiftLeft` shifts every bit out for a position of 32 or more; in C such a shift is undefined. The positions are not constrained, because no proof needs them to be.
- The `(int)` cast of `SPIM_FREQUENCY_FREQUENCY_M8` in the frequency enumeration is not modelled numerically. The enumerator is assumed to convert back to the same 32-bit pattern when stored, so FREQUENCY receives each code's bit pattern.
- The `frequency` argument of frequency_set is one of the seven enumerators; other C `int` values are not modelled. The mode argument of configure, by contrast, is any `int`, so the `default` label is reachable, and the bit-order argument is any 32-bit value.
