# Opta Analog channel configuration cache — a Dafny model

The Opta controller keeps, for every Opta Analog expansion, the last "begin"
(configuration) message it sent to each slot of the expansion, so that the whole
configuration can be replayed when the expansion reboots. The C++ class is
`OaChannelCfg` in `src/AnalogExpansionCfg.h`. This project models that class as
an immutable value and proves its properties:

- a store/restore round trip;
- that a store replaces one slot and leaves every other slot alone;
- that an out-of-range index or a zero length is silently ignored;
- how the seven classification predicates read a message's role and sub-type bytes.

Files:

- `protocol.dfy` (module `Protocol`): bytes, messages, and the slot layout. The
  layout has one primary slot per analog channel, one slot per PWM channel, the
  RTD update-time slot, and one additional-ADC slot per analog channel. The
  module also holds the protocol codes and the reference decoding `KindOf` of a
  slot into a `ChannelKind`.
- `channel_cfg.dfy` (module `ChannelCfg`): the cache, its constructors, `Backup`,
  `Restore`, `ResetAdditionalAdcCh` and the classification predicates.
- `cache_properties.dfy` (module `CacheProperties`): lemmas that relate several
  operations.
- `as_written.dfy` (module `AsWritten`): two behaviours of the C++ code as it is
  written. They are listed under Findings.

The channel counts (`OA_AN_CHANNELS_NUM`, `OA_PWM_CHANNELS_NUM`) and the protocol
constants (`BP_ARG_POS`, `OA_CH_ADC_TYPE_POS`, `OA_CH_DAC_TYPE_POS`, `ARG_OA_CH_*`,
`OA_VOLTAGE_ADC`, …) come from `CommonCfg.h` and `Protocol.h`. Those files are not
part of this model. The counts and constants are therefore parameters: a `Layout`
value and a `Codes` value, and every result holds for every choice of them.

The model makes one explicit assumption, `Codes.Valid()`: the role and sub-type
offsets are below 5. The class checks only that a message has at least 5 bytes
before it reads those offsets. Some lemmas comparing the predicates with
`KindOf` also assume `Codes.Distinct()`: the role codes are pairwise different,
and so are the two sub-types of each role.

Two points where the model follows the code rather than a looser reading of the
class's purpose:

- `resetAdditionalAdcCh` does not simply clear the additional-ADC slot. It drops
  the message only when that message is classifiable (at least 5 bytes), and a
  shorter message stays.
- The class has no single "classify" operation, only the seven predicates.
  `KindOf` is an independent reference decoding, and lemmas tie each predicate
  to it.

## Model

| member | source | states |
|---|---|---|
| `Protocol.RegionRoundTrip` | src/AnalogExpansionCfg.h:21-24 | The four slot regions cover the whole index range and do not overlap. Every index lies in exactly one region, and mapping a slot to its region and back gives the same slot. |
| `ChannelCfg.New` | src/AnalogExpansionCfg.h:61-66 | The default constructor gives a cache with one slot per index of the layout, and every slot is absent. |
| `ChannelCfg.Backup` | src/AnalogExpansionCfg.h:161-166 | For an in-range slot and a positive length, the slot afterwards holds exactly the first `s` bytes of the source. No other slot changes. An out-of-range index or a zero length leaves the whole cache unchanged. |
| `ChannelCfg.Restore` | src/AnalogExpansionCfg.h:180-188 | For an occupied slot: copies the stored bytes to the front of the destination, returns their number, and leaves the rest of the destination untouched. For an absent slot or an out-of-range index: returns 0 and leaves the destination as it was. |
| `ChannelCfg.ResetAdditionalAdcCh` | src/AnalogExpansionCfg.h:104-110 | The channel's additional-ADC slot becomes absent exactly when it was absent or classifiable (at least 5 bytes). Otherwise it keeps its message, and every other slot is unchanged. |
| `ChannelCfg.Copy` | src/AnalogExpansionCfg.h:169-178 | The copy constructor starts from an empty cache and stores every occupied slot in order. The result has exactly the contents of the original. |
| `CacheProperties.FreshCacheRestoresNothing` | src/AnalogExpansionCfg.h:61-66 | On a freshly constructed cache, `restore` returns 0 for every index and writes nothing. |
| `CacheProperties.FreshCacheIsHighImpedance` | src/AnalogExpansionCfg.h:150-152 | On a freshly constructed cache every channel is high impedance, and no role predicate (ADC, DAC, digital input, RTD) holds. |
| `CacheProperties.BackupRestoreRoundTrip` | src/AnalogExpansionCfg.h:161-188 | Storing `s > 0` bytes in slot `ch` and restoring `ch` returns `s`. The first `s` bytes of the destination are then exactly the stored bytes, and the rest is unchanged. |
| `CacheProperties.BackupReplacesWholly` | src/AnalogExpansionCfg.h:40-45 | What is restored after a store does not depend on what the slot held before. The old message is replaced, never mixed in. |
| `CacheProperties.LastBackupWins` | src/AnalogExpansionCfg.h:37-51 | Two stores to the same slot, the second with a positive length, leave the same cache as the second store alone. |
| `CacheProperties.BackupKeepsOtherRestores` | src/AnalogExpansionCfg.h:161-166 | A store to slot `ch` never changes what any other slot restores. |
| `CacheProperties.BackupsOnDistinctSlotsCommute` | src/AnalogExpansionCfg.h:161-166 | Two stores to different slots give the same cache in either order. |
| `CacheProperties.BackupAllKeepsLastAccepted` | src/AnalogExpansionCfg.h:161-166 | After any sequence of stores, each slot holds the message of the last store the cache accepted for it. If no store to it was accepted, it holds what it held before. The cache keeps no history and never mixes messages. |
| `CacheProperties.ShortMessageNotClassifiable` | src/AnalogExpansionCfg.h:52-57 | A slot holding 1 to 4 bytes decodes as unconfigured. Every primary role predicate is false on it and the high-impedance predicate is true. `restore` still returns its bytes verbatim. |
| `CacheProperties.PrimaryClassificationMatchesKind` | src/AnalogExpansionCfg.h:112-159 | Each of the voltage-DAC, current-DAC, digital-input and RTD predicates holds exactly when the primary slot decodes to that kind. The high-impedance predicate holds exactly when the slot is unconfigured or decodes to high impedance. |
| `CacheProperties.AdcClassificationMatchesKind` | src/AnalogExpansionCfg.h:68-102 | The voltage-ADC predicate holds exactly when the primary slot or the channel's additional-ADC slot decodes to voltage ADC. The same holds for the current-ADC predicate and current ADC. |
| `CacheProperties.PrimaryRolesExclusive` | src/AnalogExpansionCfg.h:112-159 | At most one of the voltage-DAC, current-DAC, digital-input, RTD and high-impedance predicates holds for a channel. |
| `CacheProperties.PrimaryOnlyPredicatesIgnoreOtherSlots` | src/AnalogExpansionCfg.h:112-159 | Two caches whose primary slot `ch` is equal agree on the DAC, digital-input, RTD and high-impedance predicates for `ch`, whatever their other slots hold. |
| `CacheProperties.SecondaryBackupKeepsPrimaryRoles` | src/AnalogExpansionCfg.h:112-148 | A store into a channel's additional-ADC slot leaves the channel's DAC, digital-input, RTD and high-impedance answers unchanged. |
| `CacheProperties.SecondaryVoltageAdcFallback` | src/AnalogExpansionCfg.h:76-84 | Suppose the primary slot is absent and the additional-ADC slot holds a voltage ADC message. Then the channel is a voltage ADC and not a current ADC. |
| `CacheProperties.ResetLeavesPrimaryAdcOnly` | src/AnalogExpansionCfg.h:104-110 | After the additional-ADC message is reset, both ADC predicates for the channel depend only on the primary slot. |
| `CacheProperties.ResetIdempotent` | src/AnalogExpansionCfg.h:104-110 | Resetting the additional-ADC message twice gives the same cache as resetting it once. |
| `AsWritten.ToInt8` | src/AnalogExpansionCfg.h:164 | Converting a `uint8_t` length to the `int8_t` size field gives a value in -128..127 that is congruent to the length modulo 256. |
| `AsWritten.AllocateAsWritten` | src/AnalogExpansionCfg.h:37-51 | Outside the guard (index in range, positive length) `allocate` returns false and changes nothing. Inside it, it is undefined exactly when the slot's pointer is indeterminate. Otherwise it returns true and installs the new buffer. The length becomes -1 if an old buffer was released and is left alone if the pointer was null. No other slot changes. |
| `AsWritten.BackupAsWritten` | src/AnalogExpansionCfg.h:161-166 | An out-of-range index or a zero length changes nothing. Otherwise the store is undefined exactly when the slot's pointer is indeterminate. When it is defined, the slot owns the first `s` bytes and records the `int8_t` conversion of `s`. No other slot changes. |
| `AsWritten.RestoreAsWritten` | src/AnalogExpansionCfg.h:180-188 | An out-of-range index or a recorded size of -1 returns 0 and writes nothing. It is undefined exactly when the recorded size is below -1. A size of 0 or more copies that many bytes, leaves the rest of `dst` alone and returns the size. |
| `AsWritten.ShortMessageRoundTripAsWritten` | src/AnalogExpansionCfg.h:161-188 | For 1 to 127 bytes, storing into any slot of an object with determinate pointers and restoring it gives back exactly the stored bytes, as in the corrected model. This holds whatever the slot held before, including a buffer whose length was reset to -1. |
| `AsWritten.LongMessageRoundTripFails` | src/AnalogExpansionCfg.h:161-188 | For 128 to 255 bytes, stored into any slot of an object with determinate pointers, the message is never classifiable. Restoring a 255-byte message reports an empty slot, and restoring one of 128 to 254 bytes is undefined. |
| `AsWritten.CopyCtorAsWritten` | src/AnalogExpansionCfg.h:169-178 | A source slot is copied exactly when its length is positive and its pointer is non-null. The loop is undefined exactly when some source slot has a positive length in front of an indeterminate pointer, or a copied slot meets an indeterminate target pointer. Otherwise every copied slot holds the source's length and bytes, and every other slot is empty. |
| `AsWritten.CopyCtorAsWrittenIsUndefined` | src/AnalogExpansionCfg.h:169-178 | If the target's pointers are all indeterminate, as in an object of automatic or dynamic storage duration, copying a source that holds a message of 1 to 127 bytes is undefined. |
| `AsWritten.CopyCtorAsWrittenDropsLongMessage` | src/AnalogExpansionCfg.h:169-178 | If the source's pointers are all determinate and the target's are all null, as in a zero-initialised object, the copy is defined. A slot holding a 128- to 255-byte message, whose length was stored as a negative `int8_t`, comes out empty. |

## Findings

| source | as written | input that shows it | evidently intended | confidence | as-written member | corrected member |
|---|---|---|---|---|---|---|
| src/AnalogExpansionCfg.h:31 | The length of a stored message is kept in an `int8_t`, but `backup` accepts any `uint8_t` length. | `backup(src, ch, 255)` records -1, so `restore(dst, ch)` returns 0 as if the slot were empty. `backup(src, ch, 200)` records -56, so `restore` passes a negative length to `memcpy`. | The recorded length is the number of bytes stored, for every accepted length 1..255. | medium; not executed (real configuration messages may always be shorter than 128 bytes) | `AsWritten.LongMessageRoundTripFails` | `CacheProperties.BackupRestoreRoundTrip` |
| src/AnalogExpansionCfg.h:169-178 | The copy constructor calls `backup` → `allocate` on the object under construction. `allocate` compares `cfg[i]` with `nullptr` and may `delete[]` it, but `cfg[i]` has not been initialised at that point. | Copying, into an object of automatic or dynamic storage duration, any cache that holds a message of 1 to 127 bytes. | Each slot of the new object starts empty, and every occupied slot of the original is then copied into it. | high that the read is undefined behaviour; not executed | `AsWritten.CopyCtorAsWrittenIsUndefined` | `ChannelCfg.Copy` |

## Left out

- `fwUpdater/source/main.cpp` is an interactive console tool that packs a firmware binary and version bytes into a C header. All of it is file and console I/O, with no state shared with the cache.
- Heap management: `new`/`delete[]`, the null check after `new`, and the destructor. The value model owns its contents implicitly, so allocation never fails and nothing needs releasing.
- `allocate` has no member of its own in the corrected model. Its guard (index in range, positive length) and its replacement of the old buffer are part of `ChannelCfg.Backup`. `AsWritten.AllocateAsWritten` models it as written: the guard, the release of the old buffer with its length reset to -1, and the boolean result. A failing `new` is not modelled (see heap management above).
- The concrete values of the channel counts and protocol constants live in `CommonCfg.h` and `Protocol.h`, which are not part of this model. They are parameters here, with the assumption `Codes.Valid()` that the role and sub-type offsets are below 5.
- Slot indices are unbounded naturals rather than `uint8_t`. For `ch < OA_AN_CHANNELS_NUM`, `ch + OFFSET_ADD_ADC_MESSAGE` cannot wrap as long as the board has at most 256 slots.
- The classification predicates require an in-range channel: `ch < OA_AN_CHANNELS_NUM` for the two ADC predicates, and an existing slot for the others. `is_cfg` does no bounds check, so an out-of-range channel reads outside the arrays.
- `ChannelCfg.Restore` returns a natural count rather than an `int8_t`. This is the correction described in the first Findings row; `AsWritten.RestoreAsWritten` keeps the `int8_t` behaviour.
- `ChannelCfg.Restore` requires that the destination has room for the stored message. The C++ `memcpy` trusts its caller for this.
- `ChannelCfg.Backup` records the true length of a 128- to 255-byte message, where the code wraps it into a negative `int8_t`. This is the correction described in the first Findings row; `AsWritten.BackupAsWritten` keeps the wrap.
- `ChannelCfg.ResetAdditionalAdcCh` requires `ch < OA_AN_CHANNELS_NUM`. `reset_additional_adc_ch` does no bounds check, so a larger `ch` makes `is_cfg` read outside the arrays. The model does not describe that case.
- `ChannelCfg.Backup` requires `s` to be at most the length of `src`, and `AsWritten.BackupAsWritten` does too. The `memcpy` in `backup` trusts its caller to pass a source of at least `s` bytes. Reading past the source is not modelled.
