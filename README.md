# AMD connector correction in WhateverGreen, modelled in Dafny

WhateverGreen's AMD support (`WhateverGreen/kern_rad.cpp`) hooks the AMD
framebuffer driver and rewrites its connector table in place before the driver
uses it. This project models that engine and the small transforms around it:

- **Transmitter correction** (`autocorrectConnector`, `autocorrectConnectors`,
  the V1/V2 translate hooks). With the `-raddvi` single-link mode on, the first
  connector record with a given sense id gets the transmitter decoded from the
  AtomBIOS object tables. This happens only for dual-link DVI-I, dual-link DVI-D
  and LVDS connector objects, and only when the current transmitter survives the
  driver's `& 0xCF` mask.
- **Priority pass** (`reprioritiseConnectors`). A `uint16_t` counter starts at 1 and numbers
  records in rounds: one round per byte of the `connector-priority` sense list,
  then one per type (LVDS, digital DVI, HDMI, DisplayPort, VGA), then a last
  round for every record still at 0.
- **Connector update** (`updateConnectorsInfo`). A `connectors` blob, with an
  optional `connector-count`, replaces the table. Without it, the table is
  corrected from the firmware tables and, when a sense list exists, reprioritised.
- **Side transforms**: the `radpg` power-gating mask, the 10→8
  BITS_PER_COMPONENT rewrite, the "AMD "/"ATI " model prefix strip, the
  property merge with its 0/1 → boolean coercion and the CAIL power-gating
  override, the choice of merge prefix in `wrapGetProperty`, the provider
  slots around controller start, and the per-release choice of accelerator kexts.

Modules: `Types` (machine widths, `Option`), `Connectors` (the record and
the blob layout), `Atom` (firmware object ids and the HPD source list),
`Autocorrect`, `Priority` (the pass round by round, in place and as a
reference function), `PriorityOrder` (the value the whole pass gives each
record), `Properties`, `Hardware`, and `Rad`. `Rad` holds the
class with the object's state and the hooks that act on the connector array.

The header helpers (`isEncoder`, `getTxEnc`, `getSenseID`, `getConnectorID`)
are the function-valued fields of an `Atom.Decoder` passed in by the caller. The
record layout of a `connectors` blob (`RADConnectors::valid/copy`) is a
`Connectors.Layout` parameter: a record size and a decoding function. The model
fixes none of their bit layouts. The constants from headers that are not
shown follow AtomBIOS `ObjectID.h` and are taken as given: connector object ids 0x02, 0x04 and 0x0E,
object type mask 0x7000 shifted by 12, and encoder type 2. The connector type codes
are LVDS 0x2, digital DVI 0x4, VGA 0x10, DisplayPort 0x400 and HDMI 0x800. The Darwin
majors are 16 (10.12), 17 (10.13) and 18 (10.14). The order of the
accelerator kext slots (X4000, X5000, X3000, X4100, X4150, X4200, X4250) and
the slot counts 7, 3 and 2 come from `kern_rad.hpp`, which is not part of this
model; they are taken as given.

The code behaves as follows, which may be unexpected:

- A sense round does not check for priority 0. It overwrites whatever the first
  matching record holds, and a repeated sense re-numbers the same record.
- A type round numbers every zero-priority record of its type, not just the first.
- A rejected `connectors` blob does not fall back to inference: neither
  autocorrect nor the priority pass runs when a `connectors` property exists.
- The pass gives pairwise distinct priorities, between 1 and the sense-list
  length plus the record count, to every record that a sense-list entry reaches
  or that starts at 0 (`PriorityOrder.ReprioritisedDistinctAssigned`,
  `PriorityOrder.ReprioritisedBound`). A record with a non-zero priority that no
  entry reaches keeps it, so it may share its value with an assigned record.
  Input priorities are kept or overwritten, never renumbered.
- A repeated sense id pushes priorities past the record count: it takes a
  counter value each time it appears. One record sensed 0x02 with the sense list
  [0x02, 0x02] ends with priority 2 (`PriorityOrder.RepeatedSenseExample`).
- The sense-list length is truncated to `uint8_t`: a blob of 256 bytes gives no sense rounds.
- `connector-count` is stored into the `uint8_t` size, so 256 becomes 0 and the
  blob is then rejected.
- The property fix gets the blob's byte length when a blob is taken, and the
  record count in the inference branch.

## Model

| member | source | states |
|---|---|---|
| Connectors.FirstWithSense | WhateverGreen/kern_rad.cpp:537-559 | the record the scan stops at lies in the table and has the sense id |
| Connectors.FirstWithSenseIsFirst | WhateverGreen/kern_rad.cpp:537-559 | no record before the one the scan stops at has the sense id, and the scan finds none exactly when no record has it |
| Autocorrect.Autocorrected | WhateverGreen/kern_rad.cpp:520-564 | only transmitters change; flag off or unsupported connector leaves the table; record j changes iff it is the first with the sense and its transmitter differs from txmit and is unchanged by `& 0xCF`; a changed record holds txmit |
| Autocorrect.AutocorrectTouchesAtMostOne | WhateverGreen/kern_rad.cpp:537-560 | of any two records at least one is unchanged by a correction |
| Autocorrect.AutocorrectIdempotent | WhateverGreen/kern_rad.cpp:537-560 | correcting twice with the same arguments equals correcting once |
| Autocorrect.PathCorrected | WhateverGreen/kern_rad.cpp:498-516 | one display path: nothing unless its graphics object is an encoder, its transmitter decodes and a non-zero sense id is read at the table base plus its record offset; then `Autocorrected` with that transmitter (properties below) |
| Autocorrect.PathsCorrected | WhateverGreen/kern_rad.cpp:496-518 | the first k display paths applied in order (`PathsCorrectedOnlyTransmitters`, `PathsCorrectedDisabled`, `PathsCorrectedWritesDecoded`) |
| Autocorrect.PathsCorrectedOnlyTransmitters | WhateverGreen/kern_rad.cpp:496-518 | the table-wide pass changes no type, sense or priority |
| Autocorrect.PathsCorrectedDisabled | WhateverGreen/kern_rad.cpp:529-563 | with the single-link mode off the pass leaves the table unchanged |
| Autocorrect.PathsCorrectedWritesDecoded | WhateverGreen/kern_rad.cpp:498-516 | every record keeps its transmitter or holds one decoded from one of the display paths walked so far |
| Autocorrect.TranslatedV1 | WhateverGreen/kern_rad.cpp:729-761 | with a non-zero sense id, `Autocorrected` with the transmitter of the first encoder in the HPD source list, when it decodes; otherwise the record as it was (`TranslatedV1WritesFirstEncoder`, `TranslatedIdle`) |
| Autocorrect.TranslatedV2 | WhateverGreen/kern_rad.cpp:769-781 | with a non-zero sense id, `Autocorrected` with the transmitter decoded from the info's own graphics object ids (`TranslatedIdle`) |
| Autocorrect.TranslatedV1WritesFirstEncoder | WhateverGreen/kern_rad.cpp:733-756 | the V1 hook changes only a transmitter, only with a non-zero sense id, and only to the one decoded from the first encoder in the HPD source list |
| Autocorrect.TranslatedIdle | WhateverGreen/kern_rad.cpp:733-781 | without a sense id or with the single-link mode off neither translate hook changes the record |
| Atom.ObjectType | WhateverGreen/kern_rad.cpp:749 | the object type field of an id, bits 12 to 14, a value below 8 |
| Atom.ObjectTypeIsMaskedField | WhateverGreen/kern_rad.cpp:749 | the object type equals `(id & 0x7000) >> 12` computed on the id's 16-bit pattern |
| Atom.SourceId | WhateverGreen/kern_rad.cpp:745-747 | the i-th byte-packed source id after the count byte, read little-endian (`LittleEndian16`) |
| Atom.FirstEncoderSource | WhateverGreen/kern_rad.cpp:745-755 | the id at `FirstEncoderFrom(hpd, 0)`, none when no listed id is an encoder |
| Atom.LittleEndian16 | WhateverGreen/kern_rad.cpp:747 | a source id is its low byte plus 256 times its high byte |
| Atom.FirstEncoderFrom | WhateverGreen/kern_rad.cpp:747-754 | the index of the first encoder source id from a position on; none iff no later id is an encoder |
| Atom.FindEncoderSource | WhateverGreen/kern_rad.cpp:747-754 | the scan over the byte-packed source list returns the first encoder id |
| Priority.Eligible | WhateverGreen/kern_rad.cpp:584-597 | a type round takes records at priority 0 of its type, the last round every record at 0, a sense round none (`NumberedAt`) |
| Priority.SenseAssigned | WhateverGreen/kern_rad.cpp:587-592 | the first record with the sense takes the counter whatever its priority, and the counter moves on only then (`SenseRoundsAt`, `SenseRoundsCounter`) |
| Priority.Numbered | WhateverGreen/kern_rad.cpp:582-597 | a type round or the last round: the table and counter after numbering the eligible records in array order; the counter ends past all of them (`NumberedAt`) |
| Priority.Round | WhateverGreen/kern_rad.cpp:582-604 | a sense round or a numbering round by the round's rule |
| Priority.Rounds | WhateverGreen/kern_rad.cpp:577-606 | the table and counter after the first k rounds, from the counter 1; table length is kept (`RoundsKeepFields`, `RoundsBound`) |
| Priority.Reprioritised | WhateverGreen/kern_rad.cpp:566-607 | the table after all senseNum + 6 rounds (`PriorityOrder.ReprioritisedAfterSenses`, `PriorityOrder.ReprioritisedSenseValue`) |
| Priority.RoundsBound | WhateverGreen/kern_rad.cpp:577-606 | the counter starts at 1 and the counter plus the records still at 0 never exceed 1 + the sense rounds so far + the record count |
| Priority.RuleAt | WhateverGreen/kern_rad.cpp:581-597 | round i is a sense round iff i < senseNum, then the five type rounds in the type order, then the last round |
| Priority.NumberedAt | WhateverGreen/kern_rad.cpp:584-586 | in a type or last round an eligible record gets the counter plus the number of eligible records before it; the others stay |
| Priority.NumberedKeepsFields | WhateverGreen/kern_rad.cpp:583-600 | a numbering round changes priorities only |
| Priority.RoundsKeepFields | WhateverGreen/kern_rad.cpp:581-606 | after any number of rounds only priorities differ from the input |
| Priority.ReprioritisedAllSet | WhateverGreen/kern_rad.cpp:584-586 | every record ends with a non-zero priority |
| Priority.ReprioritisedKeepsUnmatched | WhateverGreen/kern_rad.cpp:583-600 | a record with a priority that no sense-list entry reaches keeps its whole value |
| Priority.ReprioritisedDistinct | WhateverGreen/kern_rad.cpp:577-604 | from an all-zero table the pass gives pairwise distinct priorities |
| Priority.SenseRoundsAt | WhateverGreen/kern_rad.cpp:587-592 | after the sense rounds a record holds the counter value of the last entry that reached it (overwriting), or its old priority |
| Priority.LastHitIsLast | WhateverGreen/kern_rad.cpp:587-592 | no sense-list entry after the one that last reached a record reaches it again, and with no such entry none reaches it at all |
| Priority.LaterRoundsKeepSet | WhateverGreen/kern_rad.cpp:584-597 | after the sense rounds a non-zero priority is final |
| Priority.ReprioritisedIdempotent | WhateverGreen/kern_rad.cpp:566-607 | a second pass with the same sense list changes nothing |
| Priority.SenseListExample | WhateverGreen/kern_rad.cpp:566-607 | senses [0x02, 0x08] over records sensed 0x08, 0x02, 0x01 give priorities 2, 1, 3 |
| Priority.AsWrittenOuterLoopNeverExits | WhateverGreen/kern_rad.cpp:581 | with senseNum ≥ 250 the guard holds at every value of the 8-bit round index and again after its wrapping increment |
| PriorityOrder.Phase | WhateverGreen/kern_rad.cpp:567-573 | a type's place in the type list, or 5 for the last round; the list entry at that place is the type |
| PriorityOrder.PhaseRounds | WhateverGreen/kern_rad.cpp:581-606 | from the table and counter the sense rounds leave, each later round leaves every record at 0 of the phases done so far holding the counter after the sense rounds plus the zeros of earlier phases plus those of its phase before it, and the counter past them |
| PriorityOrder.ReprioritisedAfterSenses | WhateverGreen/kern_rad.cpp:577-606 | a record still at 0 after the sense rounds ends with 1 + the sense entries that found a record + the zeros of earlier type rounds + the zeros of its own round before it, at most senseNum + the record count |
| PriorityOrder.ReprioritisedSenseValue | WhateverGreen/kern_rad.cpp:587-592 | a record some sense entry reached ends with 1 + the hits before the last such entry |
| PriorityOrder.ReprioritisedOrder | WhateverGreen/kern_rad.cpp:581-606 | of two records the pass assigns, the one assigned in an earlier round, or earlier in the array in the same round, gets the smaller priority |
| PriorityOrder.ReprioritisedDistinctAssigned | WhateverGreen/kern_rad.cpp:577-606 | for any input table, records the pass assigns get pairwise distinct priorities |
| PriorityOrder.ReprioritisedBound | WhateverGreen/kern_rad.cpp:577-606 | every priority the pass assigns lies between 1 and senseNum + the record count |
| PriorityOrder.RepeatedSenseExample | WhateverGreen/kern_rad.cpp:587-592 | one record sensed 0x02 with the sense list [0x02, 0x02] ends with priority 2, past the record count |
| Priority.AssignBySense | WhateverGreen/kern_rad.cpp:587-592 | one sense round in place equals `SenseAssigned`, the counter advances by one only on a hit |
| Priority.AssignInOrder | WhateverGreen/kern_rad.cpp:582-597 | one type round or the last round in place: every eligible record among the first sz takes the `uint16_t` counter as the loop reaches it, the counter moves on by one (wrapping) past each of them, every other record and everything past sz stays |
| Priority.TrailCounts | WhateverGreen/kern_rad.cpp:582-597 | the counter the loop holds at record k is the starting value plus the number of eligible records before k, modulo 2^16 |
| Priority.StampedIsNumbered | WhateverGreen/kern_rad.cpp:582-597 | what the in-place loop leaves is exactly the reference round `Numbered`, and its final counter is `Numbered`'s next value wrapped to 16 bits |
| Priority.AssignRound | WhateverGreen/kern_rad.cpp:582-604 | one round in place turns the first sz records into `Round` of the old ones, returns the wrapped counter after it, and leaves the records past sz alone |
| Priority.SenseRoundsCounter | WhateverGreen/kern_rad.cpp:587-592 | after the first k sense rounds the counter is one past the number of sense-list entries that found a record |
| Priority.NumberedIdle | WhateverGreen/kern_rad.cpp:584-597 | a type round or the last round that finds no eligible record leaves the table and the counter as they were |
| Priority.LaterRoundsUntouchedKinds | WhateverGreen/kern_rad.cpp:593-597 | type rounds over records whose types are outside the fixed type list change neither the table nor the counter |
| Priority.ReprioritiseConnectors | WhateverGreen/kern_rad.cpp:566-607 | the first sz records become `Reprioritised` of the old ones with the first senseNum bytes; the rest of the array is unchanged |
| Properties.StripVendorPrefix | WhateverGreen/kern_rad.cpp:618-621 | the model name minus a leading "AMD " or "ATI ", otherwise unchanged |
| Properties.StripVendorPrefixOnce | WhateverGreen/kern_rad.cpp:618-621 | only one prefix is dropped: "AMD ATI X" gives "ATI X" |
| Properties.MergePrefix | WhateverGreen/kern_rad.cpp:659-675 | the prefix and provider of a requested merge by key, slot and parent (`MergePrefixCases`) |
| Properties.MergePrefixCases | WhateverGreen/kern_rad.cpp:659-675 | a merge is requested iff a slot is set and the key is aty_config/aty_properties, or no slot is set, the key is cail_properties and a parent exists; the CAIL merge reads the parent |
| Properties.Coerced | WhateverGreen/kern_rad.cpp:378-394 | one byte of data 1 or 0 becomes true or false, anything else is stored as it is |
| Properties.MergedFrom | WhateverGreen/kern_rad.cpp:367-400 | the provider's properties merged in iteration order; no entry is removed (`MergedFromValue`, `MergedFromKeeps`) |
| Properties.MergedFromValue | WhateverGreen/kern_rad.cpp:371-399 | every provider property strictly longer than the prefix and starting with it lands under its name without the prefix, coerced |
| Properties.MergedFromKeeps | WhateverGreen/kern_rad.cpp:371-399 | any other name keeps its entry or its absence |
| Properties.CailReplaced | WhateverGreen/kern_rad.cpp:410-416 | the switches walked in order, each enabled one present set to 1; the key set is kept (`CailReplacedSets`, `CailReplacedKeeps`) |
| Properties.Merged | WhateverGreen/kern_rad.cpp:363-418 | the provider table merged when there is one, then the CAIL replacement for the "CAIL," prefix (`CailOverridesFirmwareSwitch`) |
| Properties.CailReplacedSets | WhateverGreen/kern_rad.cpp:410-416 | an enabled power-gating switch present in the dictionary becomes the 32-bit number 1 |
| Properties.CailReplacedKeeps | WhateverGreen/kern_rad.cpp:410-416 | a name that is no enabled switch keeps its value |
| Properties.CailOverridesFirmwareSwitch | WhateverGreen/kern_rad.cpp:371-416 | a "CAIL," provider property naming an enabled switch ends as 1, not its firmware value |
| Hardware.HardwareKextMods | WhateverGreen/kern_rad.cpp:181-226 | the slot count, the switched-off kexts, the old-id choice and the cleared procedure names per release and flags (the four lemmas below) |
| Hardware.ActiveKexts | WhateverGreen/kern_rad.cpp:225 | the kexts among the registered slots that are not switched off |
| Hardware.MojaveKexts | WhateverGreen/kern_rad.cpp:185-199 | from 10.14 only X4000 and X5000 are loaded, and only with -radcfg or -radgl |
| Hardware.ModernHighSierraKexts | WhateverGreen/kern_rad.cpp:187-199 | on 10.13 minor ≥ 5 X3000 stays, X4000 and X5000 only with -radcfg or -radgl |
| Hardware.EarlyHighSierraKexts | WhateverGreen/kern_rad.cpp:181-226 | on 10.13 minor < 5 all seven kexts load with the new ids |
| Hardware.PreHighSierraKexts | WhateverGreen/kern_rad.cpp:202-223 | before 10.13 the old ids are used, X4250 and X5000 are off, X4100 is off before 10.12 and X4150/X4200 before 10.12.6 |
| Hardware.Downgraded | WhateverGreen/kern_rad.cpp:231-243 | the table after the walk; an entry changes only from 10 to 8 (`DowngradedAt`) |
| Hardware.DowngradedAt | WhateverGreen/kern_rad.cpp:231-243 | each 10 before the terminating 0 becomes 8, every other entry stays |
| Hardware.DowngradedIdempotent | WhateverGreen/kern_rad.cpp:231-243 | a second walk changes nothing |
| Hardware.FixBitsPerComponent | WhateverGreen/kern_rad.cpp:231-243 | the walk in place gives `Downgraded` of the old table |
| Connectors.ValidSize | WhateverGreen/kern_rad.cpp:453 | a blob is valid for a count when its byte length is the count times the record size |
| Rad.OverrideAccepted | WhateverGreen/kern_rad.cpp:453 | a blob is taken when non-empty, for a non-zero size, and valid for that size |
| Rad.Copied | WhateverGreen/kern_rad.cpp:454 | the first n records read from the blob, the rest kept (`UpdateCopiesBlob`) |
| Rad.Inferred | WhateverGreen/kern_rad.cpp:464-489 | autocorrection only with tables of equal path and object counts, then the priority pass over the first sz records with the length truncated to 8 bits (`UpdateInferenceKeepsIdentity`, `UpdateMismatchedTablesSkipsCorrection`) |
| Rad.Updated | WhateverGreen/kern_rad.cpp:440-490 | the override branch, the non-data branch and the inference branch of the update (the lemmas below) |
| Rad.UpdateOverrideSkipsInference | WhateverGreen/kern_rad.cpp:440-462 | with a connectors property: the count override holds even for a rejected blob, a rejected blob leaves the table and skips the property fix, a taken blob passes its byte length to the fix, non-data changes nothing |
| Rad.UpdateCopiesBlob | WhateverGreen/kern_rad.cpp:446-456 | a taken blob fills the first size records with its decoded records and leaves the rest |
| Rad.UpdateInferenceKeepsIdentity | WhateverGreen/kern_rad.cpp:463-490 | without a connectors property the size stays, the fix gets it, types and senses are kept and records past the size are untouched |
| Rad.UpdateMismatchedTablesSkipsCorrection | WhateverGreen/kern_rad.cpp:464-473 | without tables, or with different path and object counts, every transmitter stays, and without connector-priority the whole table does |
| Rad.UpdateWithoutPriorityBlob | WhateverGreen/kern_rad.cpp:463-490 | without connector-priority inference leaves every priority |
| Rad.UpdateWithPriorityBlob | WhateverGreen/kern_rad.cpp:478-487 | with connector-priority every record within the size ends with a non-zero priority |
| Rad.Rad.UpdateConnectorsInfo | WhateverGreen/kern_rad.cpp:433-494 | the new array, size and property-fix argument are `Updated` of the old array |
| Rad.HookTables | WhateverGreen/kern_rad.cpp:693-719 | the tables each hook passes: V2 none, V1 none from 10.13, legacy its driver's |
| Rad.Rad.GetConnectorsInfo | WhateverGreen/kern_rad.cpp:689-724 | returns the driver's code; the table, size and property fix become `Updated` with the hook's tables when the code is 0, the size pointer is set and the hook's slot holds a provider; otherwise nothing changes |
| Rad.Rad.CopyRecords | WhateverGreen/kern_rad.cpp:455 | the first n records are the blob's decoded records, the rest unchanged |
| Rad.Rad.AutocorrectConnector | WhateverGreen/kern_rad.cpp:520-564 | the first sz records become `Autocorrected` of the old ones, with the object's single-link flag; the rest is unchanged |
| Rad.Rad.AutocorrectConnectors | WhateverGreen/kern_rad.cpp:496-518 | the first sz records become `PathsCorrected` over the first displayPathNum paths |
| Rad.Rad.TranslateAtomConnectorInfoV1 | WhateverGreen/kern_rad.cpp:726-764 | returns the driver's code; on success with info and record, the record becomes `TranslatedV1`, otherwise nothing changes |
| Rad.Rad.TranslateAtomConnectorInfoV2 | WhateverGreen/kern_rad.cpp:766-784 | the same with `TranslatedV2` |
| Rad.Rad.ATIControllerStart | WhateverGreen/kern_rad.cpp:786-798 | forced VESA fails the start and leaves the slot; otherwise the driver runs with the provider in the slot and the slot is cleared |
| Rad.Rad.LegacyATIControllerStart | WhateverGreen/kern_rad.cpp:800-812 | the same for the legacy slot |
| Rad.Rad.MergeRequest | WhateverGreen/kern_rad.cpp:659-675 | the merge reads the legacy slot's provider when set, else the other slot's |
| Rad.Rad.MergeProperties | WhateverGreen/kern_rad.cpp:363-418 | the dictionary becomes `Merged` of the old one: the provider table folded in iteration order, then the CAIL override |
| Rad.Rad.ApplyPowerGatingMask | WhateverGreen/kern_rad.cpp:107-117 | a switch name stays iff its bit of the mask is set |
| Rad.Rad.constructor | WhateverGreen/kern_rad.cpp:63-96 | the boot flags as read, both slots empty, the eight switch names in mask-bit order |

## Left out

- Priority.ReprioritiseConnectors: the round index is an unbounded integer, so the pass ends for sense lists of 250 or more bytes, where the source's `uint8_t` index loops forever (see Findings).
- Rad.Rad.UpdateConnectorsInfo: it calls the terminating priority pass above. It also requires the driver's array to hold the override's record count, which the source does not check.
- Hardware.FixBitsPerComponent: it requires the table to hold a terminating 0, as the source's walk reads until a 0 without a bound. Kernel write protection is taken to lift every time. The symbol lookup (`solveSymbol`) that finds the table is left out; a missing table means nothing is written.
- Rad.Rad.TranslateAtomConnectorInfoV1: it takes the HPD record to be well formed, a count byte followed by that many ids, which the source reads without a bound check.
- The legacy/modern record layouts (`RADConnectors::modern()`): both run the same code, so one record shape with the four fields used here stands for both.
- The bodies of `isEncoder`, `getTxEnc`, `getSenseID`, `getConnectorID` and `RADConnectors::valid/copy` are not part of this model. They come in as parameters. `valid` is read as "the byte count is the record count times the record size".
- The driver's own functions (`org*` via `FunctionCast`) are parameters: a return code, or a start function that sees the provider slot.
- Kext registration and patching (`onKextLoadForce`, `routeMultiple`, `switchOff`, `processKext`, `processKernel`, `processConnectorOverrides`, `processHardwareKext`, the pixel-format lookup patch of `process24BitOutput`) are loader machinery. The kext choice is a value (`Hardware.KextMods`).
- IOKit objects (`OSDictionary`, `OSData`, `OSCollectionIterator`, `getProperty`/`setProperty`, `getParentEntry`, `copyCollection`) become maps, byte sequences and options. The `CFG_FB_LIMIT` write of `applyPropertyFixes` is reduced to the argument it is given.
- `wrapGetProperty`'s copy of the dictionary and `setProperty` of the result are left out. Only the choice of prefix and provider (`Rad.Rad.MergeRequest`) and the merge itself are modelled.
- `wrapSetProperty`: its key and value tests read `char` memory as little-endian multi-character constants.
- `Rad.Rad.GetConnectorsInfo`: the driver's own `getConnectorsInfo` call is reduced to its return code, and `that[1]` (the AtomBIOS helper) to the `tables` argument.
- A missing `getAtomObjectTableForType`: when `solveSymbol` fails (kern_rad.cpp:284-289, 298-303) the function pointer stays null, yet the V1 hook before 10.13 and the legacy hook still pass it (kern_rad.cpp:696, 719) and the update calls it whenever the helper is set (kern_rad.cpp:464-469). The model's tables are either present or absent, so this null call is not represented.
- Logging (`DBGLOG`, `SYSLOG`, `RADConnectors::print`), boot-argument parsing (flags and the mask come in as parameters) and the global `callbackRAD` pointer.
- Concurrency and re-entrancy across GPUs starting at once: the provider slots are modelled for one start at a time.

## Findings

| source | as written | input that shows it | evidently intended | confidence | as-written member | corrected member |
|---|---|---|---|---|---|---|
| WhateverGreen/kern_rad.cpp:581 | the round loop compares its 8-bit index `i` with the `int` bound senseNum + typeNum + 1, which reaches 261 | a `connector-priority` blob of 250 bytes: senseNum + 6 = 256, which no `uint8_t` reaches, and `i` wraps from 255 to 0, so the loop never exits | the pass ends after senseNum + 6 rounds | not executed | Priority.AsWrittenOuterLoopNeverExits | Priority.ReprioritiseConnectors |
