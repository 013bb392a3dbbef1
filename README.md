# PCIe analyzer receive path in Dafny

This project models the receive-side symbol pipeline of the `pcie_analyzer` gateware (Migen/LiteX). It covers four blocks:

- **Ordered-set detector** (`DetectOrderedSets`).
  - Shifts each incoming two-symbol word through a ten-stage register chain, swapping its bytes.
  - Recognises SKP, IDLE, FTS, TS1, TS2, compliance and modified-compliance ordered sets once their COM reaches `word8`.
  - Tags the symbols of the set with a two-bit `osets` mask and a type while they leave `word9`. The tagging is driven by a 16-bit drain register.
- **Two-byte descrambler** (`descrambler.py`).
  - XORs untagged data bytes with the keystream of a 16-bit LFSR, `next1`/`next2`.
  - Picks the next LFSR state from the K flags and from whether each K symbol is COM or SKP.
- **32-bit scrambler and descrambler** (`scrambling.py`).
  - `ScramblerUnit`, with a 32-bit keystream per beat.
  - `Scrambler`, with a per-lane XOR and K/enable bypass.
  - `Descrambler`, which resets its unit on a COM.
- **RX SKP remover** (`RXSKPRemover`).
  - Deletes filler lanes from each accepted beat.
  - Packs the remaining symbols through an 8-byte shift register.
  - Emits full four-symbol beats.

Each clocked block is modelled twice:

- a `class` whose fields are the block's registers, with a `Step` method that updates them the way the Migen `sync` statements do;
- a pure next-state function on a datatype of the same registers.

The method's `ensures` ties the new register values to that function, and the properties are lemmas about the function. Migen semantics are written out:

- `sync` assignments read the values from before the edge;
- a later assignment in the same cycle overrides an earlier one;
- an unassigned register holds its value;
- `Cat` is least significant first;
- `Signal(4)` wraps modulo 16.

Modules:

- `Codes` (codes.dfy): symbol constants, word and tagged-word layouts.
- `Lfsr` (lfsr.dfy): the `next1`/`next2` equations and the serial Galois LFSR for x^16+x^5+x^4+x^3+1.
- `TwoByteDescrambler` (descrambler.dfy): the descrambler of descrambler.py and a serial, one-symbol-at-a-time reference descrambler.
- `Scrambling` (scrambling.dfy): scrambling.py.
- `OrderedSets` (detector.dfy): detect_ordered_sets.py.
- `SkpRemoval` (skp_remover.dfy): rx_skp_remover.py.
- `Pipeline` (pipeline.dfy): the detector feeding the descrambler, as wired in test_descramble_detect2.py.

The code and the plain-language description of the design disagree in a few places. The model follows the code in each case:

- The SKP remover drops lanes holding K28.1 (3Ch, the FTS symbol), not K28.0 (SKP). Here the code also disagrees with its own docstring (rx_skp_remover.py:17-21), which says the module removes SKP ordered sets. The model follows line 33. Only `SkpRemoval.Filler` names the symbol, so no proof in `SkpRemoval` depends on which symbol it is.
- The detector compares only the data bytes of the symbols behind a COM, not their K flags.
- The lower-lane training-set load is reproduced as written. See Findings.
- Lane priority: the description says upper-lane matches win. The lower-lane `If`s come later in the same `sync` block, and under Migen's later-assignment rule they override. `OrderedSets.LowerLaneWins` proves that a matching lower-lane rule always sets the tags.
- Latency: the description says 9 cycles. A word passes `word0` through `word9`, which is ten registers. `OrderedSets.Latency` proves that the output word is the input of ten clock edges before.

## Model

| member | source | states |
|---|---|---|
| Codes.Code | pcie_analyzer/detect_ordered_sets.py:20-26 | `K(x, y)`/`D(x, y)` put `x` in the low five bits and `y` in the top three |
| Codes.Two | pcie_analyzer/detect_ordered_sets.py:28-30 | `TWO(x)` carries `x` in both bytes of the word |
| Codes.Join | pcie_analyzer/detect_ordered_sets.py:59-61 | joining two bytes gives a word whose upper and lower bytes are exactly those bytes |
| Lfsr.Next1 | pcie_analyzer/descrambler.py:36-53 | definition: `next1`, the state one byte later, written out bit by bit as in the source (its meaning is `Lfsr.Next1IsEightShifts`) |
| Lfsr.Next2 | pcie_analyzer/descrambler.py:55-72 | definition: `next2`, the state two bytes later, written out bit by bit from `next1` (its meaning is `Lfsr.Next2IsNext1Twice`) |
| Lfsr.Next1IsEightShifts | pcie_analyzer/descrambler.py:25-53 | `next1` is eight single-bit steps of the Galois LFSR for x^16+x^5+x^4+x^3+1 |
| Lfsr.Next2IsNext1Twice | pcie_analyzer/descrambler.py:55-72 | `next2` is `next1` applied to `next1` |
| Lfsr.Next2IsSixteenShifts | pcie_analyzer/descrambler.py:55-72 | `next2` is sixteen single-bit LFSR steps |
| Lfsr.NextAfterReset | pcie_analyzer/descrambler.py:89-90 | `next1(FFFFh) = E817h` |
| Lfsr.ShiftNAdd | pcie_analyzer/descrambler.py:25 | m+n single-bit steps are m steps followed by n steps |
| Lfsr.KeyByteIsSerial | pcie_analyzer/descrambler.py:102 | the byte XORed into an upper data byte (`value[15-i]` into bit i) is the next eight output bits of the serial LFSR |
| Lfsr.KeyBytesAreSerial | pcie_analyzer/descrambler.py:25-53 | n keystream bytes, each one `next1` after the previous, are the first 8n serial LFSR output bits |
| TwoByteDescrambler.NextAfterResetConstant | pcie_analyzer/descrambler.py:89-90 | the constant `LFSR_VALUE_NEXT_AFTER_RESET` is the state one byte after reset |
| TwoByteDescrambler.NextValue | pcie_analyzer/descrambler.py:100-204 | definition: the next LFSR state chosen by the ctrl cases: two bytes on data/data, reset on a COM, hold on SKP/SKP, one byte otherwise (its meaning is `TwoByteDescrambler.NextValueIsSerial`) |
| TwoByteDescrambler.DescrambledUpper | pcie_analyzer/descrambler.py:100-212 | definition: the upper byte before the osets override: XORed with the current keystream byte when it is data, unchanged when K |
| TwoByteDescrambler.DescrambledLower | pcie_analyzer/descrambler.py:100-212 | definition: the lower byte before the osets override, per ctrl case, including the FFh key after an upper COM |
| TwoByteDescrambler.UpperOut | pcie_analyzer/descrambler.py:100-212 | definition: the upper output byte: unchanged when osets bit 1 is set, otherwise `DescrambledUpper` |
| TwoByteDescrambler.LowerOut | pcie_analyzer/descrambler.py:100-212 | definition: the lower output byte: unchanged when osets bit 0 is set, otherwise `DescrambledLower` |
| TwoByteDescrambler.Output | pcie_analyzer/descrambler.py:94-212 | ctrl, osets and type are registered unchanged, and the two data bytes are the per-lane outputs |
| TwoByteDescrambler.Descramble | pcie_analyzer/descrambler.py:100-212 | the ctrl cases and osets overrides applied in source order give exactly the per-lane outputs and the next LFSR state of the pure model |
| TwoByteDescrambler.Descrambler.Step | pcie_analyzer/descrambler.py:94-212 | one clock edge registers the output word for the input and moves the LFSR to its next state |
| TwoByteDescrambler.Descrambler.constructor | pcie_analyzer/descrambler.py:89-92 | the LFSR starts at FFFFh and the output registers at zero |
| TwoByteDescrambler.KeyByteOfReset | pcie_analyzer/descrambler.py:90-102 | the keystream byte of the reset state is FFh |
| TwoByteDescrambler.TaggedLanesPassThrough | pcie_analyzer/descrambler.py:206-212 | a lane whose osets bit is set leaves unchanged, whatever ctrl says |
| TwoByteDescrambler.KSymbolsPassThrough | pcie_analyzer/descrambler.py:108-204 | a K-flagged byte is never descrambled |
| TwoByteDescrambler.NextValueIsSerial | pcie_analyzer/descrambler.py:100-204 | in every ctrl case, including SKP/SKP holding the state and COM restarting it, the next state equals that of a serial descrambler fed the two symbols upper first |
| TwoByteDescrambler.UpperOutIsSerial | pcie_analyzer/descrambler.py:100-212 | the upper output byte equals the serial descrambler's |
| TwoByteDescrambler.LowerOutIsSerial | pcie_analyzer/descrambler.py:100-212 | the lower output byte equals the serial descrambler's, except after an upper K symbol other than COM/SKP |
| TwoByteDescrambler.LowerAfterData | pcie_analyzer/descrambler.py:100-103 | after an upper data byte the lower data byte takes the keystream byte of `next1` |
| TwoByteDescrambler.LowerAfterCom | pcie_analyzer/descrambler.py:138-141 | after an upper COM the lower data byte is XORed with FFh |
| TwoByteDescrambler.LowerAfterSkp | pcie_analyzer/descrambler.py:130-146 | after an upper SKP the lower data byte takes the keystream byte of the current state |
| TwoByteDescrambler.LowerAfterOtherK | pcie_analyzer/descrambler.py:130-150 | after another upper K symbol the gateware uses the current state's keystream byte, and the corrected model uses `next1`'s |
| TwoByteDescrambler.OtherKThenDataExample | pcie_analyzer/descrambler.py:130-150 | from reset, word FB00h with ctrl 10b gives lower byte FFh, where the serial reference gives 17h |
| TwoByteDescrambler.CorrectedLowerOutIsSerial | pcie_analyzer/descrambler.py:100-212 | the corrected lower output equals the serial descrambler's in every case |
| TwoByteDescrambler.CorrectedLowerOutAgrees | pcie_analyzer/descrambler.py:100-212 | the correction changes nothing outside the upper-other-K case |
| TwoByteDescrambler.UpperKeystreamAgrees | pcie_analyzer/scrambling.py:52-59 | for a data word, the upper output byte uses keystream byte 0 of `ScramblerUnit` from the same state |
| TwoByteDescrambler.LowerKeystreamAgrees | pcie_analyzer/scrambling.py:60-67 | for a data word, the lower output byte uses keystream byte 1 of `ScramblerUnit` from the same state |
| Scrambling.UnitNew | pcie_analyzer/scrambling.py:34-50 | definition: the `new` state, 32 LFSR steps on, written out bit by bit as in the source (its meaning is `Scrambling.UnitNewIsThirtyTwoShifts`) |
| Scrambling.UnitValue | pcie_analyzer/scrambling.py:52-83 | definition: the 32-bit keystream word of a state, bit by bit as in the source (its meaning is `Scrambling.UnitValueIsKeyBytes`) |
| Scrambling.UnitNewIsFourBytes | pcie_analyzer/scrambling.py:34-50 | `new` is `next1` applied four times |
| Scrambling.UnitNewIsThirtyTwoShifts | pcie_analyzer/scrambling.py:24-50 | `new` is 32 single-bit steps of the LFSR |
| Scrambling.UnitValueIsKeyBytes | pcie_analyzer/scrambling.py:52-83 | the four lanes of `value` are the keystream bytes of `cur`, `next1(cur)`, `next1²(cur)` and `next1³(cur)` |
| Scrambling.UnitValueIsSerial | pcie_analyzer/scrambling.py:52-83 | `value`, lane 0 first, is the next 32 serial LFSR output bits |
| Scrambling.UnitNext | pcie_analyzer/scrambling.py:19-20 | reset wins over clock enable (`ResetInserter` outside `CEInserter`); an enabled beat (line 102) advances the state 32 steps; otherwise it holds |
| Scrambling.ScrambleLane | pcie_analyzer/scrambling.py:106-110 | a lane passes unchanged when disabled or K, and otherwise is XORed with its key byte |
| Scrambling.ScrambleWord | pcie_analyzer/scrambling.py:104-111 | each lane is scrambled with its own K bit and its own keystream byte |
| Scrambling.ScrambleWordTwice | pcie_analyzer/scrambling.py:104-111 | scrambling twice with the same keystream, ctrl and enable restores the data |
| Scrambling.LanesDetermineWord | pcie_analyzer/scrambling.py:104-111 | a 32-bit word is determined by its four lanes |
| Scrambling.ScrambleBeat | pcie_analyzer/scrambling.py:103-111 | ctrl passes straight through, so a beat carries a COM exactly when its scrambled form does |
| Scrambling.HasCom | pcie_analyzer/scrambling.py:133-142 | definition: a beat carries a COM when some lane holds BCh with its K flag set, the condition on which the `Descrambler` resets its unit |
| Scrambling.DescrambleTwice | pcie_analyzer/scrambling.py:115-148 | descrambling a stream twice from the same state gives the stream back |
| Scrambling.DescrambleScrambled | pcie_analyzer/scrambling.py:89-148 | descrambling the scrambler's output from the same state gives the original COM-free stream back |
| Scrambling.DescrambleAppend | pcie_analyzer/scrambling.py:133-148 | descrambling a concatenation descrambles the second part from the state the first part leaves |
| Scrambling.DescramblerStateSnoc | pcie_analyzer/scrambling.py:133-142 | the state after one more beat is that beat's reset-or-advance applied to the earlier state |
| Scrambling.DescrambleResynchronises | pcie_analyzer/scrambling.py:118-142 | after an accepted COM beat the output equals that of a descrambler freshly reset, whatever the earlier state |
| Scrambling.ScramblerUnit.constructor | pcie_analyzer/scrambling.py:26-32 | the state starts at the reset value, FFFFh by default |
| Scrambling.ScramblerUnit.Value | pcie_analyzer/scrambling.py:52-83 | the keystream word is the next four keystream bytes of the state |
| Scrambling.ScramblerUnit.Clock | pcie_analyzer/scrambling.py:85 | one edge moves the state as `UnitNext` says: reset, else advance on clock enable, else hold |
| Scrambling.Scrambler.constructor | pcie_analyzer/scrambling.py:94-101 | a fresh unit at the reset value (7DBDh by default), with enable high |
| Scrambling.Scrambler.Cycle | pcie_analyzer/scrambling.py:101-111 | the output beat is the input scrambled with the keystream before the edge, and the unit advances only on an accepted beat |
| Scrambling.Descrambler.constructor | pcie_analyzer/scrambling.py:122-131 | a fresh scrambler and unit at the reset value (FFFFh by default), with enable high |
| Scrambling.Descrambler.Cycle | pcie_analyzer/scrambling.py:129-148 | the output is the input XORed with the pre-reset keystream, and an accepted beat with a K-flagged COM resets the unit |
| OrderedSets.Swap | pcie_analyzer/detect_ordered_sets.py:77 | definition: `word0`: the input with its two bytes exchanged, each K flag moving with its byte |
| OrderedSets.UpperComma | pcie_analyzer/detect_ordered_sets.py:89-235 | definition: a K-flagged COM in the upper lane of `word8`, the trigger of every upper-lane rule |
| OrderedSets.LowerComma | pcie_analyzer/detect_ordered_sets.py:89-235 | definition: a K-flagged COM in the lower lane of `word8`, the trigger of every lower-lane rule |
| OrderedSets.UpperTriple | pcie_analyzer/detect_ordered_sets.py:89-235 | definition: the three symbols after an upper COM all equal the given byte (SKP, FTS or IDL); data bytes only |
| OrderedSets.UpperTraining | pcie_analyzer/detect_ordered_sets.py:89-235 | definition: ten identifier bytes (words 5..1) after an upper COM, making a TS1 or TS2 with the given identifier |
| OrderedSets.UpperCompliance | pcie_analyzer/detect_ordered_sets.py:89-235 | definition: COM, D21.5, COM, D10.2 with the first COM in the upper lane |
| OrderedSets.UpperModifiedCompliance | pcie_analyzer/detect_ordered_sets.py:89-235 | definition: a compliance pattern in the upper lane followed two symbols later by COM, COM |
| OrderedSets.LowerTriple | pcie_analyzer/detect_ordered_sets.py:89-235 | definition: the three symbols after a lower COM all equal the given byte |
| OrderedSets.LowerTraining | pcie_analyzer/detect_ordered_sets.py:89-235 | definition: ten identifier bytes (words 5..0) after a lower COM, making a TS1 or TS2 with the given identifier |
| OrderedSets.LowerCompliance | pcie_analyzer/detect_ordered_sets.py:89-235 | definition: COM, D21.5, COM, D10.2 with the first COM in the lower lane |
| OrderedSets.LowerModifiedCompliance | pcie_analyzer/detect_ordered_sets.py:89-235 | definition: a compliance pattern in the lower lane followed two symbols later by COM, COM |
| OrderedSets.Matches | pcie_analyzer/detect_ordered_sets.py:89-235 | definition: a rule (lane, ordered set) fires on a window when its lane has a COM and its pattern predicate holds |
| OrderedSets.Detect | pcie_analyzer/detect_ordered_sets.py:89-235 | definition: the rule that sets the tags: the lower lane's when it fires, otherwise the upper lane's (its meaning is `OrderedSets.DetectIsLastFiringRule`) |
| OrderedSets.SwapKeepsSymbols | pcie_analyzer/detect_ordered_sets.py:77 | `word0` swaps the two bytes, each K flag moves with its byte, and no byte is altered |
| OrderedSets.LaneDetect | pcie_analyzer/detect_ordered_sets.py:89-235 | a lane only ever reports a rule of its own lane |
| OrderedSets.LaneDetectFires | pcie_analyzer/detect_ordered_sets.py:89-235 | the rule a lane reports is an ordered set whose pattern matches the window |
| OrderedSets.LaneDetectOutranks | pcie_analyzer/detect_ordered_sets.py:89-235 | any matching rule of a lane is reported or overridden by a later rule of that lane |
| OrderedSets.DetectIsLastFiringRule | pcie_analyzer/detect_ordered_sets.py:89-235 | the detected rule matches and is the last in statement order of all matching rules; when nothing is detected, no rule matches |
| OrderedSets.LowerLaneWins | pcie_analyzer/detect_ordered_sets.py:164-235 | a matching lower-lane rule overrides every upper-lane rule in the same cycle |
| OrderedSets.ModifiedComplianceExcludesCompliance | pcie_analyzer/detect_ordered_sets.py:139-160 | when modified compliance matches, compliance in the same lane is never reported (the same `Else` recurs at lines 213-234) |
| OrderedSets.Effect | pcie_analyzer/detect_ordered_sets.py:94-232 | a rule's assignments set the type to the detected ordered set |
| OrderedSets.Top | pcie_analyzer/detect_ordered_sets.py:69 | definition: the top two bits of the drain pattern, emitted as the mask |
| OrderedSets.Shifted | pcie_analyzer/detect_ordered_sets.py:68-74 | definition: the pattern moved up two bits while its top two bits are non-zero, and held otherwise |
| OrderedSets.NextTags | pcie_analyzer/detect_ordered_sets.py:65-235 | definition: the registered tags after one edge: the effect of the detected rule, else a drain step (its meaning is `OrderedSets.Update`) |
| OrderedSets.Drain | pcie_analyzer/detect_ordered_sets.py:68-74 | with no detection the mask is the top two pattern bits, and the pattern moves up two bits while they are non-zero |
| OrderedSets.EffectLoadsTopOnes | pcie_analyzer/detect_ordered_sets.py:96-232 | every loaded pattern is a run of ones from the top bit |
| OrderedSets.DrainKeepsTopOnes | pcie_analyzer/detect_ordered_sets.py:68-70 | a drain cycle keeps that shape |
| OrderedSets.NextTagsKeepsTopOnes | pcie_analyzer/detect_ordered_sets.py:65-235 | every cycle keeps that shape, which is an invariant of the detector |
| OrderedSets.DrainEmptiesFrom | pcie_analyzer/detect_ordered_sets.py:68-74 | a pattern whose low 2k bits are clear is empty after 8-k drain cycles, and the tags are plain data one cycle later |
| OrderedSets.DrainEmpties | pcie_analyzer/detect_ordered_sets.py:68-74 | with no reload every load empties within 8 cycles, and mask 00 with type DATA follows |
| OrderedSets.DrainStalls | pcie_analyzer/detect_ordered_sets.py:71-74 | once the top two bits are clear the register emits 00/DATA for ever |
| OrderedSets.DrainHoldsKind | pcie_analyzer/detect_ordered_sets.py:68-70 | the type is not rewritten while the register drains: each cycle that still emits a mask emits the loaded type |
| OrderedSets.TaggedWordsCarryKind | pcie_analyzer/detect_ordered_sets.py:68-74 | the i-th word after the load leaves with the i-th mask of the load, and with its type while that mask is non-zero |
| OrderedSets.DrainMasksAreDrained | pcie_analyzer/detect_ordered_sets.py:68-70 | the listed mask sequence is what the drain cycles emit |
| OrderedSets.SpanMasks | pcie_analyzer/detect_ordered_sets.py:94-234 | the mask of word j has its upper bit set iff symbol 2j lies in the span, and its lower bit iff symbol 2j+1 does |
| OrderedSets.Pair | pcie_analyzer/detect_ordered_sets.py:69 | builds a mask from its upper (bit 1) and lower (bit 0) lanes |
| OrderedSets.UpperShortTags | pcie_analyzer/detect_ordered_sets.py:94-96 | osets 11 with pattern C000h tags symbols 0-3 (masks 11, 11, 00, …) |
| OrderedSets.UpperTrainingTags | pcie_analyzer/detect_ordered_sets.py:122-136 | osets 11 with pattern FFFCh tags 16 symbols over 8 words |
| OrderedSets.UpperModifiedComplianceTags | pcie_analyzer/detect_ordered_sets.py:146-148 | osets 11 with pattern FC00h tags symbols 0-7 |
| OrderedSets.LowerShortTags | pcie_analyzer/detect_ordered_sets.py:168-170 | osets 01 with pattern E000h tags symbols 1-4 (masks 01, 11, 10) |
| OrderedSets.LowerModifiedComplianceTags | pcie_analyzer/detect_ordered_sets.py:220-222 | osets 01 with pattern FE00h tags symbols 1-8 |
| OrderedSets.TagsCoverOrderedSet | pcie_analyzer/detect_ordered_sets.py:89-235 | the words of every detected ordered set carry masks covering exactly its symbols, from its COM to its last symbol (lower-lane TS1/TS2 excepted) |
| OrderedSets.LowerTrainingTagsAsWritten | pcie_analyzer/detect_ordered_sets.py:195-210 | a lower-lane TS1/TS2 tags symbols 0-15 (the byte before the COM through the 15th symbol), not the set's 16 symbols 1-16 |
| OrderedSets.CorrectedEffect | pcie_analyzer/detect_ordered_sets.py:187-211 | the corrected load keeps the detected type |
| OrderedSets.LowerTrainingTags | pcie_analyzer/detect_ordered_sets.py:187-211 | osets 01 with pattern FFFEh tags symbols 1-16 |
| OrderedSets.CorrectedTagsCoverOrderedSet | pcie_analyzer/detect_ordered_sets.py:89-235 | with the corrected load, every ordered set's masks cover exactly its symbols |
| OrderedSets.Shift | pcie_analyzer/detect_ordered_sets.py:77-86 | the chain keeps its ten stages |
| OrderedSets.ShiftAllStages | pcie_analyzer/detect_ordered_sets.py:77-86 | after k cycles, stage i holds the swapped input of k-1-i cycles before if i < k, and otherwise the old stage i-k |
| OrderedSets.Latency | pcie_analyzer/detect_ordered_sets.py:77-86 | the output word (`word9`, lines 241-242) is the swapped input of exactly ten cycles before |
| OrderedSets.NextTagsIsBlocks | pcie_analyzer/detect_ordered_sets.py:65-235 | the priority rule equals the drain statement followed by the upper-lane block and then the lower-lane block |
| OrderedSets.UpperBlock | pcie_analyzer/detect_ordered_sets.py:89-161 | the upper-lane `If`s applied in statement order give the block's effect |
| OrderedSets.LowerBlock | pcie_analyzer/detect_ordered_sets.py:164-235 | the lower-lane `If`s applied in statement order give the block's effect |
| OrderedSets.Update | pcie_analyzer/detect_ordered_sets.py:65-235 | the registered osets, type and drain pattern after one cycle are those of the highest-priority firing rule, or a drain step |
| OrderedSets.Detector.State | pcie_analyzer/detect_ordered_sets.py:46-74 | definition: the tag registers `osets`, `type` and the drain pattern, gathered as a value |
| OrderedSets.Detector.Output | pcie_analyzer/detect_ordered_sets.py:238-243 | the source word is `word9`'s data and ctrl with the registered mask and type |
| OrderedSets.Detector.constructor | pcie_analyzer/detect_ordered_sets.py:46-57 | all stages and tag registers start at zero/DATA |
| OrderedSets.Detector.Step | pcie_analyzer/detect_ordered_sets.py:65-236 | one edge shifts the chain and sets the tags from the window before the edge, so a tag fired on `word8` leaves with that same word |
| SkpRemoval.Symbols | pcie_analyzer/rx_skp_remover.py:33-47 | lane i of a beat is data byte `8i..8i+7` with K flag `ctrl[i]` |
| SkpRemoval.SymbolsOfPack | pcie_analyzer/rx_skp_remover.py:88-89 | packing four symbols into data/ctrl and reading them back returns them |
| SkpRemoval.PackData | pcie_analyzer/rx_skp_remover.py:88 | the packed data holds symbol i in lane i |
| SkpRemoval.PackCtrl | pcie_analyzer/rx_skp_remover.py:89 | the packed ctrl holds symbol i's K flag in bit i |
| SkpRemoval.Filler | pcie_analyzer/rx_skp_remover.py:31-33 | definition: a symbol is a filler when it is K-flagged and holds K28.1 (3Ch) |
| SkpRemoval.SkpMask | pcie_analyzer/rx_skp_remover.py:31-33 | definition: the `skp` vector: bit i for lane i being a filler (its meaning is `SkpRemoval.SkpMaskBits`) |
| SkpRemoval.Skip | pcie_analyzer/rx_skp_remover.py:34 | definition: the `skip` output: an accepted beat holds at least one filler (its meaning is `SkpRemoval.SkipMeansLaneDropped`) |
| SkpRemoval.SkpMaskBits | pcie_analyzer/rx_skp_remover.py:31-33 | mask bit i is set iff lane i is K-flagged and holds K28.1 |
| SkpRemoval.SkipMeansLaneDropped | pcie_analyzer/rx_skp_remover.py:31-53 | `skip` is raised iff an accepted beat loses at least one lane |
| SkpRemoval.Select | pcie_analyzer/rx_skp_remover.py:41-52 | the lane-by-lane selection keeps at most the remaining lanes |
| SkpRemoval.NonFillers | pcie_analyzer/rx_skp_remover.py:44-47 | the reference filter keeps only non-filler symbols of its input |
| SkpRemoval.SelectWithMaskIsNonFillers | pcie_analyzer/rx_skp_remover.py:41-52 | selection by the filler mask is the in-order filter of non-filler symbols |
| SkpRemoval.Fragment | pcie_analyzer/rx_skp_remover.py:36-53 | definition: the lanes kept from a beat, at most four (its meaning is `SkpRemoval.FragmentIsNonFillers`) |
| SkpRemoval.FragmentIsNonFillers | pcie_analyzer/rx_skp_remover.py:36-53 | the fragment is the beat's non-filler symbols in ascending lane order, each with its own K flag |
| SkpRemoval.FragmentLength | pcie_analyzer/rx_skp_remover.py:51 | `frag_bytes` = 4 − popcount(skp) |
| SkpRemoval.Content | pcie_analyzer/rx_skp_remover.py:56-58 | the occupied part of the shift register has `sr_bytes` symbols |
| SkpRemoval.SinkReady | pcie_analyzer/rx_skp_remover.py:69 | definition: `sink.ready` as written: the fill is at most 7 |
| SkpRemoval.ReadyUnder | pcie_analyzer/rx_skp_remover.py:69 | definition: the ready rule as written, or the corrected rule that also waits for downstream above a fill of 3 |
| SkpRemoval.SourceValid | pcie_analyzer/rx_skp_remover.py:84-91 | definition: `source.valid`: at least four symbols are held |
| SkpRemoval.Source | pcie_analyzer/rx_skp_remover.py:84-91 | definition: the output beat: the four oldest held symbols for a fill of 4..7, zero otherwise (its meaning is `SkpRemoval.SourceIsOldest`) |
| SkpRemoval.SourceIsOldest | pcie_analyzer/rx_skp_remover.py:84-91 | for fill 4..7 the output beat is the four oldest symbols held |
| SkpRemoval.NextBytes | pcie_analyzer/rx_skp_remover.py:70-81 | definition: the 4-bit `sr_bytes` update for accept and emit, wrapping modulo 16 (its meaning is `SkpRemoval.NextBytesMoves`) |
| SkpRemoval.NextBytesMoves | pcie_analyzer/rx_skp_remover.py:70-81 | the fill gains `frag_bytes` on accept and loses 4 on emit, without wrapping when accept needs fill ≤ 7 and emit needs fill ≥ 4 |
| SkpRemoval.NextFill | pcie_analyzer/rx_skp_remover.py:70-81 | the fill after a cycle is the old fill plus accepted minus emitted symbols |
| SkpRemoval.NextSr | pcie_analyzer/rx_skp_remover.py:59-68 | the shift register keeps its eight symbols |
| SkpRemoval.NextSrTop | pcie_analyzer/rx_skp_remover.py:59-77 | after an accept the top of the register is the surviving old content followed by the fragment |
| SkpRemoval.NextContent | pcie_analyzer/rx_skp_remover.py:59-81 | the register's content after a cycle is the old content minus the emitted four, followed by the accepted fragment |
| SkpRemoval.StepConserves | pcie_analyzer/rx_skp_remover.py:55-91 | emitted symbols followed by the new content equal the old content followed by the accepted symbols |
| SkpRemoval.NextWith | pcie_analyzer/rx_skp_remover.py:55-81 | the next register is well formed |
| SkpRemoval.NextUnder | pcie_analyzer/rx_skp_remover.py:69-81 | the next register under either ready rule is well formed |
| SkpRemoval.FillBoundedWhenDrained | pcie_analyzer/rx_skp_remover.py:69-84 | when downstream is ready, the fill stays within 0..7 |
| SkpRemoval.CorrectedFillBounded | pcie_analyzer/rx_skp_remover.py:69 | with the corrected ready, the fill stays within 0..7 whatever downstream does |
| SkpRemoval.StalledOverflow | pcie_analyzer/rx_skp_remover.py:69-91 | fill 7, a stalled downstream and a four-byte accept drive `sr_bytes` to 11, and the output case then yields a zero beat |
| SkpRemoval.CycleConserves | pcie_analyzer/rx_skp_remover.py:55-91 | one cycle conserves symbols and keeps the fill within 0..7 |
| SkpRemoval.RunConserves | pcie_analyzer/rx_skp_remover.py:55-91 | over any input stream (as written with downstream always ready, or corrected with any ready pattern) the output followed by the content equals the initial content followed by the accepted symbols |
| SkpRemoval.TakenIsOffered | pcie_analyzer/rx_skp_remover.py:34-69 | when downstream is always ready, every offered beat is accepted, so the accepted symbols are the offered beats' non-filler symbols |
| SkpRemoval.RemovesFillersInOrder | pcie_analyzer/rx_skp_remover.py:17-91 | with downstream always ready, the output is the input with filler lanes deleted, order kept, plus what is still held |
| SkpRemoval.Run | pcie_analyzer/rx_skp_remover.py:70-81 | the register stays well formed over any run |
| SkpRemoval.SkpRemover.State | pcie_analyzer/rx_skp_remover.py:56-58 | definition: `sr_data`/`sr_ctrl` and `sr_bytes`, gathered as a value |
| SkpRemoval.SkpRemover.constructor | pcie_analyzer/rx_skp_remover.py:56-58 | the register and the fill start at zero |
| SkpRemoval.SkpRemover.Step | pcie_analyzer/rx_skp_remover.py:59-81 | one edge updates `sr_data`/`sr_ctrl` and `sr_bytes` as the next-state function says, under the ready rule as written |
| Pipeline.DetectDescramble.constructor | pcie_analyzer/test_descramble_detect2.py:37-38 | a fresh detector and descrambler in their reset states: ten zero words in the chain, tags 00/DATA with an empty drain pattern, the LFSR at FFFFh and a zero output word with type DATA |
| Pipeline.DetectDescramble.Step | pcie_analyzer/test_descramble_detect2.py:42-51 | one edge steps both blocks; the descrambler registers the detector's output from before the edge |
| Pipeline.ComLeavesUnscrambled | pcie_analyzer/test_descramble_detect2.py:47-50 | the COM of every detected ordered set leaves the descrambler as COM, whatever the LFSR state |
| Pipeline.OrderedSetLeavesUnscrambled | pcie_analyzer/test_descramble_detect2.py:47-50 | every symbol of a detected ordered set leaves the descrambler unchanged (lower-lane TS1/TS2 excepted) |
| Pipeline.CorrectedOrderedSetLeavesUnscrambled | pcie_analyzer/test_descramble_detect2.py:47-50 | with the corrected detector load this holds for every ordered set |
| Pipeline.LastTrainingIdDescrambled | pcie_analyzer/test_descramble_detect2.py:47-50 | as written, the last identifier of a lower-lane TS1/TS2 is untagged and, from the reset state, leaves inverted |

## Left out

- Stream valid/ready handshakes of the detector and the two-byte descrambler are not modelled. The detector drives both handshake signals high (detect_ordered_sets.py:239-240). descrambler.py:216 compares with `==` rather than adding statements, so it drives nothing. Both blocks step every cycle, as test_descramble_detect2.py drives them.
- Clock domains, reset timing and the internals of `ResetInserter`/`CEInserter` are not modelled, beyond the priority of reset over clock enable in `Scrambling.UnitNext`.
- The scrambling unit advances on SKP beats, as written (the 32-bit `Descrambler` resets only on COM). The PCI Express rule that SKP does not advance the LFSR holds only in the two-byte descrambler.
- `Scrambling.Scrambler.Cycle` and `Scrambling.Descrambler.Cycle`: the handshake (`sink.connect(source)`) is a parameter, not a modelled wire. `valid && ready` is passed in as the clock enable.
- `SkpRemoval.SkpRemover.Step`: the class keeps the ready rule as written. The corrected rule exists only in the pure model (`ReadyUnder(Corrected, …)`), which the conservation lemmas cover.
- `OrderedSets.Detector.Step` and `TwoByteDescrambler.Descrambler.Step` keep the as-written lower-lane training load and the ctrl=10 lower-lane keystream. The corrected versions are pure functions.
- Board and simulation files (sim.py, versa_ecp5.py, kc705.py, netv2.py, ac701.py, analyzer_core.py), record.py, bist.py and tools/ are platform wiring, DMA/CSR plumbing or host scripts. None of them is part of this model.
- The CSV loading and `PacketStreamer` of test_descramble_detect2.py are file I/O in a simulation testbench. Only its wiring (lines 42-51) is modelled.
- Output values for an `sr_bytes` outside 4..7 are modelled as a zero beat, since the `Case` has no default. This matters only after the overflow shown in Findings.

## Findings

| source | as written | input that shows it | evidently intended | confidence | as-written member | corrected member |
|---|---|---|---|---|---|---|
| pcie_analyzer/descrambler.py:130-150 | with ctrl 10b and an upper K symbol other than COM/SKP, the lower data byte is XORed with the current state's keystream byte, although the state advances past the K symbol | LFSR FFFFh, data FB00h, ctrl 10b, osets 00: lower output FFh, serial descrambler 17h | XOR the lower byte with `next1`'s keystream byte, as after a data byte | not executed | TwoByteDescrambler.OtherKThenDataExample | TwoByteDescrambler.CorrectedLowerOutIsSerial |
| pcie_analyzer/rx_skp_remover.py:69 | `sink.ready` is `sr_bytes <= 7` and ignores whether the output is drained this cycle | fill 7, `source.ready` low, a beat with no filler: fill becomes 11, the register holds only 8 symbols, and the output case yields a zero beat | accept only what fits: ready when fill ≤ 3, or when fill ≤ 7 and the output is taken | not executed | SkpRemoval.StalledOverflow | SkpRemoval.CorrectedFillBounded |
| pcie_analyzer/detect_ordered_sets.py:195-210 | lower-lane TS1/TS2 load osets 11 and pattern FFFCh, which is the upper-lane load | COM in the lower lane of word8 followed by a TS1: the byte before the COM is tagged, and the last identifier is not tagged and so is descrambled | osets 01 with pattern FFFEh, covering symbols 1-16 | not executed | OrderedSets.LowerTrainingTagsAsWritten | OrderedSets.CorrectedTagsCoverOrderedSet |
