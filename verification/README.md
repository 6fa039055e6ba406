# A verified model of the JMPXRDS RDS encoder

JMPXRDS generates the multiplex signal of an FM transmitter, with RDS on its 57 kHz subcarrier.
This project models the RDS side of it in Dafny, from the setters that other processes call to
the samples that the multiplex generators add to their output, and proves what a receiver gets.

`dafny verify dfyconfig.toml` checks everything.

## How the model is built

* Machine words are bit strings, most significant bit first (`Bits`); a bit-field is a number
  whose assignment keeps the low bits. Chars are bytes; whether `char` is signed is a parameter
  of every member that depends on it. Samples and phases are real numbers.
* Code that works in place stays that way: `Config.EncoderState`, `Modem.Modulator`,
  `EncoderObject.RdsEncoder`, `DoubleBuffer.OutputBuffers`, `Chain.Transmitter`,
  `Operation.RunningEncoder`, `DynPs.DynamicPs`, `Mpx.Generator` and `Trim.Sanitize` update fields
  and arrays. Each method is proved against a function on values (`Apply`, `Modulate`, `Build`,
  `Transmit`, `Turn`, `Output`, `Sanitized`), and the theorems over runs are about those functions.
* What those functions compute is pinned from outside: the statements of `Fields`, `Services`,
  `Sync`, `Spectrum` and `Detector` name only the arguments of the setters, the words on air, the
  numbers of the standard and frequencies in hertz.
* A run of the encoder is a sequence of calls. Between two calls the environment may change the
  configuration and the time in any way (`Machine.IsHistory`), or only by calling the setters
  (`Machine.OnlySetters`), before the first call as well. Every call is atomic. Time, the
  resampler, the two filter transforms and the sine are parameters; the buffer in which the
  low-pass filter keeps earlier periods is part of the state.
* The receiver is written from IEC 62106, not from any code of the repository: `Demodulator`
  (waveform to bits), `Sync.ParitySyndrome` (the parity-check matrix of Annex B), `Receiver` and
  `Fields` (group types and fields), `Delivery.Receive` (segments by address, cleared by a change of the A/B flag) and `Displays`.

| file | content |
|---|---|
| `Arithmetic.dfy`, `Bits.dfy`, `Polynomials.dfy` | division, bit strings, division by g(x) over GF(2) |
| `BlockCode.dfy`, `Sync.dfy` | block coder, residues, error bursts; synchronisation by the matrix of the standard |
| `Waveforms.dfy`, `Modem.dfy`, `Demodulator.dfy` | symbol table, modulator, receiver, laws over runs |
| `Config.dfy` | encoder state and setters |
| `Groups.dfy`, `Clock.dfy`, `Receiver.dfy` | what each group carries, and how it is read |
| `Scheduler.dfy`, `Machine.dfy` | the scheduler and the encoder as state machines |
| `Fields.dfy`, `Services.dfy` | from the setter's argument to the receiver's reading, services on and off, over runs |
| `Delivery.dfy`, `Displays.dfy`, `Flush.dfy`, `Air.dfy` | bounded delivery, displays, the A/B flag over runs, the whole way over the air |
| `EncoderObject.dfy`, `DoubleBuffer.dfy`, `Pipeline.dfy`, `Chain.dfy`, `Operation.dfy` | the encoder at work, the hand-off of waveforms, all of it together, in operation |
| `Trim.dfy`, `DynPs.dfy` | dynamic PS |
| `Mpx.dfy`, `Spectrum.dfy`, `Detector.dfy` | oscillators and generators, what their output contains, synchronous detection |
| `Lifecycle.dfy` | life cycle |
| `Scripts.dfy`, `Limits.dfy` | runs that meet the assumptions, inputs that miss the intent, runs that attain the bounds |

## Where the code differs from its evident intent

The model follows the code. For each difference a theorem says exactly when the intended
property holds, and a lemma in `Limits` shows an input or a run at which it does not.

* RadioText: `rt_segments` has four bits and the padding stops at character 63; and the test that
  should spare the control characters of RadioText never does (`Displays.ClearedIff`). A text is
  shown as it was given exactly when it has at most 60 characters, or is blank where it is cut
  off, and contains no character below the space, 0x7F or negative char
  (`Displays.SetTextIsShownIff`). Of 64 letters four are shown (`Limits.LongTextIsCut`), and a
  line feed is lost (`Limits.LineFeedIsLost`).
* The A/B flag flips with every flush, so that an even number of flushes between two 2A groups
  leaves the rest of an older text on the display (`Flush.FlushShowsNewTextIff`,
  `Limits.OldTextStays`).
* With PTYN but neither ECC nor LIC, a second has three 10A groups instead of two
  (`Scheduler.CycleStructure`).
* A group that starts a new second is counted twice in the minute, so that the clock group comes
  after 576 to 665 other groups instead of 720 (`Scheduler.ClockSpacing`); both bounds are
  attained (`Limits.ShortestSpacing`, `Limits.LongestSpacing`).
* The minute loses its top bit; it is received correctly exactly when it is below 32
  (`Clock.ClockGroupDecodes`). Minute 45 is read as 13 (`Limits.MinuteIsLost`).
* The local offset of 4A is a difference of hour numbers; it is that of the time zone exactly while
  the date there is that of Greenwich (`Clock.OffsetIsReadIff`). At 23 hours UTC the zone one hour
  east is read as seven hours west (`Limits.OffsetIsWrong`).
* Truncation toward zero makes the Annex G formula right for some dates before 1900 as well
  (`Clock.FormulaIsExactIff`); on 1 March 2100 it is a day ahead
  (`Limits.FormulaMissesMarch2100`).
* Trimming rejects a string of one character, with or without white space behind it, and loses a
  character of strings that begin but do not end with white space (`Trim.SanitizedIsTrimmedIff`):
  "a" is rejected and " ab" becomes "a" (`Limits.LetterIsRejected`, `Limits.LastLetterIsLost`).
  On a string of white space only, the loop reads the byte in front of the buffer
  (`Trim.Sanitize`).
* Dynamic PS: the copy of the station's name ends at its first zero. The name comes back on the
  display exactly when nothing comes after that zero (`DynPs.StationNameReturnsIff`), that is when
  the PS setter kept no character after one that it dropped (`DynPs.GivenNameReturnsIff`): A, line
  feed, B comes back as A (`Limits.FixedNameIsCut`). If the setter dropped the first character, the
  copy is empty, the setter rejects it and the last chunk stays (`DynPs.FixedNameIsShownIff`,
  `DynPs.FixedNameIsEmptyIff`, `Limits.FixedNameIsLost`).

## Model

| member | source | states |
|---|---|---|
| `Polynomials.Division` | rds_encoder.c:151-154 | every polynomial is a multiple of g(x) plus the residue of Horner's rule |
| `Polynomials.ResidueIsUnique` | rds_encoder.c:151-154 | no other polynomial of degree below ten differs from it by a multiple of g(x) |
| `Polynomials.ResidueOfSum` | rds_encoder.c:151-154 | residues are linear |
| `BlockCode.GenerateBlock` | rds_encoder.c:161-177 | the loop folds the selected matrix rows and the offset word into the checkword in place, leaves the other blocks alone and returns infoword and checkword as 26 bits |
| `BlockCode.RowIsPower` | rds_encoder.c:155-159 | row i of the matrix is x^(10+i) modulo g(x) |
| `BlockCode.RowSumIsResidue` | rds_encoder.c:169-171 | the rows selected by the bits from i up sum to the residue of those bits |
| `BlockCode.FastChecksumIsLongDivision` | rds_encoder.c:151-172 | for every infoword the table-driven checkword is the one remainder of x^10 m(x) by g(x) |
| `BlockCode.SyndromeOfBlock` | rds_encoder.c:163-177 | the syndrome of an emitted block is its offset word if and only if the checkword field was zero before |
| `BlockCode.BurstsAreDetected` | rds_encoder.c:163-177 | any error burst of at most ten bits in any block changes its syndrome |
| `BlockCode.SyndromeIdentifiesBlock` | rds_encoder.c:140-149 | the error-free residue is its own offset word among A, B, C, D, C' and no other; `Sync.BlocksSynchronise` has the syndromes of the standard |
| `Sync.ParityIsResidue` | rds_encoder.c:151-177 | for any 26 bits, the syndrome by the matrix of the standard, multiplied by x^16, is the residue modulo g(x) |
| `Sync.SyndromesAgree` | rds_encoder.c:151-177 | two words have the same syndrome by the matrix exactly if they leave the same residue |
| `Sync.BlocksSynchronise` | rds_encoder.c:140-177 | a receiver with the matrix of the standard finds in the four blocks of every consistent group the syndromes of Annex B for A, B, C or C' by the version bit, and D |
| `Sync.EncoderSynchronises` | rds_encoder.c:494-559 | so it does in every block of every group that the encoder sends |
| `Waveforms.TableIsMirrored` | rds_encoder.c:74-138 | complementing the window index negates the waveform |
| `Waveforms.TableIsBounded` | rds_encoder.c:74-138 | all samples lie in [-1, 1] |
| `Waveforms.TableIsSmooth` | rds_encoder.c:74-138 | no step inside a waveform or between a window and its successors exceeds 0.162114 |
| `Waveforms.TableIsReadable` | rds_encoder.c:74-138 | sample 10 shows the middle bit of the window by its sign, sample 29 whether the last two bits agree |
| `Modem.Append` | rds_encoder.c:205-207 | the copy extends the filled part of the buffer by the waveform |
| `Modem.Modulator.AppendSymbol` | rds_encoder.c:197-208 | one bit: differential coding, window shift and waveform extend the modulation of the bits so far |
| `Modem.Modulator.AppendBlock` | rds_encoder.c:196-209 | the 26 bits of a block, most significant first |
| `Modem.Modulator.SendBlock` | rds_encoder.c:194-210 | one block is assembled and appended |
| `Modem.Modulator.GenerateGroupSamples` | rds_encoder.c:179-213 | the buffer is the modulation of the 104 coded bits of the group, and the window is carried to the next call |
| `Demodulator.SampleAt` | rds_encoder.c:205-208 | sample j of symbol k of a run is sample j of the waveform of the window at bit k |
| `Demodulator.DemodulateRecovers` | rds_encoder.c:196-209 | sign and differential decoding recover every bit but the last, for every starting window |
| `Demodulator.PeakRecovers` | rds_encoder.c:196-209 | decoding by amplitude recovers every bit |
| `Demodulator.RunIsContinuous` | rds_encoder.c:185-209 | a run of groups is modulated as one bit string |
| `Demodulator.RunRoundTrip` | rds_encoder.c:161-213 | bit k of block j of group g of any run is recovered from the samples; only the last bit of the run is late |
| `Demodulator.RunLaws` | rds_encoder.c:74-213 | over any run: negation under the complemented window, samples in [-1, 1], steps at most 0.162114 across all boundaries |
| `Demodulator.WindowIsInvisible` | rds_encoder.c:185-203 | the starting window does not change the decoded data |
| `Config.Strnlen` | rds_config.c:197-199 | the length up to the first zero or the bound |
| `Config.EncoderState.constructor` | rds_encoder.c:796-798 | the default state |
| `Config.EncoderState.SetEnabled` | rds_tool.c:144-151 | sets the enabled field and nothing else |
| `Config.EncoderState.SetPi` | rds_config.c:32-39 | stores its argument as PI, leaves everything else alone and returns 0 |
| `Config.EncoderState.SetEcc` | rds_config.c:49-63 | stores ECC and whether it is set |
| `Config.EncoderState.SetLic` | rds_config.c:73-87 | stores twelve bits of LIC and whether it is set |
| `Config.EncoderState.SetPty` | rds_config.c:95-106 | stores values up to 31 and rejects others |
| `Config.EncoderState.SetTa` | rds_config.c:116-123 | stores one bit |
| `Config.EncoderState.SetTp` | rds_config.c:133-140 | stores one bit |
| `Config.EncoderState.SetMs` | rds_config.c:150-157 | stores one bit |
| `Config.EncoderState.SetDi` | rds_config.c:167-175 | stores four bits |
| `Config.EncoderState.SetPs` | rds_config.c:188-218 | null, empty and proper names; the filtered name, set, from its first segment |
| `Config.EncoderState.SetPtyn` | rds_config.c:233-268 | null, empty and proper names, the A/B flag |
| `Config.EncoderState.SetRt` | rds_config.c:284-337 | null, empty and proper texts, the A/B flag, the number of segments in four bits |
| `Config.StoreName` | rds_config.c:208-213 | the loop leaves the filtered characters, then zeros |
| `Config.StoreText` | rds_config.c:308-323 | the loops leave the filtered characters, then spaces to a whole segment or to character 63, then zeros |
| `Clock.ClockGroupDecodes` | rds_encoder.c:381-413 | a receiver of 4A reads day and hour; it reads the minute exactly when it is below 32 |
| `Clock.OffsetIsRead` | rds_encoder.c:409-413 | a receiver reads the difference of the two hours in half hours, modulo 32 |
| `Clock.OffsetIsReadIff` | rds_encoder.c:371-413 | it reads the offset of the time zone exactly while the date there is that of Greenwich |
| `Clock.DayCountCounts` | rds_encoder.c:391-393 | the reference count adds one for each day of the Gregorian calendar |
| `Clock.DayCountStarts` | rds_encoder.c:391-393 | the reference count is 0 on 17 November 1858 |
| `Clock.FormulaError` | rds_encoder.c:388-393 | the formula misses the day count by the leap days it assumes wrongly |
| `Clock.FormulaIsExactIff` | rds_encoder.c:381-393 | from 1 March 1800 on, the formula is the day count exactly from March 1900 to February 2100, and before that in the years from March that four does not divide |
| `Clock.DateDecodes` | rds_encoder.c:381-407 | a receiver of 4A reads the true day count of every date from 1 March 1900 to 28 February 2100 |
| `Receiver.PackedWord` | rds_encoder.c:256-257 | the low char is intact, and a negative one spreads its sign over the high one |
| `Receiver.PackingIsLosslessIff` | rds_encoder.c:256-257 | unpacking returns both chars unless the low one is negative and the high one is not all ones |
| `Receiver.SecondWordFields` | rds_encoder.c:521-524 | type, version, TP, PTY and the tail are where the standard has them |
| `Receiver.KindIsRead` | rds_encoder.c:521-524 | a receiver reads the group type and version numbers of the standard, for each group its own and no other |
| `Scheduler.CallEffect` | rds_encoder.c:574-624 | one call: which kind for which slot, how the counters move, and that the recursion nests once |
| `Scheduler.CountersStayInRange` | rds_encoder.c:569-571 | in every run 0..12, 0..721 and 0..1, so that no counter overflows its type |
| `Scheduler.SecondsAreShort` | rds_encoder.c:609-619 | no second has more than twelve groups |
| `Scheduler.ServiceRate` | rds_encoder.c:582-619 | any 12 k consecutive groups fill the certain slots of a service k times |
| `Scheduler.ClockSpacing` | rds_encoder.c:574-619 | 576 to 665 other groups precede each clock group, for all flag changes |
| `Scheduler.CycleStructure` | rds_encoder.c:582-619 | in every stretch of every run with fixed flags, from whatever state, the kinds go through one cycle of 4, 5, 7 or 12 groups from where the counter stands |
| `Machine.SettersKeepHealth` | rds_config.c:32-337 | every setter keeps the invariant of the state and never unsets the PS |
| `Machine.TransmitKeepsHealth` | rds_encoder.c:565-625 | so does every transmission |
| `Machine.RunsAreHealthy` | rds_config.c:188-337 | in every run with setters, before the first group and between any two, the stored characters are filtered, ECC and LIC flags are right, and the RT index is within its segments |
| `Machine.NoFastTuningAfterPs` | rds_encoder.c:586-597 | once PS is set no 15B is sent again |
| `Fields.KindOnAir` | rds_encoder.c:519-524 | whichever group the scheduler picks, a receiver reads type and version 0B, 1A, 2A, 4A, 10A or 15B of the standard and no other, and the offset word agrees |
| `Fields.LastCallIsKept` | rds_config.c:32-337 | in every run every field has the argument of the last call for it, or the default |
| `Fields.SetterIsReceived` | rds_config.c:32-175 | in every run a receiver reads the argument of the last setter call: PI in block 1 of all groups and in block 3 of 0B and 15B, PTY and TP in all groups, TA, MS and the addressed bit of DI in 0B and 15B, ECC and LIC in 1A by variant |
| `Fields.DefaultIsReceived` | rds_encoder.c:796-798 | before any call it reads music, stereo and dynamic PTY, and zero elsewhere |
| `Fields.LastSwitchDecides` | rds_tool.c:144-151 | the encoder is enabled exactly if the last call for it said so |
| `Fields.FastTuningRepeats` | rds_encoder.c:477-480 | block 4 of every 15B is a copy of block 2 |
| `Services.EmptyTextStops` | rds_config.c:246-301 | in every run, after an empty PTYN or RadioText, and before the first, no 10A or 2A is sent until one is set |
| `Services.SetTextStarts` | rds_config.c:188-337 | in every run PS, PTYN and RadioText are on exactly if the last accepted call for them had a character |
| `Services.LabelsStart` | rds_config.c:49-87 | the labels are on exactly while ECC or LIC is not zero |
| `Services.LabelsNeedValues` | rds_encoder.c:598-601 | no 1A is sent while both are zero |
| `Services.FlagOnAir` | rds_config.c:252-306 | from the first call on, the A/B flag on air is the parity of the texts set on top of another one, for RadioText with a flush |
| `Services.TextsBeginAtFirstSegment` | rds_config.c:215-334 | a new text is sent from its first segment on |
| `Delivery.PsGroupFits` | rds_encoder.c:221-264 | a 0B group carries the address, characters and DI bit of its segment |
| `Delivery.LabelGroupFits` | rds_encoder.c:268-297 | a 1A group carries ECC or LIC, in turn |
| `Delivery.TextGroupFits` | rds_encoder.c:301-348 | a 2A group carries the address, A/B flag and four characters of its segment |
| `Delivery.PtynGroupFits` | rds_encoder.c:420-452 | a 10A group carries the address, A/B flag and four characters of its segment |
| `Delivery.ServiceStep` | rds_encoder.c:565-625 | a call sends the due segment and moves the index on, or leaves the service alone |
| `Delivery.ServiceIsFrequent` | rds_encoder.c:582-619 | a service that is on gets its slots k times in any 12 k groups, whatever the other flags do |
| `Delivery.Delivered` | rds_encoder.c:221-452 | after such a stretch the receiver has every segment, and beyond them only what it had under the same A/B flag |
| `Delivery.EveryGroupIsIntact` | rds_encoder.c:256-257 | in every run with setters every group carries its segment intact, for signed and unsigned chars |
| `Delivery.StretchIsSteady` | rds_config.c:188-337 | every stretch of such a run that leaves a field alone meets the assumption of the delivery theorems |
| `Displays.PsIsDelivered` | rds_encoder.c:221-264 | any 12 groups show the whole PS and DI |
| `Displays.LabelsAreDelivered` | rds_encoder.c:268-297 | any 24 groups give both ECC and LIC |
| `Displays.PtynIsDelivered` | rds_encoder.c:420-452 | any 12 groups show the PTYN |
| `Displays.TextIsDelivered` | rds_encoder.c:301-348 | any 36 groups show the text, character by character, and what is left beyond it |
| `Displays.ClearedIff` | rds_config.c:310-314 | the test clears exactly the characters below the space, the negative ones and 0x7F |
| `Displays.TextIsShownIff` | rds_config.c:303-334 | for every receiver: the display shows the text as given if and only if no sent character is cleared and what is left beyond the sent part is right |
| `Displays.SetTextIsShownIff` | rds_config.c:303-334 | under a new flag the display shows the text as given if and only if it has at most 60 characters or is blank where it is cut off, and none of them is cleared |
| `Displays.SetPsIsShownIff` | rds_config.c:208-216 | the display shows the name as given if and only if the setter keeps all its characters |
| `Flush.FlushParity` | rds_config.c:303-306 | exactly the calls that set a text with a flush on top of another one flip the flag |
| `Flush.FlagAtCall` | rds_encoder.c:313-327 | in a run, after setter calls between two 2A groups the receiver knows the flag exactly if it has flipped an even number of times |
| `Flush.FlushShowsNewTextIff` | rds_config.c:303-334 | in a run, any setter calls between two 2A groups: the last text is shown as given if and only if no sent character is cleared and the rest of the display was right or an odd number of flushes clears it |
| `Flush.FlushShowsNewText` | rds_config.c:303-334 | in a run, after an odd number of flushes between two 2A groups exactly the clean texts that fit are shown as given |
| `Air.SyndromeShowsPosition` | rds_encoder.c:505-530 | every block on air has the syndrome of its own place and version only |
| `Air.MessagesFromAir` | rds_encoder.c:161-213 | the receiver reads from the samples exactly the messages of the encoder |
| `Air.ListeningIsReceiving` | rds_encoder.c:565-625 | listening to the waveform of a run is receiving its groups one by one |
| `Air.TextOverTheAir` | rds_encoder.c:301-625 | in a run, from the setter call to the display by way of the samples alone, with the exact condition |
| `Air.PsOverTheAir` | rds_encoder.c:221-625 | from the PS setter to the display by way of the samples alone: all of DI, and the name as given if and only if the setter kept all its characters |
| `EncoderObject.RdsEncoder.Prepare` | rds_encoder.c:505-530 | the group is cleared and has its offset words, PI and the head of the second word |
| `EncoderObject.RdsEncoder.GenerateGroup0` | rds_encoder.c:221-264 | the blocks of 0B, in place, and the PS index |
| `EncoderObject.RdsEncoder.GenerateGroup1` | rds_encoder.c:268-297 | the blocks of 1A and the variant code |
| `EncoderObject.RdsEncoder.GenerateGroup2` | rds_encoder.c:301-348 | the blocks of 2A and the RT index |
| `EncoderObject.RdsEncoder.GenerateGroup4` | rds_encoder.c:352-416 | the blocks of 4A, or the error of the failed conversion |
| `EncoderObject.RdsEncoder.GenerateGroup10` | rds_encoder.c:420-452 | the blocks of 10A and the PTYN index |
| `EncoderObject.RdsEncoder.GenerateGroup15` | rds_encoder.c:456-490 | the blocks of 15B and the PS index |
| `EncoderObject.RdsEncoder.GenerateGroup` | rds_encoder.c:494-559 | a group of the given kind is built and modulated, or nothing changes |
| `EncoderObject.RdsEncoder.SendClock` | rds_encoder.c:574-581 | the clock group and the reset of the minute |
| `EncoderObject.RdsEncoder.Pick` | rds_encoder.c:586-610 | the kind that is due, or none |
| `EncoderObject.RdsEncoder.GetNextGroup` | rds_encoder.c:565-625 | one call, with its nested call, is one transmission of the state machine, and the buffer holds its waveform |
| `DoubleBuffer.OutputBuffers.GetNextSample` | rds_encoder.c:712-743 | if production keeps up, the samples heard are one zero and then the waveforms in order, none lost or repeated; nothing moves while disabled |
| `DoubleBuffer.OutputBuffers.Produce` | rds_encoder.c:644-669 | only the buffer that is not being read is filled |
| `Pipeline.GetNextUpsampledGroup` | rds_encoder.c:630-673 | the waveform of the next transmission is appended to the stream, with the error codes; nothing if the encoder is not active |
| `Chain.LogIsHistory` | rds_encoder.c:630-673 | the calls of the producer are a history of the state machine |
| `Chain.AiredIsOnAir` | rds_encoder.c:630-673 | the waveforms handed over one by one are the waveform of the run on air, in pieces |
| `Chain.Transmitter.Request` | rds_encoder.c:712-743 | a sample, or zero while inactive or disabled; keeps the invariant |
| `Chain.Transmitter.Turn` | rds_encoder.c:675-699 | the encoder stays active exactly if there is a group to send and the resampler delivers, and then has one waveform more; keeps the invariant |
| `Chain.Transmitter.HeardIsOnAir` | rds_encoder.c:630-743 | whatever is called in whatever order, the samples heard are the beginning of one zero and the resampled waveform of the messages of a history |
| `Chain.Transmitter.HeardInOrder` | rds_encoder.c:630-743 | while the encoder is active, all but the last two waveforms on air have been heard to their end |
| `Operation.RunningEncoder.Turn` | rds_encoder.c:675-699 | one waveform more exactly if there is a group and the resampler delivers; the setter calls before the group are recorded |
| `Operation.RunningEncoder.Run` | rds_encoder.c:630-743 | any interleaving of setter calls, requests and wake-ups, up to the first request that comes too early: while clock and resampler work, the encoder stays active and every request that finds it switched on by the last call for it is answered with one more sample |
| `Operation.RunningEncoder.HeardIsRun` | rds_encoder.c:630-743 | the samples heard are the first of the waveforms of a run with exactly those setter calls, and all but the last two waveforms are heard to their end |
| `Trim.ClearTrailing` | rds_dynpsrt.c:58-62 | the loop clears exactly the trailing white space, and reads before the buffer exactly when the whole string is white space |
| `Trim.Sanitize` | rds_dynpsrt.c:46-84 | the in-place loops and the move leave what `Sanitized` says and return its length or error; exactly for a non-empty string of white space the byte before the buffer is read |
| `Trim.SanitizedIsTrimmedIff` | rds_dynpsrt.c:58-79 | the result is the trimmed string exactly when the text up to its end does not have exactly one character and the string begins with text or ends in white space |
| `Trim.TrimmedHasTextAtBothEnds` | rds_dynpsrt.c:58-70 | the reference removes white space only, and all of it at both ends |
| `DynPs.ScrollShows` | rds_dynpsrt.c:111-139 | the consumer hands to the setter the chunks of eight, whose concatenation is the text, then the fixed name, with that period |
| `DynPs.PsScrolls` | rds_dynpsrt.c:111-139 | over a row of turns the PS of the encoder is the chunk of the place in the cycle, then the fixed name, or the last chunk if that is empty |
| `DynPs.FixedNameIsShownIff` | rds_dynpsrt.c:115-121 | at the last place the copy of the fixed name is on air if and only if it is not empty, or the last chunk is as good as empty |
| `DynPs.CopyIsWholeIff` | rds_dynpsrt.c:245 | the copy is the whole name if and only if nothing comes after its first zero |
| `DynPs.StationNameReturnsIff` | rds_dynpsrt.c:95-121 | at the last place the PS is again the name that the station had if and only if nothing comes after its first zero, or the last chunk looks like it where the copy is empty |
| `DynPs.GivenNameReturnsIff` | rds_config.c:208-216 | the copy is the whole name if and only if the setter kept no character after one that it dropped |
| `DynPs.FixedNameIsEmptyIff` | rds_dynpsrt.c:245 | the fixed name is empty if and only if the setter dropped the first character of the PS |
| `DynPs.RunConsumer` | rds_dynpsrt.c:111-139 | the same for the loop of consumer turns on the encoder state |
| `DynPs.DynamicPs.constructor` | rds_dynpsrt.c:238-245 | the fixed name is the PS at the time up to its first zero |
| `DynPs.DynamicPs.ConsumerStep` | rds_dynpsrt.c:114-138 | one turn sets the PS of the encoder to the next chunk or to the fixed name, and keeps the lengths in range |
| `DynPs.DynamicPs.FileUpdate` | rds_dynpsrt.c:176-190 | a new line is trimmed and scrolling starts over with it, or stops |
| `Mpx.Oscillator.Initialize` | oscilator.c:40-70 | exactly the rates above 57 kHz are accepted |
| `Mpx.Oscillator.IncreasePhase` | oscilator.c:76-89 | one step, modulo a turn; the phase stays within one period |
| `Mpx.WrapIsInvisible` | oscilator.c:76-146 | the wrap of the base phase does not show at 19, 38 and 57 kHz |
| `Mpx.CarriersRepeat` | oscilator.c:122-146 | the carriers jointly repeat every 12 samples |
| `Mpx.Generator.constructor` | fmmod.c:763-771 | both oscillators start in phase |
| `Mpx.Generator.ApplyLpf` | filters.c:333-386 | the buffer of the filter moves on by a period, and the output is the transform of all of it |
| `Mpx.Generator.MonoGenerator` | fmmod.c:96-121 | every output sample is `Output`, whose shares `Spectrum` gives; phase and RDS samples accounted for |
| `Mpx.Generator.DsbGenerator` | fmmod.c:129-159 | every output sample is `Output`, whose shares `Spectrum` gives; phase and RDS samples accounted for |
| `Mpx.Generator.SsbLpfGenerator` | fmmod.c:186-239 | the first pass leaves no trace in the phase; every output sample is `Output`, whose shares `Spectrum` gives, and the memory of the filter is accounted for |
| `Mpx.Generator.HartleySideband` | fmmod.c:268-283 | the cosine oscillator is in phase at its use |
| `Mpx.Generator.SsbHartleyGenerator` | fmmod.c:250-302 | every output sample is `Output`, whose shares `Spectrum` gives; phase and RDS samples accounted for |
| `Mpx.Generator.Process` | fmmod.c:382-401 | the dispatch on the modulation, with the gains of the time |
| `Mpx.Run` | fmmod.c:96-302 | after any history of modulations, gains and period sizes, phase and RDS position are the number of samples, and the next output depends on that number and the memory of the low-pass filter only |
| `Mpx.HistoryIsForgotten` | filters.c:343-346 | histories of the same length give the same next output in mono, DSB and Hartley mode, and in SSB-LPF mode if the last three periods fed into the filter are whole and agree |
| `Spectrum.RdsIsAt57` | fmmod.c:110-292 | in all four modulations the share of RDS is RDS sample n on a sine of 57000 Hz, times both gains |
| `Spectrum.PilotIsAt19` | fmmod.c:96-302 | the share of the pilot is a sine of 19000 Hz, and nothing in mono |
| `Spectrum.StereoIsAt38` | fmmod.c:129-302 | the share of L-R is on a sine of 38000 Hz in DSB, nothing in mono, and for Hartley's method has the shifted copy on the cosine |
| `Spectrum.FilterGetsStereoAt38` | fmmod.c:203-220 | the low-pass filter gets L+R and L-R on a sine of 38000 Hz behind the samples before |
| `Spectrum.FilterIsPutOut` | fmmod.c:218-236 | without pilot and RDS the output is what the filter makes of it, with twice the stereo gain |
| `Spectrum.MonoRemains` | fmmod.c:96-302 | without the other gains L+R remains |
| `Detector.DetectorsAreSharp` | fmmod.c:96-302 | from any sample on, the carriers are orthogonal over one turn of the pilot |
| `Detector.DetectorsFind` | fmmod.c:96-302 | while the inputs are steady for one turn of the pilot, detectors at 57, 38 and 19 kHz and the mean find RDS, L-R, the pilot and L+R and nothing of the others, in mono, DSB and Hartley mode |
| `Lifecycle.RunsAreSound` | rds_encoder.c:749-878 | in every run buffers and mapping are released at most once, and no released buffer is read |
| `Lifecycle.TerminatedIsForever` | rds_encoder.c:829-840 | TERMINATED is absorbing and nothing is released after it |
| `Lifecycle.StaysActive` | rds_encoder.c:675-699 | without a failure or a destruction the encoder stays active |
| `Lifecycle.FailureIsSeen` | rds_encoder.c:691-696 | a failing loop leaves the encoder failed, with nothing released and no sample read from a buffer |
| `Lifecycle.FailureReleasesAll` | rds_encoder.c:691-703 | the thread then ends with the encoder terminated and everything released exactly once |
| `Lifecycle.DestroyReleasesAll` | rds_encoder.c:824-878 | so does a destruction of an active encoder by its owner |
| `Scripts.SteadyStretchesExist` | rds_encoder.c:565-625 | from every encoder with a field that is on, steady stretches of any length exist |
| `Scripts.FlushRunsExist` | rds_encoder.c:565-625 | the runs of the flush theorem exist for any two texts |
| `Limits.LongTextIsCut` | rds_config.c:320-331 | of 64 letters four are shown |
| `Limits.LongTextOnAir` | rds_config.c:320-331 | there is such a run |
| `Limits.LineFeedIsLost` | rds_config.c:310-314 | a line feed in a text is shown as zero |
| `Limits.OldTextStays` | rds_config.c:303-306 | a run with two flushes between two 2A groups in which old letters remain behind the new text |
| `Limits.MinuteIsLost` | rds_encoder.c:411 | minute 45 is read as 13 |
| `Limits.OffsetIsWrong` | rds_encoder.c:371-413 | at 23 hours UTC the zone one hour east is read as seven hours west |
| `Limits.FormulaMissesMarch2100` | rds_encoder.c:391-393 | the formula is a day ahead |
| `Limits.LetterIsRejected` | rds_dynpsrt.c:65-66 | "a" is rejected |
| `Limits.LastLetterIsLost` | rds_dynpsrt.c:73-79 | " ab" becomes "a" |
| `Limits.FixedNameIsLost` | rds_dynpsrt.c:115-121 | a PS of one line feed leaves no fixed name, and the text stays on the display |
| `Limits.FixedNameIsCut` | rds_dynpsrt.c:245 | a PS of A, line feed, B is copied as A and does not come back |
| `Limits.FilterRemembers` | filters.c:343-346 | histories of one sample each that differ in it lead to different next samples |
| `Limits.ShortestSpacing` | rds_encoder.c:574-619 | a run with 576 groups between two clock groups, in which the minute reaches 721 |
| `Limits.LongestSpacing` | rds_encoder.c:574-619 | a run with 665 groups before a clock group |
| `Limits.TextBoundIsTight` | rds_encoder.c:582-619 | 35 groups with 14 groups 2A, so that 36 cannot be lowered for fifteen segments |
| `Limits.PsBoundIsTight` | rds_encoder.c:582-619 | 11 groups with three groups 0B, so that 12 cannot be lowered for the PS |
| `Lifecycle.DestroyTerminates` | rds_encoder.c:824-870 | destruction by the owner always ends in TERMINATED |

## Left out

- Alternative frequencies and 0A groups: no setter ever sets `af_set`, and the AF word is overwritten.
- EncoderObject.RdsEncoder.GenerateGroup: takes the six kinds that the scheduler asks for; the error returns for other types and versions are not reachable from it.
- The null check on the state pointer in the setters: the model's state is an object.
- Clock.OffsetIsReadIff: whole hours only; the code has no minutes in the offset.
- Races inside a call: setters, scheduler calls and sample reads are atomic steps.
- Lost wake-ups and deadlines of the condition variables: the double-buffer theorem assumes that a waveform is there before the next switch.
- Chain.Transmitter.Turn: takes a wake-up of the loop only after a switch of the buffers has asked for a waveform. The loop does not test for that, so that a spurious wake-up would produce a group too early and overwrite a waveform that has not been read.
- Pipeline.GetNextUpsampledGroup: assumes that the resampler delivers no more frames than a buffer holds (`Pipeline.Fits`). The code does not enforce it: it passes the size of the buffer in bytes as its capacity in frames.
- DoubleBuffer.OutputBuffers.Produce: says nothing about the buffers after the resampler has failed; the encoder is then marked as failed and they are never read again, as `Chain.Transmitter.Turn` and `Chain.Transmitter.Request` say.
- Operation.RunningEncoder.Run: ends at a request that comes before the awaited waveform, and takes a clock and a resampler that work; `Chain.Transmitter.Turn` says what their failures do.
- Detector.DetectorsFind: not for SSB by low-pass filtering, where the filter is an arbitrary function and L-R need not be at 38 kHz behind it.
- Mpx.Run: exact arithmetic, without the rounding of phases and samples; and the gains change between periods only.
- Dynamic RadioText: its rotation of up to three segments and its line reading would only add easy members; the A/B theorems cover what each of its calls does.
- The getters: plain reads.
- JACK, soxr, FFTW, GStreamer, sockets, shared-memory set-up, inotify and the numerical design of the filters: the transform of the low-pass filter is an arbitrary function of its buffer and gain that leaves the buffer as it is, and the Hilbert transformer one of its input.
- The GUI, the command line tools, the RTP client and server.
