# A verified model of the JS8Call core

These Dafny modules model six parts of JS8Call and prove what each is for: the frame codec with its
error-correcting code, the line simplifier of the spectrum display, the reporter of spots, the
receiving filter, the store of named configurations, and two small state machines (the sample source
of the transmitter and the poller of a rig). `dafny verify dfyconfig.toml` checks everything.

Where the program changes state, the model does too: classes with the program's fields, arrays filled
in place, and loops, each proved against a specification function about which the theorems are then
stated. Pure lookups and expressions are functions.

## What is proved

**Frames** (`Gf2`, `Js8Tables`, `Js8Certificate`, `Js8Graph`, `LdpcCode`, `LdpcKernel`, `Crc12`,
`Crc12Division`, `Alphabet`, `BinaryNumbers`, `BytePacking`, `FrameCodec`, `FrameContents`, `BeliefPropagation`,
`SumProduct`, `FrameDecoder`, `Js8Frames`, `CandidateSelection`). The generator matrix and the table of checks
are two descriptions of one code: a word satisfies all 87 checks if and only if it is a codeword of the
generator. The generator side is linear algebra over two values, row by row. The converse is a counting
argument: an inverse of the parity half of the check matrix, which the program does not have, is part of the
model as a certificate and is itself checked. The checksum is the remainder of polynomial division, and finds
every change within eleven consecutive bits, but not within twelve. The belief propagation decoder takes its
floating-point operations as a parameter, so its theorems hold for every rounding, infinity and NaN; it is
proved to compute the sum-product messages round by round, to stop in time, and to accept only codewords. Each
message leaves out what its addressee has said, in any arithmetic, and in an exact one a check tells a bit the
chance that its other bits have an odd sum. A pass delivers if and only if the last word is not silence,
corrects few enough signs and passes the checksum, and the result is that of the first of the four passes to
deliver. Together: what is sent is received on the first pass, and whatever is accepted, encoded again, gives
the accepted tones.

**Spectrum lines** (`LineSimplification`, `RealProducts`). The stack machine keeps exactly the points
of the recursive algorithm, in place and in order. No dropped point is farther than epsilon from the
line through its kept neighbours, and every kept inner point was farther than that from a line through
two kept points on its two sides. Farther is meant in the plane: from every point of the line.

**Spots** (`Bytes`, `Division`, `Utf8`, `Ipfix`, `SpotReports`, `ReportCollector`, `SpotCache`, `PskReporter`).
A collector that starts with nothing, interprets the bytes written to a socket by sections 3 and 7 of RFC 7011
and the values of its records by the templates it has been told, but takes an options template without scope
fields and does not check sequence numbers, gets every spot that was sent to it, in order, exactly if the first
report to the socket tells the formats; see the findings for when it does not. No call loses, repeats or
reorders a spot; each payload is a whole number of words, at most 10000 bytes, and exactly as long as it says;
and none goes out before its time: it is full, longer than 508 bytes, or flushed. Strings are cut only between
characters (section 4 of RFC 3629), as late as possible. Two spots queued for one call and band are more than
the cache timeout apart, and the purge of the cache cannot be noticed.

**Receiving filter** (`AudioDevice`, `Rounding`, `Decimation`, `LowPass`, `Detector`). However a period's
input, of any length, is split into writes, the buffer holds the filtered stream at every fourth sample,
rounded and converted to 16 bits; the stream begins with what was fed in earlier periods, which the first
twelve outputs still see. The product with the taps and the conversion are parameters. With an exact product
all input up to a loudness is stored as its rounded convolution if and only if the loudness is at most 18798.

**Configurations** (`SettingsStore`, `SettingsEffects`, `Configurations`, `StoredConfigurations`,
`ConfigurationEdges`, `MultiSettings`). The program is modelled on every store and every name it lets
through. Seen as a map from names to settings, with some common values beside it, its flat store behaves
like that map over any run exactly if each step is clear, a condition on names that can be checked before
the step; then each operation, with the restart it may ask for, is one update of the map, and switching
loses nothing. Where a name is not clear, something is lost; see the findings.

**Transmitter and rig** (`ToneGenerator`, `Modulator`, `RigPolling`). What is played does not depend on
the sizes of the reads, and each frame of the tones falls in its place in the period. A command to the
rig is answered by an update within three polls, and clients see unexpected states only where that is
forced or unavoidable.

## Findings

- Purging a group also removes the key that bears the group's name (`MultiSettings.cpp:403`, `700`, `737`,
  `780`, `816`). So deleting, resetting, overwriting or renaming a configuration called "CurrentName" erases
  the stored name of the current one, and the next switch saves the live settings under "Default"
  (`MultiSettings.cpp:372`): if that is the target they are lost. `ConfigurationEdges.WorkIsLost` is such a
  store, `ConfigurationEdges.StoredNameIsLost` the general case, and `SettingsEffects.PurgeIsClear` says when a
  purge is just the removal of a configuration.
- The dialog lets through names of blanks, and trims them to nothing (`MultiSettings.cpp:85-104`). A group
  without a name is the root group. An alternative so renamed is scattered among the common values
  (`ConfigurationEdges.BlankScatters`), and if the current configuration is so renamed, resetting it erases
  all others (`ConfigurationEdges.ResetOfBlankErasesAll`). `StoredConfigurations.RenamingRefines` gives the
  exact condition of a renaming.
- The options template of the reporter has a scope field count of zero (`PSKReporter.cpp:227`), which section
  3.4.2.2 of RFC 7011 forbids. A collector that insists on it refuses exactly the reports that tell the
  formats (`ReportCollector.StrictlyRead`), and starting with nothing reads none
  (`ReportCollector.StrictlyNothing`).
- A new socket makes the formats due again (`PSKReporter.cpp:408-424`), but not for a report that is already
  prepared. Over TCP they are due once, so when a connection is lost in between, the next one starts with a
  report that a new collector cannot read (`PskReporter.LostFormats`).
- The filter amplifies: the magnitudes of its taps (`Detector.cpp:28-47`) add up to 1.743, and an input that
  stays at the highest level gives 34608, which does not fit the 16 bits it is converted to
  (`Detector.hpp:57`); what is stored then is not defined (`LowPass.ClippedDoesNotFit`). All inputs up to a
  loudness fit if and only if that is at most 18798 (`LowPass.QuietExactly`, for any taps `LowPass.FitsExactly`).
- A new period starts with the samples of the last one in the filter (`Detector.cpp:145-148` resets the place
  alone), so its first twelve outputs mix both (`Decimation.MixedExactly`).
- The sequence number of a report counts messages (`PSKReporter.cpp:471`), where section 3.1 of RFC 7011 counts
  data records. A collector that checks it sees no gap after a report if and only if that has no spots
  (`ReportCollector.GapExactly`).
- A block that would just fill the buffer is dropped (`Detector.cpp:182-183`), so the last place of the buffer
  is never reached (`Decimation.LastStaysEmpty`).
- A block size that is set below what is waiting makes an unsigned difference wrap (`Detector.cpp:171`): the
  next step of a write may leave the buffer, and at exactly what is waiting the write does not end.
  `Detector.ChunkStaysInBuffer` says when.

## Where code and comments differ

- `PSKReporter.cpp:172-173` says that the length leaves out the padding. The stream writes into the very
  array whose size is taken, so it includes it (as sections 3.1 and 3.3 of RFC 7011 require). The model
  follows the code.
- `PSKReporter.cpp:736` expects to find a queued spot for a call that is held back. After a report has
  gone out there is none, and then the time of the call is not refreshed either;
  `SpotCache.SuppressedUpdatesLatest` states when.
- `MultiSettings.hpp:26-28` names a key at the root for the current configuration; the code keeps the
  name in the reserved group (`MultiSettings.cpp:406`).
- `Modulator.cpp:210` and `Modulator.cpp:218-223` would mute and go idle when the amplitude reaches zero. It never does, so a
  transmission goes on with silence until it is stopped (`Modulator.Modulator.ReadData`).

## Model

| member | source | states |
|---|---|---|
| Js8Frames.TonesSatisfyChecks | JS8.cpp:701-1062 | any 87 bits, encoded and read back from the tones, satisfy all 87 checks of the decoder's table, and are the only word with those message bits that does |
| Js8Frames.CostasAreTones | JS8.hpp:32-46 | both families of Costas arrays are three arrays of seven tones |
| Js8Frames.CostasAreCostas | JS8.hpp:32-46 | each of them is a Costas array: its tones differ, and so do its rises over any distance |
| Js8Frames.SendAndReceiveJs8 | JS8.cpp:1375-1409 | encoding with the tables of JS8 and decoding any ratios with the right signs gives back exactly the text and the low three type bits, and nothing for text outside of the alphabet |
| LdpcCode.Js8Sound | JS8.cpp:981-1053 | the hex rows cancel on every check of `Nm`, and the parity half of the checks has an inverse |
| LdpcCode.Js8Transposed | JS8.cpp:662-732 | a bit that a check lists is listed with that check, once, and with no check that does not list it |
| Js8Graph.SameEdges | JS8.cpp:662-732 | `Mn` lists a check for a bit if and only if `Nm` lists the bit for the check, and the three checks of a bit differ |
| Js8Graph.NmIsTransposeOfMn | JS8.cpp:662-732 | a bit listed by a check lists that check in exactly one of its three places |
| Js8Graph.BitsDiffer | JS8.cpp:662-732 | the bits that a check lists differ |
| Js8Certificate.GeneratorCancels | JS8.cpp:701-1062 | the generator rows of the bits of a check add up to zero |
| LdpcCode.GeneratedSatisfies | JS8.cpp:2756-2796 | every product of the generator satisfies every check |
| LdpcCode.CodewordCarriesMessage | JS8.cpp:2735-2796 | the second half of a codeword is the message |
| LdpcKernel.ChecksDetermineParity | JS8.cpp:701-790 | two words that satisfy the checks and agree in the message agree altogether |
| LdpcKernel.ChecksHoldExactlyOnCodewords | JS8.cpp:701-1062 | a word satisfies the checks if and only if it is the codeword of its message half |
| Alphabet.AlphabetRoundTrip | JS8.cpp:850-895 | the lookup inverts the alphabet, and throws for exactly the other characters |
| Crc12Division.ChecksumIsRemainder | JS8.cpp:897-903 | before the mask, the result is the one word of twelve bits that differs from the dividend by a multiple of the polynomial |
| Crc12Division.DivisorIs | JS8.cpp:897-903 | the coefficients of the polynomial, and the checksum of no set bits, which the mask makes 42 |
| Crc12.FeedXor | JS8.cpp:897-903 | the division is linear in the dividend |
| Crc12.ChecksumIsEven | JS8.cpp:899-903 | the last bit of every checksum is zero |
| Crc12.BurstDetected | JS8.cpp:897-928 | payloads that differ only within eleven consecutive bits have equal checksums only if they are equal |
| Crc12.LongerBurstEscapes | JS8.cpp:897-903 | for twelve bits that fails: one change of twelve consecutive bits goes unnoticed at every position |
| FrameCodec.ReadBit | JS8.cpp:2775-2784 | the walking byte index and mask read the next bit of the array |
| FrameCodec.CountParity | JS8.cpp:2769-2777 | the count is odd exactly when the product of matrix row and message is one |
| FrameCodec.PackMessage | JS8.cpp:2684-2698 | four characters at a time become three bytes, the bits of the words in order; refuses exactly what the alphabet lacks |
| FrameCodec.AddTypeAndChecksum | JS8.cpp:2701-2713 | the array then holds payload, type and checksum in 87 consecutive bits |
| FrameCodec.WriteCostas | JS8.cpp:2740-2744 | the three arrays lie at 0, 36 and 72 |
| FrameCodec.WriteTones | JS8.cpp:2746-2796 | the data tones spell parity and message, most significant bit first, and nothing else changes |
| FrameCodec.Encode | JS8.cpp:2657-2797 | the 79 tones are those of the codeword of the frame, with the three Costas arrays in order at symbols 0, 36 and 72; on a bad character the tones are left alone |
| FrameCodec.FrameLayout | JS8.cpp:2738-2796 | the Costas arrays at symbols 0, 36 and 72, and for any three bits of the codeword in turn their tone, 4, 2 and 1 for the bits |
| FrameContents.FrameIsReadBack | JS8.cpp:905-961 | the receiver reads from a frame the message and type it was made of |
| FrameContents.FrameIsReencoded | JS8.cpp:1393-1409 | 87 bits that pass the checksum are the frame of the message and type read from them |
| FrameContents.FrameBits | JS8.cpp:2684-2713 | the bits of a frame by place: six for a letter, the first weighing 32, then three for the type, then the checksum |
| FrameContents.ValidFramesAreFrames | JS8.cpp:905-928 | exactly the frames of some message and type pass the checksum |
| FrameContents.ZeroIsNoFrame | JS8.cpp:1382-1386 | the all-zero word fails the checksum, so silence is never a message |
| FrameContents.SetBit | JS8.cpp:910-914 | sets one bit of the array and no other |
| FrameContents.PackDecoded | JS8.cpp:908-914 | the bytes hold the 87 bits and a clear one |
| FrameContents.CheckCRC12 | JS8.cpp:905-928 | true exactly when the last twelve bits are the checksum of the rest |
| FrameContents.ReadWords | JS8.cpp:943-953 | the twelve words are the values of the groups of six bits |
| FrameContents.ExtractMessage174 | JS8.cpp:930-961 | the message of a word that passes, and the empty string otherwise |
| BeliefPropagation.Decide | JS8.cpp:761-767 | the beliefs and the word decided on after a number of rounds |
| BeliefPropagation.FillToChecks | JS8.cpp:752-757 | the first messages to the checks are the ratios of the bits |
| BeliefPropagation.CountFailing | JS8.cpp:769-776 | the number of checks with an odd sum |
| BeliefPropagation.SendToChecks | JS8.cpp:804-815 | each bit tells a check its belief without that check's own message |
| BeliefPropagation.ProductOfOthers | JS8.cpp:828-833 | the product of what the other bits told the check (`SumProduct.OthersAreMultiplied` says what that is) |
| BeliefPropagation.SendToBits | JS8.cpp:817-837 | each check tells a bit the product of what the other bits told it (`SumProduct.ToldIsOddChance`) |
| BeliefPropagation.SendMessages | JS8.cpp:804-837 | one round takes the messages of a round to those of the next |
| BeliefPropagation.CountErrors | JS8.cpp:783-789 | the number of positions where word and ratio contradict each other |
| BeliefPropagation.Accept | JS8.cpp:778-792 | gives the last 87 bits and the number of corrected signs |
| BeliefPropagation.Iterate | JS8.cpp:794-802 | the counters kept by the loop are those of the trace of decisions |
| BeliefPropagation.NextIteration | JS8.cpp:769-802 | by these counters the loop ends exactly where the run of decisions does; a run that goes on has given no reason to end |
| BeliefPropagation.FirstDecision | JS8.cpp:742-767 | before any message the decision is the sign of each ratio |
| BeliefPropagation.HardDecisionAgrees | JS8.cpp:767-789 | the sign decision contradicts no ratio |
| BeliefPropagation.BpDecode174 | JS8.cpp:736-841 | for all ratios and all arithmetic: at most 31 iterations, whose words are those of the messages; a failure only after all of them or when no progress is made; non-negative exactly if the last word satisfies every check, and then it is the count of contradicted signs |
| BeliefPropagation.RunIsUnique | JS8.cpp:736-841 | ratios have one run of decisions, so the result does not depend on how it is found |
| BeliefPropagation.RunningIs | JS8.cpp:778-802 | a run goes on after exactly the words that fail a check where there is no reason to give up |
| BeliefPropagation.GivesUpIs | JS8.cpp:794-802 | it gives up exactly if it has made more than ten iterations, more than 15 checks fail, and at none of the last five their number went down |
| BeliefPropagation.DisagreementsAre | JS8.cpp:783-789 | the contradicted signs are the size of the set of places where word and ratio differ |
| BeliefPropagation.FailingAre | JS8.cpp:769-776 | the failing checks are the size of the set of checks with an odd number of ones |
| SumProduct.OthersAreMultiplied | JS8.cpp:828-833 | in whatever arithmetic, what a check multiplies for a bit are all messages but that bit's own |
| SumProduct.OwnMessageIsLeftOut | JS8.cpp:828-833 | so the bit's own message has no part in it |
| SumProduct.OwnMessageCompletes | JS8.cpp:828-833 | where the order of factors does not matter, the product times that message is the product of all |
| SumProduct.ToldIsOddChance | JS8.cpp:804-837 | in exact arithmetic a check tells a bit the chance that its other bits have an odd sum |
| SumProduct.BeliefMultiplies | JS8.cpp:761-766 | the odds of a bit are those of its ratio times those that its three checks tell |
| SumProduct.AskedLeavesOut | JS8.cpp:804-815 | a bit tells a check its odds without what it has from that check |
| SumProduct.DecisionIsLikelier | JS8.cpp:767 | the decision is for the likelier value |
| SumProduct.ExactIsPossible | JS8.cpp:804-837 | there is such arithmetic |
| SumProduct.Js8Places | JS8.cpp:662-732 | the tables give a bit one place in each of its checks, as these theorems ask |
| FrameDecoder.AllZero | JS8.cpp:1382-1386 | finds exactly the all-zero word |
| FrameDecoder.Deliver | JS8.cpp:1393-1409 | delivers exactly the words that pass the checksum, with their tones |
| FrameDecoder.DecodesIsUnique | JS8.cpp:736-841 | ratios have one last word and one count |
| FrameDecoder.AcceptedWordIsReencoded | JS8.cpp:1401-1413 | what is read from an accepted word, encoded, is that word |
| FrameDecoder.FrameIsNotSilence | JS8.cpp:1382-1386 | no word with a valid checksum is skipped as silence |
| FrameDecoder.CleanIsDecoded | JS8.cpp:1375-1409 | ratios with the signs of a frame give that frame in the first iteration, with no error, and it is not silence |
| FrameDecoder.DecodePass | JS8.cpp:1375-1413 | one pass delivers if and only if the last word decided on is not all zero, passes the checksum, and corrects less than 60 signs, at most 35 if the synchronisation is below 2, 39 in the last two passes, and 30 in the last |
| FrameDecoder.DecodePasses | JS8.cpp:1368-1413 | the result is that of the first pass that delivers, of the four over llr0, llr1, llr0 without its first 24 ratios and llr0 without its first 48, and nothing only if none does; its tones are reproduced, and ratios with a frame's signs are decoded in pass one with no error |
| FrameDecoder.FirstWordHolds | JS8.cpp:736-792 | when the signs are a codeword, the first iteration ends the decoding with zero errors |
| FrameDecoder.ToneBitsOfFrame | JS8.cpp:1299-1336 | reading the bits of symbols 7 to 35 and 43 to 71 gives back the codeword |
| FrameDecoder.SendAndReceive | JS8.cpp:1368-1409 | the end-to-end round trip, for any pair of tables that describe one code |
| CandidateSelection.ExtractCandidates | JS8.cpp:1869-1896 | the results are the greedy choice, at most 300, each strong enough; if fewer, everything strong enough is covered |
| CandidateSelection.Erase | JS8.cpp:1891-1893 | removes exactly the entries within the distance |
| CandidateSelection.CandidatesDescend | JS8.cpp:1869-1896 | results come in order of strength |
| CandidateSelection.CandidatesSeparate | JS8.cpp:1869-1896 | no two results are within the distance of each other |
| CandidateSelection.SuppressorIsStronger | JS8.cpp:1869-1896 | what is suppressed lies near a result at least as strong |
| CandidateSelection.CutOffIsWeakest | JS8.cpp:1873-1876 | at the limit, what is left out is no stronger than any result |
| LineSimplification.RDP.Search | RDP.cpp:63-80 | finds the first farthest point beyond epsilon in a span, or none |
| LineSimplification.FarthestFinds | RDP.cpp:63-80 | that point is beyond epsilon, none is farther and none before it as far, and without one no point is beyond |
| LineSimplification.RDP.MarkKept | RDP.cpp:43-91 | the stack machine ends and marks exactly the points of the recursion |
| LineSimplification.OrderDoesNotMatter | RDP.cpp:47-91 | what the stack will add is the same in any order of the stack |
| LineSimplification.RDP.Compact | RDP.cpp:93-105 | the marked points come first, in order, and the rest of the array is as it was |
| LineSimplification.RDP.Simplify | RDP.cpp:29-106 | in place: the front of the polygon is the simplified polygon, and the rest is as it was |
| LineSimplification.SimplifiedIs | RDP.cpp:93-105 | the simplified polygon are the points kept, each once, in order |
| LineSimplification.CrossIsDistance | RDP.cpp:52-61 | for any point of a line: length times distance is the cross product, up to how far the foot of the perpendicular is off (all squared) |
| LineSimplification.BeyondIs | RDP.cpp:52-80 | a point is beyond epsilon exactly if it is farther than that from every point of a line of positive length |
| LineSimplification.DroppedIsClose | RDP.cpp:39-91 | a dropped point has kept neighbours from whose line it is not beyond epsilon |
| LineSimplification.DistanceAtMostEpsilon | RDP.cpp:39-91 | with increasing abscissas its distance from that line is at most epsilon |
| LineSimplification.KeptIsFar | RDP.cpp:63-91 | a kept inner point was beyond epsilon from a line through two kept points on its two sides |
| LineSimplification.EndsAreKept | RDP.cpp:41-47 | the first and last points stay first and last |
| Utf8.CutsBetweenCharacters | PSKReporter.cpp:102-123 | a well-formed text may be cut exactly before a byte that continues nothing |
| Utf8.FitIsLongest | PSKReporter.cpp:102-131 | no longer well-formed prefix fits |
| Utf8.FitWastesLittle | PSKReporter.cpp:104-110 | at most three bytes of the room stay unused |
| SpotReports.TruncatePosition | PSKReporter.cpp:112-124 | the walk back finds the end of the longest well-formed prefix that fits |
| SpotReports.WriteUtfString | PSKReporter.cpp:91-136 | appends the length and the cut text |
| SpotReports.CutIsBest | PSKReporter.cpp:91-136 | what is written is well-formed, the text itself exactly if it is short enough, at least 251 bytes if not, and never improvable |
| SpotReports.StringsAreRead | PSKReporter.cpp:91-136 | a run of such strings is read back |
| SpotReports.SetLength | PSKReporter.cpp:153-177 | pads to words and fills in the padded length behind the first field |
| SpotReports.SetLengthMakesSet | PSKReporter.cpp:153-177 | a place-holder header so closed is a set as RFC 7011 has it |
| SpotReports.SenderDescriptor | PSKReporter.cpp:181-215 | the 60 bytes, one by one, which are the template set of the spot records |
| SpotReports.ReceiverDescriptor | PSKReporter.cpp:219-246 | the 44 bytes, one by one, which are the options template set of the receiver record, without scope fields |
| SpotReports.DescriptorsFit | PSKReporter.cpp:181-246 | the descriptors are sets of 60 and 44 bytes that a tolerant collector can take, whatever is known before |
| SpotReports.ReceiverInformation | PSKReporter.cpp:489-513 | the receiver's strings as a data set |
| SpotReports.ReceiverRecord | PSKReporter.cpp:489-513 | the four strings are a record of the receiver descriptor |
| SpotReports.WriteSpot | PSKReporter.cpp:557-575 | appends the bytes of a spot: shifts and casts are big-endian fields |
| SpotReports.SpotRecordFits | PSKReporter.cpp:189-211 | the bytes of a spot are a record of the sender descriptor |
| SpotReports.SpotRecordSize | PSKReporter.cpp:557-575 | a spot takes 14 to 776 bytes, so padding is never a record |
| Ipfix.MessageIsRead | PSKReporter.cpp:463-513 | a collector that knows the templates in force, and takes options templates without scope fields, reads back every set of a message |
| Ipfix.SetsAreRead | PSKReporter.cpp:153-177 | the lengths of the sets tile the message |
| Ipfix.RecordsAreRead | PSKReporter.cpp:540-575 | records are told from padding |
| Ipfix.MessageStarts | PSKReporter.cpp:463-475 | a message starts with version 10, its length, time and numbers, most significant byte first |
| ReportCollector.ReportIsRead | PSKReporter.cpp:463-612 | a report is read back by a tolerant collector that has been told the formats, now or before, and leaves it told |
| ReportCollector.ReportIsRefused | PSKReporter.cpp:463-513 | a collector that has not been told the formats cannot read a report that does not tell them |
| ReportCollector.StrictlyRead | PSKReporter.cpp:219-246 | a collector that insists on scope fields refuses a report if and only if it tells the formats |
| ReportCollector.StrictlyNothing | PSKReporter.cpp:219-246 | so, starting with nothing, it reads no report at all |
| ReportCollector.SpotIsRead | PSKReporter.cpp:557-575 | a spot is read back by the numbers that the template gives to its values, strings cut and numbers reduced to their widths |
| ReportCollector.ReceiverIsRead | PSKReporter.cpp:489-513 | and so are the strings of the receiver |
| ReportCollector.SeenUnchanged | PSKReporter.cpp:557-575 | it is the same spot exactly if strings are short and numbers in range |
| ReportCollector.EverySpotIsCollected | PSKReporter.cpp:516-619 | over a run of reports all spots are collected, in order, by a tolerant collector told the formats before or with the first |
| ReportCollector.SessionIsCollected | PSKReporter.cpp:516-619 | from the bytes of one connection all spots are collected if the first report tells the formats, and otherwise nothing is |
| ReportCollector.ReportRecords | PSKReporter.cpp:463-575 | a report has one data record for the receiver and one for each spot |
| ReportCollector.GapExactly | PSKReporter.cpp:463-475 | a collector that counts data records sees no gap between a report and the next if and only if the first has no spots |
| PskReporter.ReportSize | PSKReporter.cpp:143-177 | a report is as long as its parts, and whole words |
| PskReporter.ClosedIsReport | PSKReporter.cpp:599-602 | filling in length and time makes the payload a report |
| PskReporter.PaddedLength | PSKReporter.cpp:578-580 | the length computed before sending is that of the report |
| PskReporter.AddedIsNotFirst | PSKReporter.cpp:578-612 | a report with one spot is never over the limit, so something is always sent |
| PskReporter.CloseReport | PSKReporter.cpp:587-603 | the bytes written are those of the report |
| PskReporter.Reporter.constructor | PSKReporter.cpp:276-305 | starts valid and empty |
| PskReporter.Reporter.Reconnect | PSKReporter.cpp:408-424 | the formats are due again, once or three times; the first report to the socket tells them exactly if none was prepared or the prepared one does |
| PskReporter.Reporter.RepeatDescriptors | PSKReporter.cpp:344-352 | over UDP the formats are due three more times |
| PskReporter.Reporter.BuildPreamble | PSKReporter.cpp:463-514 | the next number, descriptors while they are due, and the receiver |
| PskReporter.Reporter.TakeResidue | PSKReporter.cpp:538-552 | what was left over comes first in the new set |
| PskReporter.Reporter.Take | PSKReporter.cpp:555-616 | one spot moves on, and a report goes out when it is due, with the spot that does not fit left over; what goes out has more than 508 bytes, or the next spot would make it more than 10000, or a flush is on |
| PskReporter.Reporter.Post | PSKReporter.cpp:586-614 | one more report is written, and the buffers start afresh with the residue |
| PskReporter.Reporter.Fill | PSKReporter.cpp:532-617 | spots move until one report is sent or the queue is empty |
| PskReporter.Reporter.SendQueued | PSKReporter.cpp:532-617 | reports are sent until the queue is empty, at least one for a flush, and without spots exactly one; any but the last is full, and the last is full, longer than 508 bytes, or flushed |
| PskReporter.Reporter.SendReport | PSKReporter.cpp:516-619 | every spot stays in order through reports, set, residue and queue; the queue empties, every 125th call sends, only a full report is followed by another, the last one is full, longer than 508 bytes or flushed, and each preamble takes one from the formats due |
| PskReporter.Reporter.SetLocalStation | PSKReporter.cpp:675-690 | sets the three strings of the receiver |
| PskReporter.Reporter.AddRemoteStation | PSKReporter.cpp:692-759 | queue and cache change as the arrival says (`SpotCache.ArrivalIs`), and not at all without a socket |
| PskReporter.Reporter.Update | PSKReporter.cpp:734-747 | the search from the end replaces the latest matching spot |
| PskReporter.Reporter.CollectorGetsAll | PSKReporter.cpp:516-619 | from the bytes of any connection a tolerant collector gets every spot sent over it, or nothing if the first report does not tell the formats |
| PskReporter.Reporter.LittleWaits | PSKReporter.cpp:516-619 | between calls an open report with spots has at most 508 bytes, or one spot of at most 776 bytes is left over |
| PskReporter.Reporter.CollectorSeesGaps | PSKReporter.cpp:463-619 | of any two successive reports that were written, a collector that counts data records sees a gap exactly if the first has spots |
| PskReporter.Reporter.PresentCollectorGetsAll | PSKReporter.cpp:408-619 | for the present socket that is decided when it is opened: by whether the report prepared then, if any, tells the formats |
| PskReporter.LostFormats | PSKReporter.cpp:408-619 | a run after which a collector gets nothing from the second connection |
| SpotCache.EnqueuesAreSpaced | PSKReporter.cpp:711-757 | over any run two spots queued for one call and band are more than the timeout apart, unless the later came with an eclipse |
| SpotCache.ArrivalIs | PSKReporter.cpp:711-757 | a spot is queued if call and band are unknown or were last queued or refreshed more than 3600 seconds ago, or at an eclipse; else it replaces the latest of its kind; what is older than 7200 seconds is forgotten, and nothing else |
| SpotCache.SuppressedUpdatesLatest | PSKReporter.cpp:730-747 | a spot held back keeps the queue's length and changes only the latest match; the time is refreshed exactly if there is one |
| SpotCache.PurgeIsInvisible | PSKReporter.cpp:752-757 | a cache that is never purged queues the same spots |
| SpotCache.KeysAreUnambiguous | PSKReporter.cpp:711-714 | two spots share a key exactly if call and band agree, for band names without the separator |
| AudioDevice.Store | AudioDevice.hpp:51-75 | the chosen channel of each frame goes to its place, and nothing else changes |
| AudioDevice.StoreUndoesLoad | AudioDevice.hpp:51-104 | storing what was loaded gives the samples back on every channel |
| AudioDevice.ChannelsAre | AudioDevice.hpp:51-104 | the left channel is the first sample of a frame, the right one the second |
| Rounding.RoundIsNearest | Detector.hpp:57 | rounding is to a nearest integer, odd, and upwards from the middle above zero |
| Detector.Filter.Shift | Detector.hpp:54-55 | the register goes on holding the last 49 samples |
| Detector.Filter.DownSample | Detector.hpp:51-58 | the result is the product of the taps with the end of the input, rounded and converted to 16 bits |
| Detector.Detector.Decimate | Detector.cpp:179-189 | a full block becomes outputs exactly if there is more room than for it |
| Detector.Detector.Gather | Detector.cpp:168-192 | frames are gathered as one sample after the other would be |
| Detector.Detector.WriteData | Detector.cpp:136-199 | a write is the absorption of its acceptable frames, after a restart if the second went back |
| Detector.Detector.ResetBufferPosition | Detector.cpp:94-126 | the next place follows the clock, and the buffer is rotated by the difference |
| Detector.PlaceIs | Detector.cpp:96-106 | the place is the last frame that begins by that time |
| Detector.RotatedKeepsDistance | Detector.cpp:108-125 | the rotation keeps what was just before the old place just before the new one |
| Detector.Detector.SetBlockSize | Detector.cpp:64-68 | any size is set, and the sink is in order exactly if the block fits the buffer and is longer than what waits |
| Detector.ChunkStaysInBuffer | Detector.cpp:168-177 | a step of a write stays in the buffer if and only if the block fits and has not been overtaken, or all that remains fits; it makes no progress exactly at a full block |
| Decimation.AbsorbConvolves | Detector.cpp:157-193 | after any input, whatever was fed before, output k is the filtered stream, the rest of the buffer is untouched, and what has not come out waits while there is more room than for a block |
| Decimation.RoomIsUsed | Detector.cpp:179-189 | a full block gives an output for any four samples if there is more room than for these, and else none |
| Decimation.LastStaysEmpty | Detector.cpp:179-189 | the last place of the buffer is never reached |
| Decimation.WriteAgrees | Detector.cpp:152-166 | the frames that a write drops would have changed no output |
| Decimation.SplitDoesNotMatter | Detector.cpp:157-193 | any split into writes of input of any length ends with the outputs of one write, and of the whole input; and in the same state while there is more room than for a block |
| Decimation.PeriodIsConvolved | Detector.cpp:136-199 | both together, for any period, of input of any length |
| Decimation.OwnInputDecides | Detector.cpp:136-199 | from the thirteenth output on a period's own input alone decides |
| Decimation.MixedExactly | Detector.cpp:136-199 | what the filter sees is independent of earlier periods if and only if it is not for one of the first twelve outputs |
| LowPass.NormOfLowPass | Detector.cpp:28-47 | the taps add up to 1.056198912221, and their magnitudes to 1.743095472981 |
| LowPass.LowPassIsSymmetric | Detector.cpp:28-47 | the taps read the same from both ends, and the largest is in the middle |
| LowPass.WeightedBound | Detector.hpp:57 | a convolution is at most the loudness of the input times the sum of the magnitudes |
| LowPass.FitsExactly | Detector.hpp:57 | for any taps, all rounded convolutions of input up to a loudness fit 16 bits if and only if that of the worst case does |
| LowPass.QuietExactly | Detector.cpp:28-47 | for the taps of the receiver, if and only if the loudness is at most 18798 |
| LowPass.ClippedDoesNotFit | Detector.cpp:28-47 | input at the highest level gives 34608 |
| LowPass.QuietIsConvolved | Detector.hpp:51-58 | quiet input is stored as its convolution, within half and the error of the product; exactly rounded if that has none |
| LowPass.StoredExactly | Detector.hpp:51-58 | with an exact product all that is stored is the rounded convolution if and only if the worst case fits |
| LowPass.QuietPeriodIsConvolved | Detector.cpp:136-199 | the same for a whole period, whatever the writes |
| ToneGenerator.SymbolInRange | Modulator.cpp:190-199 | the symbol index stays below 79 |
| ToneGenerator.SymbolIs | Modulator.cpp:197 | a frame belongs to the symbol whose 4 nsps frames it is among |
| ToneGenerator.EndIs | Modulator.cpp:190-193 | the tones end after 79 symbols, or 9999 nsps frames of tuning, and fade from 315.932 nsps frames on |
| ToneGenerator.TurnsOfSymbol | Modulator.cpp:199-204 | over a symbol the phase advances as the frequency does in that time, and by one turn more for each tone |
| ToneGenerator.NextToneIsOneTurn | Modulator.cpp:199-204 | so neighbouring tones differ by exactly one turn |
| ToneGenerator.PhaseIsTotal | Modulator.cpp:207-209 | the phase is the sum of all advances, but for whole turns |
| ToneGenerator.PhaseStaysInTurn | Modulator.cpp:207-209 | it stays within one turn if no advance is more |
| ToneGenerator.Level | Modulator.cpp:213 | a sample is nearest to amplitude times sine |
| ToneGenerator.ChunksDoNotMatter | Modulator.cpp:148-246 | reads in two parts play what one read plays |
| ToneGenerator.AfterIs | Modulator.cpp:188-218 | phase and amplitude after any number of frames, in closed form |
| ToneGenerator.OutputIs | Modulator.cpp:148-246 | the k-th frame is silence, the sample of its index, or silence for good |
| Modulator.FramesInIsExact | Modulator.cpp:80-95 | the 32-bit arithmetic does not overflow for periods of up to 30 seconds |
| Modulator.SubmodesAre | commons.h:29-48 | spacing times samples of a symbol is 12000, and delay and tones fit the period |
| Modulator.Timing | Modulator.cpp:59-95 | in all three branches frame i is played start delay + i/48 ms into its period or, if the lead time reaches it, the next; there is silence or there are skipped frames, not both |
| Modulator.Modulator.Start | Modulator.cpp:25-119 | a start leaves the generator at the beginning, at full amplitude, with the silence or the skipped frames that put it in place |
| Modulator.Modulator.TakeAdvance | Modulator.cpp:193-202 | the cached phase advance is always that of the present symbol and frequency |
| Modulator.Modulator.Sound | Modulator.cpp:193-216 | one frame of the tones |
| Modulator.Modulator.ReadSilence | Modulator.cpp:164-183 | silence first, as much as fits |
| Modulator.Modulator.ReadData | Modulator.cpp:148-246 | fills every buffer with the frames that are due, at whatever frequency is set, and never goes idle by itself |
| Modulator.Modulator.Tune | Modulator.cpp:121-126 | tuning is set, at any time; a transmission ends when it is switched off, and goes on in order when it is switched on |
| RigPolling.PollingTransceiver.DoPostStart | PollingTransceiver.cpp:53-62 | going online is expected |
| RigPolling.PollingTransceiver.DoPostFrequency | PollingTransceiver.cpp:71-86 | the expected frequency and mode, an unknown mode ignored |
| RigPolling.PollingTransceiver.DoPostTxFrequency | PollingTransceiver.cpp:88-98 | the expected second frequency, and split on exactly for one that is not zero |
| RigPolling.PollingTransceiver.DoPostMode | PollingTransceiver.cpp:100-109 | the expected mode |
| RigPolling.PollingTransceiver.DoPostPtt | PollingTransceiver.cpp:111-120 | the expected keying |
| RigPolling.PollingTransceiver.DoPreUpdate | PollingTransceiver.cpp:122-130 | withholds exactly while polls remain and the state is not the expected one |
| RigPolling.PollingTransceiver.UpdateComplete | TransceiverBase.cpp:222-229 | emits exactly new states that may be shown, or any when forced |
| RigPolling.PollingTransceiver.DoSync | PollingTransceiver.cpp:132-167 | a poll signals or counts down as the transition function says |
| RigPolling.AlwaysStable | PollingTransceiver.cpp:53-167 | over every run at most three polls remain, and when none does nothing but the last signalled state is expected |
| RigPolling.SignalledWithinThreePolls | PollingTransceiver.cpp:132-167 | a change is signalled within three polls unless another command comes first |
| RigPolling.PollSettles | PollingTransceiver.cpp:132-167 | after a poll its finding is signalled and expected, or polls remain and it is neither expected nor forced |
| RigPolling.UpdatesAreExpected | PollingTransceiver.cpp:122-167 | an update shows an unexpected state only if forced or out of polls |
| StoredConfigurations.RunOfStoreIsPlain | MultiSettings.cpp:360-822 | over any run of clear operations, each with its deferred swap, the configurations in the store are those of a plain map from names to settings |
| StoredConfigurations.TracksExactly | MultiSettings.cpp:360-822 | a run of the program stays with that of the map at every step if and only if every step is clear |
| StoredConfigurations.RestartsExactly | MultiSettings.cpp:575-744 | the next exit starts the program again exactly after a switch to another configuration, or after overwriting or resetting the current one |
| StoredConfigurations.RefinesExactly | MultiSettings.cpp:360-822 | an operation of the program, on any store in order, is that on the map if and only if it is clear |
| StoredConfigurations.SwitchingRefines | MultiSettings.cpp:360-602 | switching: no common value bears the name of the target |
| StoredConfigurations.CloningRefines | MultiSettings.cpp:604-639 | cloning: always |
| StoredConfigurations.OverwritingRefines | MultiSettings.cpp:641-707 | overwriting: no common value bears the name of the target, which is the current or not called as the stored name |
| StoredConfigurations.ResettingRefines | MultiSettings.cpp:709-744 | resetting: the same |
| StoredConfigurations.RenamingRefines | MultiSettings.cpp:746-790 | renaming: the new name is not empty, and the target is the current one or as for a deletion |
| StoredConfigurations.DeletingRefines | MultiSettings.cpp:792-822 | deleting: the target is the current one, or neither called as the stored name nor as a common value |
| StoredConfigurations.SharingRefines | MultiSettings.cpp:244-253 | setting a common value: its key has no slash and is not the stored name |
| StoredConfigurations.UnsharingRefines | MultiSettings.cpp:255-266 | removing a common value: its key is neither the stored name nor that of a configuration, and if it has a slash, nothing of a configuration is there |
| StoredConfigurations.RepositionedIs | MultiSettings.cpp:360-421 | the deferred swap is the one on the map, but forgets the common value of the current name |
| StoredConfigurations.ExtractedAtRoot | MultiSettings.cpp:540-554 | at the root the live settings are read |
| StoredConfigurations.ExtractedInGroup | MultiSettings.cpp:540-554 | in a group its settings are read, without the place-holder |
| ConfigurationEdges.StartedIs | MultiSettings.cpp:328-341 | a start opens the configuration used last, or the default one; the store is in order if and only if no other bears its name |
| ConfigurationEdges.StartedWithIs | MultiSettings.cpp:343-357 | asking for another at the start is a switch to it, exactly if no common value bears its name |
| ConfigurationEdges.ObsoleteIsConverted | MultiSettings.cpp:303-326 | opening a store of earlier versions makes the named group live, and adds the live settings to the default configuration |
| ConfigurationEdges.ObsoleteIsSwitch | MultiSettings.cpp:303-326 | that is a switch from the default name if and only if no default configuration has other keys and no common value bears the name |
| ConfigurationEdges.StoredNameIsLost | MultiSettings.cpp:360-411 | after the configuration called "CurrentName" is deleted, any switch drops the current name, and to "Default" its settings too |
| ConfigurationEdges.WorkIsLost | MultiSettings.cpp:360-411 | a store in which "Work" is so lost |
| ConfigurationEdges.TrimmedToNothing | MultiSettings.cpp:101-104 | the dialog yields the empty name for exactly the texts of blanks |
| ConfigurationEdges.BlankScatters | MultiSettings.cpp:746-790 | an alternative renamed to blanks becomes common values and parts of other configurations |
| ConfigurationEdges.ResetOfBlankErasesAll | MultiSettings.cpp:387-407 | resetting a current configuration renamed to blanks erases all others, and all common values |
| Configurations.RunIsPlain | MultiSettings.cpp:360-822 | over any run, operations with a deferred swap end as updates of a plain map from names to settings |
| Configurations.SwitchKeepsAll | MultiSettings.cpp:360-421 | switching, with changes up to the restart, keeps every configuration |
| Configurations.CloneAddsOne | MultiSettings.cpp:604-639 | a clone is one more name for the same settings |
| Configurations.CloneIntoOverwrites | MultiSettings.cpp:641-707 | the target gets the settings it is overwritten with |
| Configurations.ResetEmpties | MultiSettings.cpp:709-744 | the target becomes empty and stays in the map |
| Configurations.RenameMoves | MultiSettings.cpp:746-790 | the settings move to the new name |
| Configurations.DeleteRemoves | MultiSettings.cpp:792-822 | the name disappears, unless it is current |
| Configurations.CopyName | MultiSettings.cpp:624-632 | the search for a name ends with the first that is free |
| SettingsStore.PlaceInGroup | MultiSettings.cpp:540-554 | the keys with the prefix of a group are the keys in it |
| SettingsStore.KeysAre | MultiSettings.cpp:39-43 | the names of group and keys as they are stored |
| SettingsEffects.WriteEffect | MultiSettings.cpp:556-573 | writing a group adds to that configuration, or adds it, even if empty, and changes nothing else |
| SettingsEffects.PurgeEffect | MultiSettings.cpp:399-404 | purging a group removes that configuration and the common value of its name |
| SettingsEffects.PurgeIsClear | MultiSettings.cpp:399-404 | it removes nothing but the configuration if and only if no key of the root group bears its name |
| SettingsEffects.PurgeOfAll | MultiSettings.cpp:399-404 | purging the group without a name removes all configurations but the live one, and all common values |
| SettingsEffects.RelivedEffect | MultiSettings.cpp:379-387 | replacing the root settings leaves all alternatives alone |
| MultiSettings.MultiSettings.constructor | MultiSettings.cpp:288-357 | opens any store, converting that of earlier versions |
| MultiSettings.MultiSettings.Convert | MultiSettings.cpp:303-326 | takes the key of earlier versions out of use |
| MultiSettings.MultiSettings.GetSettings | MultiSettings.cpp:540-554 | collects the settings under the present groups |
| MultiSettings.MultiSettings.LoadFrom | MultiSettings.cpp:556-573 | writes them, or the place-holder |
| MultiSettings.MultiSettings.Purge | MultiSettings.cpp:402-403 | removes the key of the present group's name and everything under it |
| MultiSettings.MultiSettings.RemoveLive | MultiSettings.cpp:379-385 | removes exactly the keys without the reserved name, and what is under them |
| MultiSettings.MultiSettings.Reposition | MultiSettings.cpp:360-421 | the pending swap, on any store, with "Default" for a name that is not stored |
| MultiSettings.MultiSettings.Exit | MultiSettings.cpp:459-466 | the deferred swap, and whether the program is to end: exactly if no restart was asked for |
| MultiSettings.MultiSettings.SelectConfiguration | MultiSettings.cpp:575-602 | asks for a switch to a configuration that exists and is not current; then the window closes and the program is to start again |
| MultiSettings.MultiSettings.CloneConfiguration | MultiSettings.cpp:604-639 | the clone, under the first free name |
| MultiSettings.MultiSettings.CloneIntoConfiguration | MultiSettings.cpp:641-707 | the overwriting, at once or by a restart |
| MultiSettings.MultiSettings.ResetConfiguration | MultiSettings.cpp:709-744 | the reset, at once or by a restart |
| MultiSettings.MultiSettings.RenameConfiguration | MultiSettings.cpp:746-790 | the new name, trimmed, for the current or another configuration, for every text the dialog lets through |
| MultiSettings.MultiSettings.DeleteConfiguration | MultiSettings.cpp:792-822 | the removal of another configuration |
| MultiSettings.MultiSettings.SetCommonValue | MultiSettings.cpp:244-253 | sets any key but the empty one in the root group |
| MultiSettings.MultiSettings.RemoveCommonValue | MultiSettings.cpp:255-266 | removes any key but the empty one, and what is under it, in the root group |

## Left out

- The signal processing of JS8.cpp (transforms, downsampling, baseline, synchronisation power, ratios, signal subtraction, SNR), Flatten.cpp and the geodesic formula: floating-point numerics without an exact specification.
- The normalisation of synchronisation powers by a percentile, before the candidates are extracted.
- CandidateSelection.ExtractCandidates: the index is a sequence in descending order without NaN; in single precision the sums with the distance also round.
- BeliefPropagation.BpDecode174: bits are booleans, and unused places of the message arrays start with zeros.
- FrameCodec.PackMessage: the lookup of a character with a negative code is not modelled; such a character is refused.
- FrameDecoder.SendAndReceive: the channel is any function whose ratios have the right signs; noise is not modelled.
- The packing of the matrix into 64-bit words, and its reading at compile time: the rows are constants.
- LineSimplification.RDP.Simplify: coordinates are exact, and distances are compared by their squares.
- LineSimplification.DistanceAtMostEpsilon: needs strictly increasing abscissas, so that every span has a length.
- The conversion of UTF-16 strings to UTF-8; texts are well-formed bytes from the start.
- The loss of queued spots when the socket fails, resolving names, timers, and closing and reopening sockets. Writing to the socket appends to a list.
- PskReporter.Reporter.SendReport: the clock is any function of the number of reports written.
- The list of eclipse dates: whether there is an eclipse is an input.
- Detector.Filter.DownSample: the product in single precision and the conversion of what does not fit 16 bits are parameters; `LowPass.Accurate` bounds the error of the product, but no bound is derived for single precision.
- The signals a detector emits after each block, and its locks.
- Modulator.Modulator.Sound: sine and circle are parameters, and amplitude and phase are exact.
- The sound stream that a modulator restarts and stops.
- RigPolling.PollingTransceiver.DoSync: what a poll finds is an input; timers and failures of the rig are left out.
- How a requested state is broken up into commands (TransceiverBase.cpp): the commands are inputs.
- StoredConfigurations.RefinesExactly: the settings of the application have keys that do not contain the reserved name, as `MultiSettings.hpp:25-26` asks; the operations themselves are modelled for all keys.
- No part of the program sets or removes common values; the operations are modelled as the class offers them.
- Entering an operation of the store with a group open, the normal form that Qt gives to keys, and stored names that are not text.
- Menus, dialogs and fonts: choices and confirmations are inputs. Writing the store to disk is left out.
- HRD, Hamlib, OmniRig and DXLab transceivers, network clients, the inbox, configuration dialogs, item models, and the tables of bands and modes.
