# AdPlug: verified models of ten state machines and algorithms

AdPlug plays many file formats on an OPL chip. This project models ten self-contained parts of it
in Dafny, in the form that the source gives them (classes with the source's fields and buffers,
methods with its loops), and proves what they promise, for all inputs and all runs. Each part has a
specification on values; the methods are proved against it, and lemmas about the specification
carry the results.

| part | files | result in short |
|---|---|---|
| GNU getopt, permuting | `GetoptSpec`, `GetoptCommand`, `Getopt`, `GetoptRescan` | a whole run of calls finds what was written in the command line and leaves options before operands, both in order; scanning the result again is harmless except in one case, stated exactly |
| CMF voices | `CmfSpec`, `CmfMachine`, `CmfLaws`, `Cmf` | any song ends as a machine on values says; a note sounds from its note-on to its note-off unless as many more notes are started as there are voices; no voice carries a stale instrument or pitch |
| BoomTracker LZW | `CffSpec`, `CffRoundTrip`, `CffGreedy`, `Cff` | the unpacker, heap and bit buffer included, inverts an encoder for any legal sequence of phrases; a greedy encoder packs every text, and runs of a byte in few codes |
| Adlib Tracker II | `A2mSlide`, `A2m`, `A2mOrders` | slides are saturating additions, exactly when; tone portamento arrives on the exact tick; order jumps are followed to their pattern or found circular, exactly |
| AdPlug database | `DbSpec`, `Database`, `DbFormat`, `DbRun`, `Crc` | any run of operations answers like a finite map, from hash chains to the saved file and back; the checksums detect every changed run of bytes up to their width |
| YM3812 envelopes | `FmoplSpec`, `FmoplCurve`, `FmoplChipSpec`, `FmoplNote`, `FmoplReset`, `Fmopl` | the counter stays in its table under any register writes; the whole envelope of a note in closed form, from the bits in its registers; a reset silences the chip under one condition, which is exact |
| TwinTeam LZ77 | `DmoSpec`, `DmoRoundTrip`, `DmoModule`, `Dmo` | unpacking inverts packing, and accepts exactly packed tokens that stay in bounds and modules of them |
| Westwood program queue | `AdlSpec`, `AdlMachine`, `AdlLaws`, `Adl`, `AdlRun` | a ring without a count is a bounded queue over whole runs of the driver; a program starts if and only if it is at least as important as what its channel plays; a reset breaks it exactly if something was queued outside the first slot |
| Visual Composer synth | `ComposerSpec`, `Composer`, `ComposerRun`, `ComposerPitch` | pitch bend is Euclidean division; the shared memo never shows; over whole runs the registers of the melodic voices are a function of a simple history of notes and bends; larger bends never sound lower under one condition, which the table misses |
| HERAD packings | `HeradSpec`, `HeradRoundTrip`, `HeradFiles`, `Herad` | two encodings of one bit queue refine one reader; files written from their headers unpack to what they spell |

`Wrappers`, `Machine`, `Bits` and `Lz` are shared: options, machine integers, bit strings, and the
overlapping copy.

Some promises turn out to hold only under a condition. The condition is then proved to be exact:

- Permuting hands a missing required option-argument the first operand (`GetoptRescan.RescanIff`,
  smallest case `GetoptRescan.RescanFails`).
- Slides of more than 255 are exact additions only within limits (`A2mSlide.UpIsAdditionIff`,
  `A2mSlide.DownIsSubtractionIff`); tone portamento never meets a target that fine tuning has put
  off the scale (`A2mSlide.MetIff`).
- A reset of the YM3812 keys off what the key-on registers keyed, but not drums that the rhythm
  register keyed. It brings the envelopes in order, and keeps the chip silent until something is
  keyed on, if and only if it finds no operator in attack or decay with its channel's key off
  (`FmoplReset.ResetKeepsPhasedIff`, `FmoplReset.SilentUntilKeyedIff`; register sequence:
  `FmoplReset.SnareSurvivesReset`). Without rhythm mode there never is one
  (`FmoplReset.MelodicRuns`), and keying all drums on and off first removes them
  (`FmoplReset.DrumsReleased`).
- A held note leaves its level when its decay rate is written, unless the rate is zero or passes the
  end at once (`FmoplCurve.HeldNewRate`), and follows a new sustain level only if that is not quieter
  (`FmoplCurve.HeldNewLevel`).
- In the rhythm mode of CMF the velocity of the snare drum and of the cymbal sets the level of the
  drum that shares their voice (`CmfSpec.DrumView`, `Cmf.Player.PercNoteOn`).
- Wiping a record of the database frees no place (`DbRun.PlacesAreNotFreed`); saving and loading does
  (`DbRun.SaveThenLoad`).
- Resetting the program queue clears one slot of sixteen (`AdlSpec.ResetCleanIff`,
  `AdlSpec.StaleSlotSurfaces`).
- A larger pitch bend never sounds lower if and only if the last frequency of the table is at most twice
  the first (`ComposerPitch.NeverLowerIff`). In the synth's table it is not, so that a bend across an octave
  can drop by a little (`ComposerPitch.FnumsDip`); and below the scale a bend down is heard as one up
  (`ComposerPitch.BelowScaleJumps`).
- A pitch bend repeats a note from an 8-bit cache, which the lowest eleven notes do not survive
  (`Composer.RepeatsNoteIff`, `Composer.LowNotesJumpUp`); after a rewind a voice is in tune only if
  its last bend was by whole half-tones (`Composer.RewindInTuneIff`); a volume above 127 can
  overwrite the key scaling bits (`ComposerSpec.KslKeptIff`).

The option syntax follows section 12.2 of the Base Definitions of POSIX.1-2017; the CRC-32 is that
of section 8 of RFC 1952.

## Model

| member | source | states |
|---|---|---|
| Getopt.Scanner.Exchange | adplugdb/getopt.c:305-383 | the two adjacent blocks trade places, each in its own order, everything outside stays, and the operand window follows its operands |
| Getopt.Scanner.SwapBlocks | adplugdb/getopt.c:350-373 | two blocks of equal length change places, element by element |
| Getopt.SwapShortBottom | adplugdb/getopt.c:343-359 | swapping the shorter bottom block to the far end leaves the same rotation to do on a smaller range |
| Getopt.SwapShortTop | adplugdb/getopt.c:360-376 | the same for a shorter (or equal) top block |
| Getopt.Scanner.Initialize | adplugdb/getopt.c:390-454 | a scan starts with nothing found, no operand skipped, and argv untouched |
| Getopt.Scanner.Regroup | adplugdb/getopt.c:551-566 | after regrouping, argv is the options found so far, the operands skipped, and the untouched rest |
| Getopt.Scanner.SkipOperands | adplugdb/getopt.c:568-573 | skipping operands changes neither argv nor what is still to be found |
| Getopt.Scanner.EndOptions | adplugdb/getopt.c:576-592 | "--" is counted as an option and everything behind it as operands |
| Getopt.Scanner.Advance | adplugdb/getopt.c:547-622 | a call either stands in an option cluster, or the scan is over with argv permuted and optind on the first operand |
| Getopt.Scanner.Decode | adplugdb/getopt.c:773-969 | one option is taken off the cluster and returned with the argument that the original command line gives it, leaving what is pending consistent |
| Getopt.Scanner.Next | adplugdb/getopt.c:513-969 | each call returns the next event of a plain scan of the original argv and keeps the arguments from optind on untouched; -1 comes exactly when all of them are found |
| Getopt.Scanner.ScanAll | adplugdb/getopt.c:456-472 | a whole run returns the (option, argument) pairs of a plain scan, and those that were written, if the words are a command line of option groups and operands; it leaves the options with their arguments in front of the operands, each group in original order |
| GetoptCommand.CommandScanned | adplugdb/getopt.c:773-969 | of a command line written from groups of options (arguments in the word, in the next, left out) and operands, the plain scan finds just these, before "--" and behind it |
| GetoptCommand.KindsDeclared | adplugdb/getopt.c:773-969 | the character, one colon and two colons declare an option without, with a required and with an optional argument |
| GetoptCommand.MissingSaid | adplugdb/getopt.c:936-966 | a missing argument at the end is told by '?', or by ':' if the option string begins with one |
| GetoptSpec.SplitIsPermutation | adplugdb/getopt.c:90-98 | options and operands together are the original arguments, each exactly once |
| GetoptRescan.RescanIff | adplugdb/getopt.c:90-98 | scanning the permuted vector again finds the same, if and only if not (a required argument is missing at the end while operands exist); the vector is then a fixed point |
| GetoptRescan.RescanFails | adplugdb/getopt.c:936-966 | the smallest command line for which it finds something else |
| Cmf.Play | src/cmf.cpp:379-689 | after any song, from its start, voices, registers, channels, doubled-note memory and mode are those of the machine; voices owned by a channel carry its current patch in the allocator and in all instrument registers, sounding voices have the key bit and the current pitch of their note in 0xA0/0xB0, and start stamps of sounding voices differ |
| Cmf.PlayNote | src/cmf.cpp:403-433 | a note-on event is heard unless it is doubled, a note-off in its place if a doubled one is to be repaired, at velocity 127; heard, it has one voice with the next stamp, its patch, pitch and level; not heard, it silences its note and no other; the memory of both is exact |
| CmfLaws.NotedIsLawful | src/cmf.cpp:403-433 | the same of the machine |
| CmfLaws.SilentSince | src/cmf.cpp:956-984 | over any song: a note that was stopped, and not started since, does not sound |
| CmfLaws.SoundsSince | src/cmf.cpp:868-984 | a note that was started sounds, on its voice and with its stamp, until it is ended, the mode is switched, or its voice is taken |
| CmfLaws.NotStolen | src/cmf.cpp:897-919 | a melodic note is never cut by another as long as fewer notes are started after it than there are voices |
| CmfSpec.VelocityScales | src/cmf.cpp:838-842 | the amplitude is the patch's scaled by velocity and rounded down, so that a louder note is never quieter |
| CmfSpec.NotesOnTheLine | src/cmf.cpp:118-130 | a note lies 64 steps to the semitone, with the folded ends of the table; the lowest bend is a semitone |
| CmfSpec.DrumsOnChip | src/cmf.cpp:1122-1150 | a drum's patch lands on its operator of the chip |
| Cmf.Player.MelodicNoteOn | src/cmf.cpp:868-952 | the note goes to the best voice of the four tiers, other voices keep their registers, and the voice has patch, pitch and level of the note |
| Cmf.Player.FindVoice | src/cmf.cpp:870-920 | the search loops find that voice, and ask for a key-off first exactly when no tier but the last has one |
| CmfSpec.CutsOnlyTheLongest | src/cmf.cpp:870-919 | a sounding voice is cut only when all of them sound, and then the one that has played longest; a parked voice of the same channel comes first, one parked by another channel only when none was never used |
| Cmf.Player.PercNoteOn | src/cmf.cpp:827-866 | a drum in rhythm mode gets its own operators, level and frequency, touches no voice but its own and one bit of 0xBD |
| Cmf.Player.NoteOn | src/cmf.cpp:816-954 | either path is the machine's, registers included, and keeps every voice in order |
| Cmf.Player.NoteOff | src/cmf.cpp:956-984 | as the machine has it: exactly the sounding voices of that channel and note are released, keep their owner and lose the key bit, or the drum loses its bit of 0xBD; nothing else changes |
| Cmf.Player.NoteUpdate | src/cmf.cpp:986-1015 | after bend or transpose of a channel its sounding voices are retuned, or its drum, and no other voice is touched |
| Cmf.Player.ProgramChange | src/cmf.cpp:448-477 | parked voices of the channel forget their owner, sounding ones get the new patch in their registers, and no voice is left with a stale instrument |
| Cmf.Player.PitchBend | src/cmf.cpp:484-494 | a bend keeps every sounding voice in tune |
| Cmf.Player.Transpose | src/cmf.cpp:1193-1202 | a transposition keeps every sounding voice in tune |
| Cmf.Player.RhythmModeReset | src/cmf.cpp:1210-1260 | switching the rhythm mode frees the voices and their owners, so that none is stale in the new mode |
| Cmf.Player.GetFreq | src/cmf.cpp:779-814 | block and index are one addition on a line of 8 * 768 steps, saturating at both ends, for any 8-bit data bytes: a single wrap is enough |
| Cmf.Player.ChangeInstrument | src/cmf.cpp:1122-1162 | afterwards all instrument registers of the voice hold the instrument (the carrier level aside), and other voices keep theirs |
| CmfSpec.WrittenOnlyThere | src/cmf.cpp:753-770 | writing an instrument reaches only registers of its voice |
| CmfSpec.OtherVoices | src/cmf.cpp:753-777 | registers of one voice are no registers of another |
| Cmf.Player.Rewind | src/cmf.cpp:602-689 | the start state is in order |
| CffRoundTrip.UnpackInvertsEncode | src/cff.cpp:303-379 | for every sequence of blocks of phrases the format can express (single bytes, dictionary strings, the string just being completed, repetitions), unpacking the encoding returns the text |
| CffGreedy.EveryTextPacks | src/cff.cpp:303-379 | every text of 1 to 0x10000 bytes is packed by the encoder that always takes the longest phrase the dictionary has, and unpacks to itself |
| CffGreedy.RunsPack | src/cff.cpp:350-370 | 1 + 2 + ... + n equal bytes (n up to 0xEF, so up to 28680 bytes) pack into n + 1 codes of nine bits behind the signature |
| CffGreedy.ThreeAlike | src/cff.cpp:350-370 | the smallest file with a dictionary string, bit by bit: bytes from code 4 on, strings from 0x104 on, 0 at the end |
| CffGreedy.ControlCodes | src/cff.cpp:318-348 | how repetitions, wider codes and new blocks are written |
| CffRoundTrip.WordStep | src/cff.cpp:352-370 | a phrase is read back also where its code is the dictionary entry that it completes |
| CffRoundTrip.AgainReads | src/cff.cpp:334-348 | the fields of a repetition are read back in turn |
| CffRoundTrip.WidenStep | src/cff.cpp:329-332 | explicit width-expansion codes bring the reader to the width the next code needs |
| CffRoundTrip.BlocksDecode | src/cff.cpp:323-327 | a restart code realigns the reader to the next byte, so blocks follow each other |
| Cff.Unpacker.GetCode | src/cff.cpp:383-400 | the bit buffer yields the next bits of the stream, least significant first, with fewer than 8 left over |
| Cff.Unpacker.TranslateCode | src/cff.cpp:402-412 | the counted string of a code, empty for a code that has none |
| Cff.Unpacker.ExpandDictionary | src/cff.cpp:443-451 | entries stay 1 to 0xEF bytes, lie at their offsets in the heap, and never number more than 0x8000; too long a string or a full heap adds none |
| Cff.Unpacker.RepeatOutput | src/cff.cpp:340-346 | the last bytes are repeated, from output that grows meanwhile |
| Cff.Unpacker.Turn | src/cff.cpp:320-372 | one code has the effect that the abstract decoder gives it |
| Cff.Unpacker.Unpack | src/cff.cpp:303-379 | the unpacker with its buffers returns exactly what the abstract decoder returns, failure included |
| A2mSlide.UpIsAdditionIff | src/a2m-v2.cpp:619-634 | a slide up is a saturating addition on octave * 344 + f-number with a normalised result, for exactly these 16-bit shifts (all up to 255 among them) |
| A2mSlide.DownIsSubtractionIff | src/a2m-v2.cpp:636-651 | the same for a slide down and subtraction |
| A2mSlide.ToneConverges | src/a2m-v2.cpp:2392-2403 | repeated tone portamento is, before the exact tick of arrival, n * speed nearer and never past the target, and the target from then on |
| A2mSlide.ToneArrives | src/a2m-v2.cpp:2392-2403 | arrival is at that tick and not before also for the whole word, whose key bit never changes |
| A2mSlide.MetIff | src/a2m-v2.cpp:2392-2403 | targets are met if and only if they lie on the scale |
| A2mSlide.NotesOnScale | src/a2m-v2.cpp:608-617 | notes lie on the scale, normalised and rising, so that every one of them is met; all from 96 on are its upper end |
| A2mSlide.MeetsFromAnywhere | src/a2m-v2.cpp:2392-2403 | from any non-zero frequency, normalised or not, every target on the scale is met |
| A2mSlide.TowardsTarget | src/a2m-v2.cpp:2392-2403 | every tick moves strictly towards the target and not past it; only zero stays |
| A2mSlide.TicksKeepUpperBits | src/a2m-v2.cpp:671-672 | the bits above the frequency are untouched, and do not influence it |
| A2m.Player.ChangeFreq | src/a2m-v2.cpp:664-683 | both channels of a four-operator pair get the new frequency under the upper bits of the addressed one, the registers of the second channel show it, other channels keep theirs |
| A2m.OffsetsOnChip | src/a2m-v2.cpp:527-541 | each channel has an offset of its own among the eighteen of the chip, the second of a pair three below the first |
| A2m.Player.ChangeFrequency | src/a2m-v2.cpp:735-753 | the same, and the vibrato of the channel and its partner starts anew |
| A2m.Player.PortamentoUp | src/a2m-v2.cpp:2354-2363 | a slide up to a limit, silence excepted |
| A2m.Player.PortamentoDown | src/a2m-v2.cpp:2365-2374 | a slide down to a limit, silence excepted |
| A2m.Player.TonePortamento | src/a2m-v2.cpp:2392-2403 | a call is one tick of the tone portamento that the lemmas are about, on this channel and its partner only |
| A2mOrders.SettlesBy127 | src/a2m-v2.cpp:2946-2965 | by pigeonhole a chain of jumps reaches a pattern within 127 jumps or never |
| A2mOrders.NeverSettlingLeadsBack | src/a2m-v2.cpp:2949-2957 | a chain without a pattern jumps back somewhere, so it sets the song-end flag even before the bound trips |
| A2mOrders.Orders.SetCurrentOrder | src/a2m-v2.cpp:2936-2965 | lands on the pattern the chain leads to, flagging the song's end exactly if a jump led back; stops the song if and only if the chain never reaches a pattern |
| A2mOrders.Orders.CalcFollowingOrder | src/a2m-v2.cpp:2967-2986 | returns the order that SetCurrentOrder lands on, -1 if and only if there is none |
| DbSpec.MapHolds | src/database.cpp:120-146 | the map holds exactly the live records, as many as the logical length counts |
| Database.Db.WalkCovers | src/database.cpp:120-175 | following the chain pointers from a hash slot meets exactly the buckets with that hash, each once and in order of insertion, and then null |
| DbSpec.NextFromAppend | src/database.cpp:164-175 | a bucket linked at the end joins its own chain only |
| DbSpec.WipeThenInsert | src/database.cpp:148-197 | wiping a key and inserting it again overwrites it |
| Database.Db.Lookup | src/database.cpp:120-146 | succeeds exactly for live keys, with the cursor on the record that the map holds |
| Database.Db.Insert | src/database.cpp:148-178 | succeeds exactly for a new key in a database that is not full, and extends the map |
| Database.Db.Wipe | src/database.cpp:180-184 | takes the key out of the map and leaves the chains intact |
| Database.Db.WipeCurrent | src/database.cpp:186-197 | leaves a tombstone under the cursor, counted once |
| Database.Db.Save | src/database.cpp:97-113 | writes the live records in order, and their true number |
| Database.Db.Load | src/database.cpp:63-88 | any file that begins as one is read, record by record up to where it ends and then with what the stream makes of the missing input; the new records join, any other file changes nothing |
| DbFormat.ReadsComplete | src/database.cpp:63-88 | a file that ends too soon gives its complete records first and in order; a whole one gives its records and nothing else |
| DbRun.RunOps | src/database.cpp:115-203 | any sequence of searches, insertions, wipes of a record and wipes under the cursor answers, and leaves, what the same operations do on a finite map with a count of places and a current key |
| DbRun.Session | src/database.cpp:63-203 | from the empty database through any run, a saved file and loading it: the final map is there again |
| DbRun.PlacesAreNotFreed | src/database.cpp:148-197 | wiping frees no place: successful insertions add up to the places taken, and once all are taken every insertion fails |
| DbRun.TombstonesDontMatter | src/database.cpp:115-197 | two databases with the same live records answer any operations but wipes under the cursor alike, whatever has been wiped in them, while neither can run full |
| DbRun.SaveThenLoad | src/database.cpp:63-113 | the reloaded database has the same map and records, and only the live ones take places |
| DbFormat.ReadBackRecord | src/database.cpp:260-290 | a record reads back; its size field is the length of what follows, so that a reader that does not know the type resumes at the next record |
| DbFormat.ReadBackFile | src/database.cpp:63-113 | a file of records reads back |
| DbFormat.SaveLoad | src/database.cpp:63-113 | saving any database and loading it into an empty one gives the same live records in the same order, and the same map |
| DbFormat.RecordLayout | src/database.cpp:281-292 | a record byte by byte: type, size, checksums, strings |
| DbFormat.FileIdIs | src/database.cpp:30 | the file begins with its name and a control character |
| Crc.Make | src/database.cpp:326-357 | the two register loops compute the two checksums |
| Crc.BurstDetected | src/database.cpp:337-351 | two files that differ within a run as long as the checksum never have the same one |
| Crc.KeyDetects | src/database.cpp:326-357 | changing one byte changes both halves of the key |
| Crc.Crc32IsRfc1952 | src/database.cpp:328-356 | the 32-bit half is the table-driven CRC of RFC 1952 |
| Crc.Crc16IsArc | src/database.cpp:326-357 | the 16-bit half has the check value of CRC-16/ARC |
| FmoplSpec.Step | src/fmopl.c:383-445 | no event takes the counter out of 0..EG_OFF, so the curve can always be indexed |
| FmoplSpec.Run | src/fmopl.c:383-445 | nor does any sequence of events |
| FmoplCurve.StepKeepsPhased | src/fmopl.c:383-535 | every event of one operator keeps counter and end point in the form of their phase; forcing the counter off, as the last loop of a reset does, if and only if the note is over |
| FmoplReset.ResetLeaves | src/fmopl.c:1065-1094 | what the whole reset, with its zeros to all registers, leaves of an operator: counter off, key off, and its phase unless the key of its channel was on |
| FmoplReset.ResetKeepsPhasedIff | src/fmopl.c:1065-1094 | a reset brings all operators in order if and only if none is in attack or decay with its channel's key off |
| FmoplReset.SilentUntilKeyedIff | src/fmopl.c:1065-1094 | after a reset all operators stay off under any writes and samples that key nothing on, if and only if it found no such operator |
| FmoplReset.SnareSurvivesReset | src/fmopl.c:895-948 | a register sequence that shows one: a snare drum keyed on through 0xBD, a reset, an instrument, and the drum sounds at full level unkeyed |
| FmoplReset.RunKeepsPhased | src/fmopl.c:809-1094 | whole runs of writes, samples and such resets keep all operators in order |
| FmoplReset.MelodicRuns | src/fmopl.c:809-1094 | without rhythm mode every reset of every run is such a reset |
| FmoplReset.OnlyDrumsStray | src/fmopl.c:895-948 | with it, only operators of the channels 6 to 8 are left in attack or decay with the key off |
| FmoplReset.DrumsReleased | src/fmopl.c:895-948 | keying all drums on and then off leaves none |
| FmoplReset.OneStep | src/fmopl.c:809-995 | any write or sample keeps each operator in order, and only rhythm mode takes one from its channel's key |
| FmoplCurve.EnvelopeIsCurve | src/fmopl.c:383-445 | the counter of a note, n samples after key-on: attack, decay, then sustain, or release and silence, each a straight line with its exact duration |
| FmoplCurve.SamplesAdvance | src/fmopl.c:410-445 | samples never lead back to an earlier phase and never make the note louder after the attack |
| FmoplCurve.ReleaseCurve | src/fmopl.c:394-445 | from key-off on a straight line to silence from the level of that moment, or from full level in the attack |
| FmoplCurve.SilentIff | src/fmopl.c:394-445 | silence comes at exactly this sample and stays, never without a release step |
| FmoplCurve.SilentInTime | src/fmopl.c:394-445 | at the latest when a release from full level would be over |
| FmoplCurve.HeldStays | src/fmopl.c:423-429 | a held slot stays at its sustain level |
| FmoplCurve.HeldNewLevel | src/fmopl.c:524-535 | a new sustain level is taken up at the next sample if it is not quieter, and ignored otherwise |
| FmoplCurve.HeldNewRate | src/fmopl.c:506-519 | a held slot stays at its level after a write of its rates if and only if the decay step is zero or passes the end at once |
| FmoplNote.Programmed | src/fmopl.c:476-535 | four register writes program an operator, from any state of the chip: upper nibbles attack and sustain level, lower ones decay and release, with the key scaling of block and KSR bit |
| FmoplNote.NoteAttacks | src/fmopl.c:383-392 | a note so programmed rises in a straight line by its attack step |
| FmoplNote.NoteDecays | src/fmopl.c:410-453 | then it falls by its decay step to its sustain level, 3 dB a step and 93 dB for the last, and stays there if it is held |
| FmoplNote.NoteFallsOn | src/fmopl.c:410-453 | or falls on by its release step |
| FmoplNote.NoteReleases | src/fmopl.c:394-407 | once the key is let go a held note falls by its release step, to silence |
| FmoplNote.AttenuationWritten | src/fmopl.c:490-503 | what an operator attenuates by, from the bits of its registers 0x20 and 0x40 |
| FmoplNote.FrequencyWritten | src/fmopl.c:950-990 | block and f-number, from the registers 0xA0 and 0xB0 in either order |
| FmoplNote.DrumKeys | src/fmopl.c:895-948 | the bits of register 0xBD key these operators and no others |
| FmoplNote.OffsetIs | src/fmopl.c:116-122 | the operators lie at the register offsets of the chip |
| Fmopl.Slot.KeyOn | src/fmopl.c:383-392 | refines the event, and restarts the phase |
| Fmopl.Slot.KeyOff | src/fmopl.c:394-406 | refines the event, the bit test included |
| Fmopl.Slot.CalcSlot | src/fmopl.c:410-445 | refines a sample and returns total level, curve and tremolo; neither the 32-bit counter nor the index overflows |
| Fmopl.Slot.CalcFcSlot | src/fmopl.c:456-473 | the steps are those of the rates and the new key scaling even though they are reloaded only when it changes, and the total level follows |
| Fmopl.Slot.SetMul | src/fmopl.c:476-487 | hold flag, tremolo flag and key scaling act at once on steps and level |
| Fmopl.Slot.SetKslTl | src/fmopl.c:490-503 | the latched total level is that of the new register |
| Fmopl.Slot.SetArDr | src/fmopl.c:506-519 | a running attack or decay changes speed at once |
| Fmopl.Slot.SetSlRr | src/fmopl.c:523-535 | a running decay gets a new end point, a running release a new speed |
| Fmopl.FmOpl.WriteReg | src/fmopl.c:809-1013 | each register reaches the operators it belongs to and no others, in any state of the chip |
| Fmopl.FmOpl.WriteRhythm | src/fmopl.c:895-948 | exactly the drums whose bits change are keyed, in rhythm mode only |
| Fmopl.FmOpl.WriteChannel | src/fmopl.c:950-990 | a key change keys both operators, a frequency change refreshes both, and nothing happens otherwise |
| Fmopl.FmOpl.Update | src/fmopl.c:1030-1049 | a sample takes every operator one step further |
| Fmopl.FmOpl.Reset | src/fmopl.c:1065-1094 | the loop over the registers is the reset that the lemmas are about |
| DmoRoundTrip.PackedIsUnpacked | src/dmo.cpp:228-288 | packed tokens are unpacked exactly when they stay in bounds, and then to what they mean over the bytes that the buffer held, the rest of it untouched |
| DmoRoundTrip.BackwardIsText | src/dmo.cpp:228-288 | without copies from distance zero, which keep the byte that was there, this is the LZ77 meaning |
| DmoRoundTrip.AcceptsIff | src/dmo.cpp:228-288 | a block is accepted if and only if it is the packed form of tokens that stay in bounds |
| DmoRoundTrip.HeadThenFields | src/dmo.cpp:238-271 | the bit fields of all four formats read back |
| DmoRoundTrip.FieldsThenHead | src/dmo.cpp:238-271 | every header is the packed form of the token read from it |
| DmoRoundTrip.HeaderLayout | src/dmo.cpp:238-271 | the headers as numbers, format, distance, length and literals from the top down |
| DmoRoundTrip.ForwardIsCopied | src/dmo.cpp:277-280 | the byte-wise forward copy is the LZ77 copy, overlap included |
| DmoModule.ModuleUnpacks | src/dmo.cpp:290-325 | a module of packed blocks unpacks to the concatenation of what they mean |
| DmoModule.SuccessMeansDeclared | src/dmo.cpp:290-325 | success means that every block was the packed form of tokens in bounds that come out at the length it declares, and that the output is the concatenation of what they mean |
| DmoModule.UnpacksIff | src/dmo.cpp:290-325 | exactly the modules whose output fits are unpacked |
| Dmo.UnpackBlock | src/dmo.cpp:228-288 | the loop over the output buffer does that, and writes nothing outside its block |
| Dmo.Unpack | src/dmo.cpp:290-325 | the whole module, in place, or 0 |
| Lz.CopyIsPeriodic | src/dmo.cpp:277-280 | an overlapping copy repeats the last bytes periodically |
| AdlSpec.RingIsFifo | src/adl.cpp:605-694 | from a clean ring, any run of enqueues and dequeues is a first-in first-out queue that drops only a seventeenth entry |
| AdlSpec.PutAppends | src/adl.cpp:612-620 | an entry joins at the end unless 16 are pending |
| AdlSpec.TakeDrops | src/adl.cpp:671-693 | the null pointer tells an empty ring from a full one; the first entry leaves |
| AdlSpec.ResetCleanIff | src/adl.cpp:591-600 | a reset leaves a clean empty queue if and only if nothing was queued outside the first slot |
| AdlSpec.StaleSlotSurfaces | src/adl.cpp:643-647 | otherwise, and only then, a stale entry comes up later as a queue of 16 |
| Adl.Driver.StartSound | src/adl.cpp:605-621 | refines the enqueue, dropping a track without program |
| Adl.Driver.SetupPrograms | src/adl.cpp:671-743 | from any queue, stale slots included: the first entry leaves and is started, dropped or queued again as the machine says |
| Adl.Driver.Callback | src/adl.cpp:654-669 | a callback is one tick of the machine, and as lawful: two pass after a start before the next program, and that starts exactly if its priority, as it then stands in the data, is at least that of what its channel plays; no channel loses priority |
| AdlRun.RunCalls | src/adl.cpp:591-743 | any calls in any order (starts, callbacks, ended programs, stops, new data) leave queue, channels, sound data and chip writes as the machine says, from any state; without ends and stops no channel loses priority; from a clean queue what is pending is what a first-in first-out queue of 16 holds after the operations of exactly these calls |
| AdlLaws.TickIsLawful | src/adl.cpp:671-738 | by the bytes of the program at the head: it plays on its channel, at its priority and from its third byte on, or, if less important, changes no channel and no register; broken programs change nothing; at full volume the data stays |
| AdlLaws.PrioritiesStay | src/adl.cpp:713-716 | over whole runs in which nothing ends or is stopped no channel loses priority |
| AdlRun.TickQueue | src/adl.cpp:680-742 | the first program leaves a clean queue, and goes round to its end exactly if it was outranked while sounds are retried and is not track 0 |
| AdlLaws.ProgramFound | src/adl.cpp:286-306 | the table at the start of the data holds the places of the programs, low byte first |
| AdlLaws.StartWritesAre | src/adl.cpp:984-1024 | a start shortens both operators of the channel and presses its key anew |
| AdlLaws.StopReleases | src/adl.cpp:630-648 | a stop frees every channel and releases every key that the driver may use, and does nothing else to the chip |
| AdlRun.RunIsFifo | src/adl.cpp:591-743 | the queue of the machine over any run is that queue, as long as every reset finds nothing queued outside the first slot |
| AdlRun.RunServesInOrder | src/adl.cpp:591-743 | what was pending and what the calls queued is, in this order, what the callbacks took off and what is pending |
| AdlSpec.ServedInOrder | src/adl.cpp:605-694 | the same for any operations on the queue: first come, first served, nothing lost |
| Adl.Driver.StartProgram | src/adl.cpp:695-738 | what becomes of a program, with channel, data and chip; the one case in which the original leaves its data is told apart |
| Adl.Driver.AdjustSfxData | src/adl.cpp:745-778 | the sound data is always as loaded, but for the current effect |
| AdlMachine.CanAdjustUnlessPatched | src/adl.cpp:699-709 | patching leaves the data only where the current patch lies on the program's channel number |
| Adl.Driver.SetSoundData | src/adl.cpp:591-603 | a reset of the queue, new data without an effect |
| Adl.Driver.StopAllChannels | src/adl.cpp:630-648 | a reset of the queue; all channels free, with their keys off in their registers and on the chip but for those of the rhythm section |
| Adl.Driver.NoteOff | src/adl.cpp:964-983 | the key bit goes off in the channel's register and on the chip, if the channel has a voice |
| ComposerSpec.BendIsFloor | src/composer.cpp:274-310 | half-tones and 25ths of a bend are the quotient and remainder of its floor, despite unsigned division and 16-bit narrowing |
| ComposerSpec.StepDirIsFloor | src/composer.cpp:291 | dividing as unsigned and narrowing rounds down |
| ComposerSpec.SplitIsEuclidean | src/composer.cpp:292-307 | the two branches together are Euclidean division by 25 |
| ComposerSpec.LengthIs | src/composer.cpp:276 | the bend length is a signed product, a multiple of 25, and never the memo's first key |
| Composer.Backend.ChangePitch | src/composer.cpp:274-313 | whatever the memo holds, the registers of the voice sound its cached note moved by bend * range / 0x2000 steps, rounded down: half-tones on the scale and 25ths as the row of the table; other voices keep theirs |
| Composer.Backend.SetFreq | src/composer.cpp:315-328 | the registers of the voice hold octave and table entry of the note at its bend, and the key; every other voice stays in order |
| Composer.Backend.SetNoteMelodic | src/composer.cpp:248-262 | a note plays, silence releases the key and keeps the frequency |
| Composer.Backend.SetNotePercussive | src/composer.cpp:217-246 | the drum's bit of 0xBD follows its key, and the six melodic voices are untouched |
| Composer.Backend.NoteOn | src/composer.cpp:207-210 | the note twelve half-tones below plays, on a melodic voice or as a drum with its bit of 0xBD, tom-tom and snare drum tuned together |
| Composer.Backend.NoteOff | src/composer.cpp:212-215 | only the key goes off: the key bit of a melodic voice, or the bit of a drum |
| ComposerRun.PlaySong | src/composer.cpp:161-328 | over any run of notes, bends, ranges, rhythm switches and rewinds the two registers of each voice that is never a drum hold octave and table entry of its last note at its bend, and its key |
| ComposerRun.PlayAll | src/composer.cpp:161-328 | the same from any state, tuning included |
| ComposerPitch.LastNoteHeard | src/composer.cpp:161-328 | whatever came before: after a range of h half-tones, a bend and a note-on for a voice, its registers hold the note twelve half-tones below, moved by that part of h half-tones |
| ComposerPitch.BendIsTranspose | src/composer.cpp:315-328 | a bend by k half-tones and r 25ths sounds like the note k half-tones up from row r |
| ComposerPitch.NeverLowerIff | src/composer.cpp:315-328 | with a table that rises a larger bend never sounds lower within an octave, and nowhere on the scale if and only if the octave closes |
| ComposerPitch.FnumsDip | src/composer.cpp:84-111 | the table of the synth rises, but its octave does not close: 688 against 686 |
| ComposerPitch.BelowScaleJumps | src/composer.cpp:315-319 | below the scale a bend down is heard as one up |
| Composer.Backend.SetRhythmMode | src/composer.cpp:176-193 | only the tom-tom and the snare drum are retuned |
| Composer.Backend.SetPitchRange | src/composer.cpp:264-271 | the range is 1 to 12 half-tones, and the tuning of voices stays |
| Composer.Backend.Rewind | src/composer.cpp:161-174 | every voice keeps the 25ths of its last bend |
| Composer.RewindInTuneIff | src/composer.cpp:161-174 | so it is in tune exactly if that bend was by whole half-tones |
| Composer.RepeatsNoteIff | src/composer.cpp:312-321 | a bend repeats the key that was played exactly for notes that fit the cache, or that both ends cut off alike |
| Composer.LowNotesJumpUp | src/composer.cpp:207-210 | for byte formats: the lowest eleven notes jump to the top at a bend, all others stay |
| ComposerSpec.VolumeScales | src/composer.cpp:330-341 | the amplitude is scaled by volume / 127 to the nearest integer, key scaling stays, full volume changes nothing |
| ComposerSpec.KslKeptIff | src/composer.cpp:330-341 | for all byte volumes: key scaling stays if and only if the rounded amplitude does not pass 63 or both bits were set |
| HeradRoundTrip.UnpackInvertsPack | src/herad.cpp:133-223 | for every format of the family and all legal tokens, unpacking the packed form returns their meaning |
| Herad.Unpacker.HsqBit | src/herad.cpp:145-152 | the 32-bit queue refilled at its sentinel is the abstract bit reader |
| Herad.Unpacker.SqxBit | src/herad.cpp:239-250 | so is the 16-bit queue whose lost bit is always the sentinel |
| Herad.Unpacker.SqxCount | src/herad.cpp:259-291 | the inlined count is two single reads, high bit first, at every state of the queue |
| Herad.HsqDecompress | src/herad.cpp:133-223 | the decoder returns what the abstract decoder returns; any file written with the prefixes 1, 00, 01 and three count bits unpacks to what it spells |
| Herad.SqxDecompress | src/herad.cpp:225-502 | the same; any file written by its own header (bytes 2 to 4 name what 0, 10 and 11 stand for, byte 5 the count bits) unpacks to what it spells |
| HeradFiles.SqxFileUnpacks | src/herad.cpp:225-502 | the same of the abstract decoder |
| HeradFiles.HsqFileUnpacks | src/herad.cpp:133-223 | and for HSQ |
| HeradFiles.SmallFile | src/herad.cpp:236-262 | the smallest SQX file, byte by byte |
| HeradRoundTrip.PackedWord | src/herad.cpp:146-152 | two little-endian bytes hold sixteen bits, first bit lowest |

## Left out

- File access, logging, player registration, the adplugdb command line, sound synthesis: not modelled.
- getopt: REQUIRE_ORDER and RETURN_IN_ORDER (option strings that begin with '+' or '-', POSIXLY_CORRECT), long options and `-W`, messages on stderr, calls after -1, and callers that move optind back.
- getopt: strings are without NUL; the character at the end is what the C string's terminator is.
- CMF: parsing of the event stream and the 'meta' events; `Play` takes events. The frequency table is a parameter (768 values below 1024). The note counter is unbounded.
- CMF: what a chip hears; a free voice need not have its key bit clear, since a rhythm switch frees voices without touching 0xB0.
- BoomTracker, HERAD and TwinTeam: where the original would read or write outside a buffer the model ends in an outcome of its own (Overrun, OutOfBounds); the round trips never get there. TwinTeam decryption is not part of this model.
- Adlib Tracker II: effects other than the slides, vibrato beyond its restart, and the rest of update_song_position and a2t_stop; the stop is the flag and the order it sets.
- Database: what the stream library returns where a file has ended (the count, or records made of missing input) is a parameter of `Database.Db.Load`. What get_record returns for a wiped record, whose memory is freed, is not modelled.
- Database: interactive entry and printing, cursor movement over deleted records, and the clock float, which is four opaque bytes. The sum in the hash is unbounded (the original's unsigned long holds it).
- YM3812: rate and key scaling tables are arbitrary functions with rates in 0..EG_AED-1 (they are computed in floating point), also at the one index past their end that the fastest rates reach; phases, waveforms, feedback and output are left out, and so are timers and status flags.
- YM3812: CSM mode, since no register write ever sets its mode bit; the writes to the registers 0x01 to 0x04.
- Westwood driver: the opcode interpreter (executePrograms), which may change channels between callbacks in more ways than to end them; of a channel its priority, data pointer, timing, volume and key register are kept. Entries that a reset leaves behind point into the old data; here they are offsets. Track numbers above 255 are cut to a byte, as in the original.
- Composer.Backend.ChangePitch: requires a voice that the mode has (nine, eleven with rhythm); the original writes past a cache for the others.
- Visual Composer: instruments, the table of frequencies (a parameter of 25 rows of 12 values below 1024; `ComposerPitch` has the synth's), and what plays above the melodic range: key bits of voices 6 to 8 after a change of mode are not claimed.
- HERAD: the song formats themselves; SQX data is taken as its detection accepts it (flags 0 to 2, 1 to 15 count bits).
