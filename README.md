# Configuration loader model

A Dafny model of the emulator's configuration object, `Config`
(`src/Config.cpp`). The model covers three parts:

- the default constructor, which sets eleven settings to fixed values;
- the getters, which read them back;
- `loadConfig`, which reads a configuration file line by line and overwrites
  the settings.

`loadConfig` works line by line:

- Empty lines and lines whose first character is `#` are skipped.
- The first whitespace-delimited token of any other line selects one of eleven
  keys, and the second token is read into the matching field.
- The field is checked right after it is stored. The first violation, or an
  unknown key, makes the loader return `false` without reading the rest of the
  file.

The project has six modules:

- `ConfigUtils` (ConfigUtils.dfy) defines the three helpers the loader calls:
  `stripQuotes`, `isInValidRange` and `isPowerOfTwo`. Their bodies are not part
  of this model. The definitions are **assumptions**, taken from the error text
  "must be power of 2 in range [2, 2^32]" and from how the loader uses them:
  - stripping removes one pair of surrounding double quotes;
  - the range is the inclusive [2, 2^32];
  - a power of two is a number that halving takes down to 1.
- `Tokenizer` (Tokenizer.dfy) models what `std::istringstream >> std::string`
  extracts: the key token and the value token, found across any whitespace. It
  also reads a value token as an unsigned decimal number. When no value token
  follows the key, the extraction fails before converting and a numeric field
  keeps its value (`ExtractNumber`).
- `ConfigRules` (ConfigRules.dfy) states the loader's rules on values:
  - the eleven settings as a `Settings` record, and `Defaults()`;
  - `Assign`, the effect of storing and checking one field;
  - `Step`, the effect of one line, which either continues or stops with a
    `LoadError`;
  - `Load` and `LoadFile`, the effect of a whole file.
- `ConfigLoader` (ConfigLoader.dfy) holds the class `Config`, with the eleven
  fields, the constructor and the getters:
  - `LoadConfig` is the loader's `while` loop, which overwrites the fields in
    place.
  - `ApplyLine` is the loop body.
  - `StoreField` is one branch of the key dispatch: it assigns, then checks.
  - Each method is proved to leave exactly the state, and return exactly the
    result, that the `ConfigRules` functions give.
- `ConfigProperties` (ConfigProperties.dfy) proves what the rules guarantee.
  It also proves what they do not: the two comparisons between fields depend
  on line order, and nothing relates `minIns` to `maxIns`.
- `ConfigExamples` (ConfigExamples.dfy) works through concrete files loaded
  into a freshly constructed configuration.

The error messages written to `std::cerr` are replaced by a `LoadError` value:
- `SourceUnavailable`: the file could not be opened;
- `UnknownKey(key)`: the first token is not one of the eleven keys;
- `Invalid(key, kind)`: a value failed a check, where the kind is
  `OutOfRange`, `BadScheduler`, `NotPowerOfTwoInRange` or `CrossField`.

## Model

| member | source | states |
|---|---|---|
| ConfigLoader.Config.constructor | src/Config.cpp:12-24 | A fresh configuration holds numCpu 4, scheduler "rr", quantum 5, batch frequency 1, instructions 1000..2000, delay 0, memory 512/256/512/512, which is `Defaults()` |
| ConfigLoader.Config.LoadConfig | src/Config.cpp:26-137 | The loop returns true exactly when the file opens and every line is accepted. The fields end as `LoadFile` gives: each line applied in order, stopping after the first rejected one with its bad value stored. A successful load from valid fields leaves every field valid |
| ConfigLoader.Config.ApplyLine | src/Config.cpp:34-132 | One iteration of the loop: the skip test, key extraction and dispatch. It leaves the fields as `Step` says and returns false exactly when `Step` stops |
| ConfigLoader.Config.StoreField | src/Config.cpp:42-128 | One dispatch branch: reads the value token into the selected field (a numeric field is left as it was when there is no token), then checks it and the comparison with another field. The fields end as `Assign` says, and it returns false exactly when `Assign` stops |
| ConfigLoader.Config.GetNumCpu | src/Config.cpp:139-141 | Returns the current numCpu |
| ConfigLoader.Config.GetSchedulerType | src/Config.cpp:143-145 | Returns the current scheduler type |
| ConfigLoader.Config.GetQuantumCycles | src/Config.cpp:147-149 | Returns the current quantum |
| ConfigLoader.Config.GetBatchProcessFreq | src/Config.cpp:151-153 | Returns the current batch frequency |
| ConfigLoader.Config.GetMinIns | src/Config.cpp:155-157 | Returns the current minIns |
| ConfigLoader.Config.GetMaxIns | src/Config.cpp:159-161 | Returns the current maxIns |
| ConfigLoader.Config.GetDelaysPerExec | src/Config.cpp:163-165 | Returns the current delay per execution |
| ConfigLoader.Config.GetMaxOverallMem | src/Config.cpp:167-169 | Returns the current maxOverallMem |
| ConfigLoader.Config.GetMemPerFrame | src/Config.cpp:171-173 | Returns the current memPerFrame |
| ConfigLoader.Config.GetMinMemPerProc | src/Config.cpp:175-177 | Returns the current minMemPerProc |
| ConfigLoader.Config.GetMaxMemPerProc | src/Config.cpp:179-181 | Returns the current maxMemPerProc |
| ConfigRules.Defaults | src/Config.cpp:12-23 | The constructor's eleven values; characterised by `ConfigLoader.Config.constructor` (the fields equal it) and `ConfigProperties.DefaultsValid` (it passes every rule) |
| ConfigRules.Assign | src/Config.cpp:42-128 | One dispatch branch on values; characterised by `AssignStores`, `AssignFrame` and `AssignVerdict` (what is stored, nothing else changes, when it stops and with which error) |
| ConfigRules.Step | src/Config.cpp:36-131 | One line on values; characterised by `StepSkipsBlankAndComment`, `StepUnknownKey`, `StepAssignsOwnField`, `StepWrites` and `StepVerdict` |
| ConfigRules.Load | src/Config.cpp:34-133 | The loop on values; characterised by `LoadAppend`, `LoadStopsAtFirstFailure`, `LoadedIsApply` and `LoadVerdict` |
| ConfigRules.LoadFile | src/Config.cpp:26-31 | A file that cannot be opened fails with `SourceUnavailable` and changes nothing; otherwise `Load`. Equal to what `ConfigLoader.Config.LoadConfig` does |
| ConfigRules.KeyOf | src/Config.cpp:42-118 | Every recognised key is non-empty and does not start with '#' |
| ConfigRules.LookupKey | src/Config.cpp:42-131 | The dispatch finds a field only for that field's own key, and finds nothing exactly when no field has the key |
| ConfigProperties.LookupKeyOf | src/Config.cpp:42-118 | Each field's own key selects that field: the eleven keys are distinct |
| ConfigProperties.DefaultsValid | src/Config.cpp:12-23 | The defaults satisfy every field rule, and both comparisons between fields |
| ConfigProperties.StepSkipsBlankAndComment | src/Config.cpp:36 | An empty line, or one whose first character is '#', changes nothing and the load goes on |
| ConfigProperties.KeyLineIsSignificant | src/Config.cpp:36-42 | A line whose first token is a recognised key is neither empty nor starts with '#' |
| ConfigProperties.StepUnknownKey | src/Config.cpp:129-131 | A first token that matches no key stops the load with nothing changed |
| ConfigProperties.BlankLookingLineIsUnknownKey | src/Config.cpp:36-40 | A whitespace-only line is not skipped: its key is empty and it stops the load |
| ConfigProperties.IndentedCommentIsUnknownKey | src/Config.cpp:36-40 | A '#' after leading whitespace is not a comment: the line stops the load as an unknown key, nothing changed |
| ConfigProperties.AssignStores | src/Config.cpp:42-128 | Whatever the verdict, the field holds the parsed value token afterwards (assignment precedes the check); a numeric field with no value token keeps its value, because the extraction fails before converting |
| ConfigProperties.AssignFrame | src/Config.cpp:42-128 | An assignment changes no other field |
| ConfigProperties.AssignVerdict | src/Config.cpp:44-127 | An assignment is accepted exactly when the stored value passes its field's rule and its comparison. A rejection names the key, and is a failed comparison exactly when the value itself passed |
| ConfigProperties.StepAssignsOwnField | src/Config.cpp:38-128 | A line with a recognised key reads its value token into that field only, and is accepted exactly when the field's rule and comparison hold |
| ConfigProperties.StepWrites | src/Config.cpp:36-131 | After one line a field holds the line's value if the line writes it (its key, with a value token or for the scheduler), and its earlier value otherwise |
| ConfigProperties.StepVerdict | src/Config.cpp:36-131 | A line goes on exactly when `LineOk`: it is skipped, or its key is recognised and the value its field ends with passes the field's rule and the comparison against the current settings |
| ConfigProperties.DelayPerExecNeverRejected | src/Config.cpp:86-92 | A `delay-per-exec` line is always accepted, with or without a value token: the `< 0` test cannot fail on an unsigned value |
| ConfigProperties.LoadAppend | src/Config.cpp:34-133 | Loading a file in two pieces is loading it whole, and a failing first piece ends the load |
| ConfigProperties.LoadStopsAtFirstFailure | src/Config.cpp:43-46 | The first rejected line ends the load: later lines are never read, and nothing is rolled back (the bad value and earlier assignments stay) |
| ConfigProperties.LoadKeepsAbsentField | src/Config.cpp:42-128 | A field that no line writes keeps its value, for a fresh configuration its default, whether or not the load succeeds |
| ConfigProperties.LoadLastAssignmentWins | src/Config.cpp:42-128 | After a successful load, a field written on several lines holds the value of the last one |
| ConfigProperties.ApplySnoc | src/Config.cpp:34-133 | Reading the lines' values without checks, one more line at the end is one more step |
| ConfigProperties.ApplyIsLastSet | src/Config.cpp:42-128 | Reading the lines' values without checks leaves each field at the value of the last line that writes it (`LastSet`), or unchanged when none does |
| ConfigProperties.LoadedIsApply | src/Config.cpp:34-133 | A successful load leaves the fields exactly as reading every line's value without checks does |
| ConfigProperties.LoadVerdict | src/Config.cpp:34-133 | The loader's verdict, both ways: a file loads exactly when every line passes `LineOk` against the values the lines above it left (`Apply` of the prefix, whose fields `ApplyIsLastSet` gives). So a mem-per-frame line must not exceed the max-overall-mem last written above it, and a max-mem-per-proc line must not be below the min-mem-per-proc last written above it, or the default |
| ConfigProperties.LoadPreservesFieldsValid | src/Config.cpp:44-127 | A successful load from valid settings leaves every field within its own rule |
| ConfigProperties.LoadedFromDefaultsIsValid | src/Config.cpp:26-137 | A successful load into a fresh configuration leaves numCpu in [1,128], scheduler "fcfs" or "rr", the four counts at least 1, and the four memory sizes powers of two in [2, 2^32] |
| ConfigProperties.AssignKeepsCrossCheck | src/Config.cpp:100-128 | An accepted assignment to anything but a comparison's bound keeps that comparison true |
| ConfigProperties.StepKeepsCrossCheck | src/Config.cpp:100-128 | The same for one line whose key is not the bound's |
| ConfigProperties.LoadKeepsCrossCheck | src/Config.cpp:100-128 | memPerFrame <= maxOverallMem (resp. maxMemPerProc >= minMemPerProc) survives a successful load when no line sets the bound again; `ConfigExamples.LaterBoundsNotRechecked` shows it failing when one does |
| ConfigProperties.LoadSucceedsOnAcceptedLines | src/Config.cpp:34-133 | Whatever the starting settings, a file loads when each line is skipped or writes a valid value to a field that makes no comparison. Files with the two comparison keys are covered by `LoadVerdict` |
| ConfigUtils.StripQuotes | src/Config.cpp:52 | The scheduler value is either left as it is or loses one surrounding pair of quotes |
| ConfigUtils.StripQuotesOfQuoted | src/Config.cpp:52 | Stripping a quoted token gives the text inside the quotes |
| ConfigUtils.StripQuotesOfUnquoted | src/Config.cpp:52 | A token without surrounding quotes is unchanged |
| ConfigUtils.IsInValidRange | src/Config.cpp:95 | Assumed: the inclusive range [2, 2^32] of the error text at line 96; characterised by `Pow2InRange` and `MemSizeIsPow2InRange` |
| ConfigUtils.IsPowerOfTwo | src/Config.cpp:95 | Assumed: halving reaches 1; characterised by `Pow2IsPowerOfTwo` and `PowerOfTwoIsPow2` (exactly the numbers 2^k) |
| ConfigUtils.Pow2IsPowerOfTwo | src/Config.cpp:95 | Every 2^k passes the power-of-two test |
| ConfigUtils.PowerOfTwoIsPow2 | src/Config.cpp:95 | The power-of-two test accepts exactly the numbers 2^k |
| ConfigUtils.Pow2InRange | src/Config.cpp:95 | 2^k is in the memory range exactly when 1 <= k <= 32 |
| ConfigUtils.MemSizeIsPow2InRange | src/Config.cpp:95-96 | A memory size is accepted exactly when it is 2^k with 1 <= k <= 32, as the error text says |
| Tokenizer.DropSpacesSplits | src/Config.cpp:40 | Skipping leading whitespace removes a prefix made only of whitespace, and all of it |
| Tokenizer.TakeTokenSplits | src/Config.cpp:40 | A token ends at the first whitespace: the token has none, the rest is empty or starts with whitespace, and together they are the input |
| Tokenizer.KeyToken | src/Config.cpp:40 | The parameter name `iss >> paramName` reads; characterised by `DropSpacesSplits`, `TakeTokenSplits` and `TokensOfLine` |
| Tokenizer.ValueToken | src/Config.cpp:43 | The token that the value extraction after the key reads (as at lines 43 and 51); empty when only whitespace follows the key; characterised by `TokensOfLine` |
| Tokenizer.TokensOfLine | src/Config.cpp:38-40 | Optional indentation, a key, whitespace, a value and a whitespace-led tail yield that key and that value |
| Tokenizer.LeadingDigits | src/Config.cpp:43 | The number read is the longest prefix of decimal digits |
| Tokenizer.ParseUnsigned | src/Config.cpp:43 | A token that does not start with a digit reads as 0 |
| Tokenizer.ExtractNumber | src/Config.cpp:43 | What `iss >> field` leaves in a numeric field: the token's number when there is a token, and the field's current value when none is left; never negative for a non-negative field |
| Tokenizer.ParseShowNat | src/Config.cpp:43 | Reading back a decimal rendering of n gives n |
| ConfigExamples.SpelledLines | src/Config.cpp:38-40 | `num-cpu 8` and an indented, tab-separated `num-cpu 8` with a trailing comment both read as key num-cpu, value 8 |
| ConfigExamples.SchedulerAndCpu | src/Config.cpp:42-57 | A quoted "fcfs" and `num-cpu 8` load, changing only those two fields |
| ConfigExamples.NumCpuZero | src/Config.cpp:42-47 | `num-cpu 0` fails as out of range, with 0 already stored |
| ConfigExamples.MaxOverallMemBoundaries | src/Config.cpp:93-99 | max-overall-mem 1 and 3 are rejected, 2 is accepted |
| ConfigExamples.FrameAfterBoundLoads | src/Config.cpp:93-110 | max-overall-mem 2048 followed by mem-per-frame 1024 loads |
| ConfigExamples.FrameBeforeBoundFails | src/Config.cpp:100-110 | mem-per-frame 1024 first fails its comparison with the default 512, whatever follows |
| ConfigExamples.LaterBoundsNotRechecked | src/Config.cpp:93-127 | On the defaults, max-overall-mem 128 loads with memPerFrame above it, and min-mem-per-proc 1024 loads with maxMemPerProc below it |
| ConfigExamples.InstructionCountsNotCompared | src/Config.cpp:72-85 | min-ins 5000 loads with minIns above maxIns |
| ConfigExamples.FailureKeepsEarlierAssignments | src/Config.cpp:58-63 | After `num-cpu 8`, `quantum-cycles 0` fails, keeping numCpu 8 and the stored 0, and ignoring the rest |
| ConfigExamples.CommentsSkippedLastValueKept | src/Config.cpp:36-48 | A comment and a blank line are skipped; of two num-cpu lines, the second value is kept |
| ConfigExamples.BareKeyKeepsValue | src/Config.cpp:42-47 | A bare `num-cpu` line, with no value, is accepted and leaves the default 4 in place |
| ConfigExamples.IndentedLinesAreUnknownKeys | src/Config.cpp:36-40 | A whitespace-only line and an indented comment each fail as unknown keys |

## Left out

- Opening the file, `std::getline` and closing it (src/Config.cpp:27-31, 34, 135) are I/O. The file is given as `Option<seq<string>>`: `None` is a file that could not be opened, and it fails with `SourceUnavailable` before anything changes. The lines arrive already split.
- The text written to `std::cerr` is replaced by the `LoadError` value. The model does not name the file or format messages. The loader itself returns only true or false.
- The singleton accessor `getInstance` (src/Config.cpp:7-10) is static lifetime, not logic.
- The bodies of `ConfigUtils::stripQuotes`, `isInValidRange` and `isPowerOfTwo` are not part of this model. `ConfigUtils` states the behaviour the loader assumes of them.
- Tokenizer.ParseUnsigned: reads a token as its leading decimal digits, and a token with none as 0 (the value a failed C++11 extraction stores). Not modelled:
  - a leading '+' or '-';
  - wrap-around of a negative number into an `unsigned int`;
  - saturation at the type's maximum on overflow.
  
  So `quantum-cycles -5`, which the compiled loader accepts as a huge wrapped value, is rejected here as 0.
- ConfigLoader.Config: the unsigned fields are unbounded naturals, not 32-bit. 2^32 passes the range test here but does not fit in an `unsigned int` field. `numCpu` is an `int` that is never negative here.
- The scheduler values are those the code compares against, "fcfs" and "rr".
