# Eye-blink conditioning: recorder, status reader and trace partitioning

This project models the data path of the eye-blink conditioning rig's
Python tools in Dafny and proves properties of the model:

- **The session-header classifier** (`python/eyeBlinkDataSave.py`). `ExpState.current_state`
  derives the phase from `mouseName` and `session`. The `process_data` loop
  strips each line from the board, skips blank ones, takes the first
  `Mouse<w><d>` match as the mouse name and then the first
  `Session<digits>:<spaces><Cntrl|Delay|Trace>` match as the session. Module
  `ExperimentState`: class `ExpState`, with the pure `Step`/`Run`
  specification beside it.
- **The framed block readers** `writeTrialData` and `writeProfilingData`. They
  read a header line (trial blocks only), skip to the `[` line, and collect
  two-token lines up to the `]` line. Trial samples go into the per-trial
  dictionary and are written to `Trial<key>.csv`. Profiling counts are
  assigned per bin and written to `profilingData.csv`. Module
  `FramedBlocks`: class `Recorder`, with the pure `ReadTrial`/`ReadProfile`
  specification beside it. In this program nothing reaches the two readers
  (see "Left out"); the model states what they do when called.
- **The status reader** of `python/thresholding_eyeblink_data.py`:
  - `get_status` reads the CS type of row `i` from the third line of
    `Trial<i+1>.csv`;
  - status 1 maps to `CS_PLUS`, anything else to `CS_MINUS`;
  - each row is cut into the 500-sample pre-tone window and the 50-sample
    response window.

  This is module `TrialStatus`. It includes the round trip from what the
  recorder writes to what the status reader reads back.
- **`partition_data`** of `python/plot_trial_data.py`. It cuts the
  (time, blink) columns into chunks, one per sample whose time is 11, and
  drops the samples before the first such one. Module `TracePartition`.

Module `Text` holds the Python 2 string operations these files use:
`strip`, `split()`, `split(c)`, `join`, `int()`, `str()` and `os.path.join`.

Ports, files and the dictionaries are modelled as values:
- the serial port is a finite sequence of lines read from a cursor;
- a directory is a map from path to file contents;
- `trialsDict` and `profilingDict` are maps held in the `Recorder`'s fields.

Where the code cannot run as written, the model follows what it evidently
intends. Each such point is listed under "Left out".

## Model

| member | source | states |
|---|---|---|
| ExperimentState.PhaseOf | python/eyeBlinkDataSave.py:59-67 | The phase is "waiting for data" iff a mouse name is set and the session is non-empty. It is "waiting for session info" iff a mouse name is set and the session is empty. It is "waiting for mouse info" iff no (non-empty) mouse name is set. |
| ExperimentState.ExpState.constructor | python/eyeBlinkDataSave.py:52-57 | A new object has no mouse name, an empty session and no stored state. |
| ExperimentState.ExpState.CurrentState | python/eyeBlinkDataSave.py:59-67 | Returns the phase of the current fields and stores it in `state`. Nothing else changes. |
| ExperimentState.MouseFrom | python/eyeBlinkDataSave.py:215 | Finds the first position at or after `p` where the mouse pattern matches. No earlier position matches. |
| ExperimentState.MouseSearch | python/eyeBlinkDataSave.py:215 | `search` finds nothing iff the pattern matches nowhere. Otherwise the name is the two characters after `Mouse` at the leftmost match. |
| ExperimentState.DigitRunSpec | python/eyeBlinkDataSave.py:216 | The greedy `\d+` run consists of digits and stops at a non-digit or at the end. |
| ExperimentState.SpaceRunSpec | python/eyeBlinkDataSave.py:216 | The greedy `\s*` run consists of whitespace and stops at a non-space or at the end. |
| ExperimentState.DigitRunExact | python/eyeBlinkDataSave.py:216 | A maximal digit run of length m is what the greedy run measures. |
| ExperimentState.SpaceRunExact | python/eyeBlinkDataSave.py:216 | A maximal whitespace run of length m is what the greedy run measures. |
| ExperimentState.SpaceRunIsLeadingSpace | python/eyeBlinkDataSave.py:216 | The run `\s*` consumes is the whitespace `strip()` removes from the front of the rest of the line. |
| ExperimentState.SessionAtShape | python/eyeBlinkDataSave.py:216 | A session match at `p` has the full shape: `Session`, a maximal digit run, `:`, a maximal whitespace run, then one of the three kinds. |
| ExperimentState.SessionAtComplete | python/eyeBlinkDataSave.py:216 | Conversely, that shape at `p` is a match with exactly that number and kind. |
| ExperimentState.SessionAtFound | python/eyeBlinkDataSave.py:216 | With the runs measured at `p`, the match yields the digits as `sno` and the kind as `stype`. |
| ExperimentState.SessionAt | python/eyeBlinkDataSave.py:216 | The session pattern as the regex engine tries it at one position. It has no contract of its own: `SessionAtShape` and `SessionAtComplete` state that it matches exactly the shapes the pattern describes. |
| ExperimentState.SessionFrom | python/eyeBlinkDataSave.py:216 | Finds the first position at or after `p` where the session pattern matches. No earlier position matches. |
| ExperimentState.SessionSearch | python/eyeBlinkDataSave.py:216 | `search` finds nothing iff the pattern matches nowhere. Otherwise it returns the groups of the leftmost match. |
| ExperimentState.Step | python/eyeBlinkDataSave.py:211-230 | A blank line is a no-op. Any other line stores the current phase. A set mouse name or session is never overwritten. In the data phase nothing changes. The phase never moves back. From a consistent state (no session without a mouse) it advances by at most one and stays consistent. |
| ExperimentState.StepRecordsMouse | python/eyeBlinkDataSave.py:217-221 | While waiting for the mouse, the leftmost match sets `mouseName` to its two characters and changes nothing else. |
| ExperimentState.StepSkipsNonMouseLine | python/eyeBlinkDataSave.py:217-221 | While waiting for the mouse, a line without a match leaves the mouse name and the session unchanged. |
| ExperimentState.StepRecordsSession | python/eyeBlinkDataSave.py:222-226 | While waiting for the session, the leftmost match sets `session` to `[digits, type]` and leaves the mouse name alone. |
| ExperimentState.StepSkipsNonSessionLine | python/eyeBlinkDataSave.py:222-226 | While waiting for the session, a line without a match leaves the mouse name and the session unchanged. |
| ExperimentState.StepOnMouseLine | python/eyeBlinkDataSave.py:218-220 | A line with a mouse match sets the name to what `search` finds, and the name is then truthy. |
| ExperimentState.StepOnSessionLine | python/eyeBlinkDataSave.py:223-226 | A line with a session match sets the session to the groups `search` finds and moves to the data phase. |
| ExperimentState.RunAppend | python/eyeBlinkDataSave.py:211-230 | Running the loop over two stretches of input is running it over the first, then the second. |
| ExperimentState.RunAround | python/eyeBlinkDataSave.py:211-230 | The loop's state after line i is one step from its state before line i. |
| ExperimentState.Run | python/eyeBlinkDataSave.py:211-230 | The `process_data` loop as a fold of `Step` over the lines it reads, which start after the first non-blank line that `write_data` throws away. It has no contract of its own: `RunAppend`, `RunAround`, `RunOnlyMovesForward`, `HeaderCompleteIff`, `FirstMouseLineWins` and `FirstSessionLineWins` state it. |
| ExperimentState.RunOnlyMovesForward | python/eyeBlinkDataSave.py:217-229 | Over any input the phase only moves forward. Set fields are never overwritten. The data phase changes nothing. Consistency is kept. |
| ExperimentState.StepLeavesMousePhaseIff | python/eyeBlinkDataSave.py:217-221 | Waiting for the mouse, one line leaves that phase iff it holds a mouse match. |
| ExperimentState.StepReachesDataPhaseIff | python/eyeBlinkDataSave.py:222-226 | Waiting for the session, one line reaches the data phase iff it holds a session match. |
| ExperimentState.SomeLineSnoc | python/eyeBlinkDataSave.py:211-214 | Some line satisfies P iff some earlier line does or the last one does. |
| ExperimentState.SomeLineAt | python/eyeBlinkDataSave.py:211-214 | A line satisfying P at index k witnesses that some line does. |
| ExperimentState.LeavesMousePhaseIff | python/eyeBlinkDataSave.py:211-221 | The loop is still waiting for the mouse iff no line holds a mouse match. |
| ExperimentState.ReachesDataPhaseIff | python/eyeBlinkDataSave.py:211-226 | Waiting for the session, the loop reaches the data phase iff some line holds a session match. |
| ExperimentState.MouseThenSessionCompletes | python/eyeBlinkDataSave.py:211-227 | A mouse line followed later by a session line completes the header. |
| ExperimentState.CompletedHeaderHasBothLines | python/eyeBlinkDataSave.py:211-227 | A completed header implies a mouse line followed later by a session line. |
| ExperimentState.LastLineCompletesHeader | python/eyeBlinkDataSave.py:222-226 | When the data phase is reached on the last line, that line is a session line and an earlier one a mouse line. |
| ExperimentState.HeaderCompleteIff | python/eyeBlinkDataSave.py:211-227 | From the start, the data phase is reached iff the input holds a mouse line followed later by a session line. |
| ExperimentState.FirstMouseLineWins | python/eyeBlinkDataSave.py:217-221 | The mouse name is the one found on the first mouse line. |
| ExperimentState.StillWaitingForMouse | python/eyeBlinkDataSave.py:217-221 | Before the first mouse line, the loop keeps waiting for the mouse. |
| ExperimentState.StillWaitingForSession | python/eyeBlinkDataSave.py:222-226 | Before the first session line, the loop keeps waiting for the session. |
| ExperimentState.FirstSessionLineWins | python/eyeBlinkDataSave.py:222-226 | The session is the one found on the first session line. |
| ExperimentState.ExpState.ProcessLine | python/eyeBlinkDataSave.py:211-230 | One loop pass over the object's fields is `Step` of the old fields. |
| ExperimentState.ExpState.ProcessData | python/eyeBlinkDataSave.py:208-230 | The loop over the lines leaves the object in the state `Run` gives. |
| Text.Strip | python/eyeBlinkDataSave.py:212 | `strip()` is the slice of its input that starts after the leading whitespace, does not begin or end with whitespace, and is followed only by whitespace: the input without the whitespace at either end. |
| Text.StripEmpty | python/eyeBlinkDataSave.py:212-214 | A line is blank after `strip()` iff it is all whitespace. |
| Text.StripUnchanged | python/thresholding_eyeblink_data.py:30 | A string whose ends are not whitespace is its own `strip()`. |
| Text.Words | python/eyeBlinkDataSave.py:139 | `split()` yields non-empty tokens without whitespace. It yields none iff the line is all whitespace. `WordsCons` states which tokens. |
| Text.WordsCons | python/eyeBlinkDataSave.py:148 | Leading whitespace is skipped, and a token that ends at whitespace or at the end of the line is the first item, followed by the items of the rest. With the all-whitespace case this fixes `split()` on every line, tabs and carriage returns included. |
| Text.LeadingSpace | python/eyeBlinkDataSave.py:212 | The length of the whitespace run at the front: all of it is whitespace and the next character, if any, is not. |
| Text.LeadingSpaceExact | python/eyeBlinkDataSave.py:212 | A whitespace run that stops before a non-space or at the end is the run `LeadingSpace` measures. |
| Text.JoinWith | python/eyeBlinkDataSave.py:160 | `sep.join(parts)`. It has no contract of its own: `SplitOfJoin` and `WordsOfJoin` state that splitting undoes it. |
| Text.WordsOfJoin | python/eyeBlinkDataSave.py:148 | Splitting tokens joined by single spaces gives the tokens back. |
| Text.SplitOn | python/thresholding_eyeblink_data.py:28 | `split(c)` yields one piece more than there are separators. No piece holds the separator. Joining the pieces with the separator gives the input back. |
| Text.SplitOnWithoutSeparator | python/thresholding_eyeblink_data.py:30 | A string without the separator splits into itself. |
| Text.SplitOnFirstSeparator | python/thresholding_eyeblink_data.py:28-30 | A separator-free prefix followed by the separator splits off as the first piece. |
| Text.SplitOfJoin | python/eyeBlinkDataSave.py:160 | `split(c)` undoes `c.join(parts)` when no part holds `c`. |
| Text.Decimal | python/thresholding_eyeblink_data.py:26 | `str(n)` for a natural number is non-empty digits without a leading zero. |
| Text.ParseInt | python/thresholding_eyeblink_data.py:30 | `int()` of a digit string is its decimal value. |
| Text.DecimalRoundTrip | python/thresholding_eyeblink_data.py:26 | The digits of `str(n)` denote n. |
| Text.IntRoundTrip | python/thresholding_eyeblink_data.py:30 | `int(str(c)) == c` for every integer. |
| Text.IntToString | python/thresholding_eyeblink_data.py:30 | `str(c)` of an integer CS type. It has no contract of its own: `IntRoundTrip` states that `int()` reads it back as c. |
| Text.IntTokenShape | python/thresholding_eyeblink_data.py:30 | A whitespace-free string that `int()` accepts is a sign or digit followed by digits. |
| Text.PathJoin | python/thresholding_eyeblink_data.py:26 | `os.path.join(dir, name)` ends with `name`. When `name` is not absolute it also begins with `dir`. |
| FramedBlocks.SplitPair | python/eyeBlinkDataSave.py:148 | Two-name unpacking of `split()` fails iff the line does not have exactly two tokens. Otherwise the pair is the first and the second item of `split()`, both tokens. |
| FramedBlocks.SplitPairOfTokens | python/eyeBlinkDataSave.py:139 | Two tokens separated by a space unpack back into themselves. |
| FramedBlocks.FindFrom | python/eyeBlinkDataSave.py:140-141 | The skip loop stops at the first `[` line at or after the cursor. Every line it skips is not `[`. |
| FramedBlocks.Classify | python/eyeBlinkDataSave.py:145-148 | A body line ends the block iff it is `]`. It is an error iff it is not `]` and does not unpack into two tokens. |
| FramedBlocks.DataLineSplits | python/eyeBlinkDataSave.py:148 | A kept data line is not `]` and unpacks into its pair. |
| FramedBlocks.KindAt | python/eyeBlinkDataSave.py:143-148 | The classification of line k is the kind of that line. |
| FramedBlocks.BodyOf | python/eyeBlinkDataSave.py:143-149 | The body loop reads within the input. It stops where the first non-data line stops it. A bad-line error names a line that does not split. |
| FramedBlocks.ReadBody | python/eyeBlinkDataSave.py:143-149 | The body loop from a cursor. It has no contract of its own: `ReadBodyAt`, `ReadBodyPairs` and `ReadBodyStops` state what it collects and where it stops. |
| FramedBlocks.ReadBodyAt | python/eyeBlinkDataSave.py:143-149 | One pass of the body loop: `]` stops it, a line that does not unpack is an error, and a pair is kept before the rest is read. |
| FramedBlocks.BodyPairs | python/eyeBlinkDataSave.py:143-149 | The pairs collected are the data lines from the cursor, in order. |
| FramedBlocks.ReadBodyPairs | python/eyeBlinkDataSave.py:143-149 | Every line up to the first `]` is split into a pair, kept in arrival order. The `]` itself is not kept. |
| FramedBlocks.ReadBodyStops | python/eyeBlinkDataSave.py:143-149 | The loop stops at the end of input (incomplete), at the first `]`, or at the first line that does not unpack (an error at that line), whichever comes first. Each of these holds exactly in its case. |
| FramedBlocks.AppendSpec | python/eyeBlinkDataSave.py:149 | Appending to `trialsDict[key]` adds the pairs after the earlier samples under that key. Every other key is unchanged. The key exists afterwards iff it did before or something was appended. |
| FramedBlocks.Samples | python/eyeBlinkDataSave.py:149 | `trialsDict[key]` through `defaultdict(list)`. It has no contract of its own: `AppendSpec` states it. |
| FramedBlocks.Append | python/eyeBlinkDataSave.py:149 | The appends of one block. It has no contract of its own: `AppendSpec` and `AppendFirst` state it. |
| FramedBlocks.AppendFirst | python/eyeBlinkDataSave.py:149 | Appending a list is appending its first pair, then the rest. |
| FramedBlocks.DataRows | python/eyeBlinkDataSave.py:158-159 | One `a,b` row per pair, in order. |
| FramedBlocks.ReadHeader | python/eyeBlinkDataSave.py:139-141 | A found header is followed by a `[` line after the header line. |
| FramedBlocks.AfterHeaderFound | python/eyeBlinkDataSave.py:139-160 | With a header found, the trial reader reads the body after the `[` line. |
| FramedBlocks.AfterHeader | python/eyeBlinkDataSave.py:139-160 | `writeTrialData` after the header line. It has no contract of its own: `AfterHeaderFound` and `Recorder.FinishTrialData` state it. |
| FramedBlocks.ReadTrial | python/eyeBlinkDataSave.py:138-160 | `writeTrialData` as a function of the store and the lines. It has no contract of its own: `TrialRecordsSamples`, `ReadTrialFound`, `TrialSkipsPreamble`, `TrialStopsAtEnd` and `WriterThenReader` state it. |
| FramedBlocks.FinishTrial | python/eyeBlinkDataSave.py:149-160 | `writeTrialData` after the body is read. It has no contract of its own: `FinishTrialRecords` and `TrialFileWritten` state it. |
| FramedBlocks.TrialFile | python/eyeBlinkDataSave.py:151 | `os.path.join(saveDirec, "Trial" + runningTrial + ".csv")`. It has no contract of its own: `StatusFileIsTrialFile` states it is the file `get_status` reads. |
| FramedBlocks.TrialText | python/eyeBlinkDataSave.py:153-160 | The intended text of a trial file. It has no contract of its own: `TrialTextLines`, `TrialTextHead` and `SampleLines` state its lines. |
| FramedBlocks.AssignKeys | python/eyeBlinkDataSave.py:172-174 | After the assignments, a bin is present iff it was before or some pair names it. |
| FramedBlocks.LastOccurrenceWins | python/eyeBlinkDataSave.py:172-174 | The count kept for a bin is the one from its last pair. |
| FramedBlocks.UnassignedBinKept | python/eyeBlinkDataSave.py:172-174 | A bin that no pair names keeps its presence and its count. |
| FramedBlocks.AssignFirst | python/eyeBlinkDataSave.py:172-174 | Assigning a list is assigning its first pair, then the rest. |
| FramedBlocks.Assign | python/eyeBlinkDataSave.py:172-174 | The assignments of one profiling block. It has no contract of its own: `AssignKeys`, `LastOccurrenceWins`, `UnassignedBinKept` and `AssignFirst` state it. |
| FramedBlocks.ProfileRows | python/eyeBlinkDataSave.py:177-178 | One `bin,count` row per key, in the order given, each with the count held for that bin. |
| FramedBlocks.ReadProfileFound | python/eyeBlinkDataSave.py:165-166 | With a `[` line found, the profiling reader reads the body after it. |
| FramedBlocks.ReadProfileMissing | python/eyeBlinkDataSave.py:165-166 | Without a `[` line, the profiling reader stops incomplete and changes nothing. |
| FramedBlocks.ReadProfile | python/eyeBlinkDataSave.py:164-174 | `writeProfilingData` up to the file write. It has no contract of its own: `ReadProfileFound`, `ReadProfileMissing`, `ProfileSkipsPreamble` and `ProfileStopsAtEnd` state it. |
| FramedBlocks.FinishProfile | python/eyeBlinkDataSave.py:167-174 | `writeProfilingData` after the body is read. It has no contract of its own: `Recorder.ProfileBody` states it. |
| FramedBlocks.ProfileText | python/eyeBlinkDataSave.py:176-179 | The text of `profilingData.csv`. It has no contract of its own: `ProfileRows` and `Recorder.WriteProfilingData` state it. |
| FramedBlocks.KindsConcat | python/eyeBlinkDataSave.py:143-148 | Classifying two stretches of lines is classifying each. |
| FramedBlocks.BodyShift | python/eyeBlinkDataSave.py:143-149 | Lines before the cursor do not change what the body loop collects. They only shift where it stops. |
| FramedBlocks.ReadBodyShift | python/eyeBlinkDataSave.py:143-149 | Preceding lines do not change the pairs read, and the stop position is shifted by their number. |
| FramedBlocks.FindFromSkips | python/eyeBlinkDataSave.py:140-141 | Lines that are not `[` are skipped without effect on where the skip loop stops. |
| FramedBlocks.ProfileSkipsPreamble | python/eyeBlinkDataSave.py:165-171 | The profiling reader ignores every line before the first `[` and reads the body right after it. |
| FramedBlocks.TrialSkipsPreamble | python/eyeBlinkDataSave.py:139-146 | After the header line, the trial reader ignores every line before the first `[` and reads the body right after it. |
| FramedBlocks.ReadTrialFound | python/eyeBlinkDataSave.py:139-146 | A header line followed by a `[` line leads to reading the body after the `[`. |
| FramedBlocks.BodyIgnoresRest | python/eyeBlinkDataSave.py:145-146 | Once the body loop reaches `]`, lines after it change nothing. |
| FramedBlocks.ReadBodyIgnoresRest | python/eyeBlinkDataSave.py:145-146 | Lines after the first `]` are not read by the body loop. |
| FramedBlocks.FindFromIgnoresRest | python/eyeBlinkDataSave.py:140-141 | Lines after the first `[` do not affect the skip loop. |
| FramedBlocks.ProfileStopsAtEnd | python/eyeBlinkDataSave.py:167-171 | A completed profiling block reads nothing past its `]`. Any lines after it leave the outcome unchanged. |
| FramedBlocks.TrialStopsAtEnd | python/eyeBlinkDataSave.py:143-146 | A completed trial block reads nothing past its `]`. Any lines after it leave the outcome unchanged. |
| FramedBlocks.HeaderIgnoresRest | python/eyeBlinkDataSave.py:139-141 | A found header and its `[` line do not depend on later lines. |
| FramedBlocks.BadHeaderIff | python/eyeBlinkDataSave.py:139 | The header is an error at its line iff that line exists and does not split into exactly two tokens. |
| FramedBlocks.TrialRecordsSamples | python/eyeBlinkDataSave.py:143-160 | The trial reader keeps the block's pairs in arrival order, one per data line, appended after the earlier samples under the trial key. Other keys and the profile are unchanged. A completed block writes `Trial<key>.csv` with all samples under the key. A failed block writes nothing. |
| FramedBlocks.FinishTrialRecords | python/eyeBlinkDataSave.py:149-160 | The same facts, for the part after the body is read. |
| FramedBlocks.TrialTextLines | python/eyeBlinkDataSave.py:153-160 | The trial file's lines are the two comment rows, the `runningTrial,csType` row, then one `ts,v` row per sample, or one empty line when there is no sample. |
| FramedBlocks.TrialTextHead | python/eyeBlinkDataSave.py:154-157 | The first three lines of a trial file are the two comment rows and the header row. |
| FramedBlocks.SampleLines | python/eyeBlinkDataSave.py:158-160 | The sample rows of a trial file split back into one line per sample. |
| FramedBlocks.SplitThreeLines | python/eyeBlinkDataSave.py:154-157 | Three lines without a break, followed by the rest, split into those three lines and the lines of the rest. |
| FramedBlocks.CommentRowsUnbroken | python/eyeBlinkDataSave.py:154-155 | Neither comment row holds a line break. |
| FramedBlocks.RowUnbroken | python/eyeBlinkDataSave.py:156 | A row of two tokens holds no line break. |
| FramedBlocks.DataRowsLines | python/eyeBlinkDataSave.py:158-159 | No sample row holds a line break. |
| FramedBlocks.KeyOrderLength | python/eyeBlinkDataSave.py:177-179 | A key order of the profiling dictionary has one entry per distinct bin. |
| FramedBlocks.KeyOrderTail | python/eyeBlinkDataSave.py:177 | The keys after the first form a key order of the rest of the dictionary. |
| FramedBlocks.RemoveOneKey | python/eyeBlinkDataSave.py:177 | Removing a present key leaves one key fewer. |
| FramedBlocks.SkipTo | python/eyeBlinkDataSave.py:140-141 | The skip loop stops where `FindFrom` says. |
| FramedBlocks.TrialHeader | python/eyeBlinkDataSave.py:139-141 | Reading the header line and skipping to `[` gives `ReadHeader`. |
| FramedBlocks.KeyOrder | python/eyeBlinkDataSave.py:177 | `items()` visits every key of the dictionary exactly once. |
| FramedBlocks.Recorder.constructor | python/eyeBlinkDataSave.py:138 | The dictionaries and the directory start empty. |
| FramedBlocks.Recorder.CollectSamples | python/eyeBlinkDataSave.py:143-149 | The body loop appends exactly the body's pairs to `trialsDict[key]` and stops where the body stops. |
| FramedBlocks.Recorder.SaveTrial | python/eyeBlinkDataSave.py:151-160 | Writes `Trial<key>.csv` with the header row and every sample kept under the key. The key then exists in `trialsDict`. |
| FramedBlocks.Recorder.FinishTrialData | python/eyeBlinkDataSave.py:139-160 | After the header, the recorder's state and progress are those `AfterHeader` gives. |
| FramedBlocks.Recorder.TrialBody | python/eyeBlinkDataSave.py:143-160 | From the body on, the recorder's state and progress are those `FinishTrial` gives. |
| FramedBlocks.Recorder.WriteTrialData | python/eyeBlinkDataSave.py:138-160 | The recorder's state and progress are those `ReadTrial` gives. |
| FramedBlocks.Recorder.AssignBins | python/eyeBlinkDataSave.py:167-174 | The profiling body loop assigns exactly the body's pairs in arrival order. |
| FramedBlocks.Recorder.ProfileBody | python/eyeBlinkDataSave.py:167-179 | Trials are unchanged. The profile is assigned from the body. A completed block writes `profilingData.csv` with one row per distinct bin. A failed block writes nothing. |
| FramedBlocks.Recorder.WriteProfilingData | python/eyeBlinkDataSave.py:164-179 | Trials are unchanged. The profile and progress are those `ReadProfile` gives. A completed block writes `profilingData.csv` with one `bin,count` row per distinct bin, in key order. A failed block writes nothing. |
| TrialStatus.ParseStatus | python/thresholding_eyeblink_data.py:28-30 | Fewer than three lines is an error. A third line without a comma is an error. Otherwise the result is `int()` of the stripped second comma field when `int()` accepts it, and a `ValueError` exactly when it does not. Reading a text never reports a missing file. |
| TrialStatus.GetStatus | python/thresholding_eyeblink_data.py:25-31 | A missing `Trial<i+1>.csv` is an error. Otherwise the status is what that file's text parses to. |
| TrialStatus.StatusFileName | python/thresholding_eyeblink_data.py:26 | `os.path.join(dirname, "Trial%s.csv" % (i+1))`. It has no contract of its own: `StatusFileIsTrialFile` states it is the trial file the recorder writes for key `str(i+1)`. |
| TrialStatus.Label | python/thresholding_eyeblink_data.py:37-42 | The label is CS_PLUS iff the status is 1. |
| TrialStatus.StatusFileIsTrialFile | python/thresholding_eyeblink_data.py:26 | The file read for row i is the trial file the recorder writes for trial key `str(i+1)`. |
| TrialStatus.ReadsBackCsType | python/thresholding_eyeblink_data.py:28-30 | The status of a trial file is the integer CS type in its header row, whatever the samples. |
| TrialStatus.CsTypeHasNoComma | python/thresholding_eyeblink_data.py:30 | A whitespace-free token that `int()` accepts holds no comma. |
| TrialStatus.IntToStringIsToken | python/thresholding_eyeblink_data.py:30 | `str(c)` is a single whitespace-free token. |
| TrialStatus.WrittenStatusReadBack | python/thresholding_eyeblink_data.py:28-30 | A trial file written with CS type `str(c)` has status c. |
| TrialStatus.WriterThenReader | python/thresholding_eyeblink_data.py:25-31 | After the recorder completes a block for trial `i+1` with an integer CS type, `get_status(i)` returns that CS type. |
| TrialStatus.TrialFileWritten | python/eyeBlinkDataSave.py:151-160 | A completed block leaves its trial file holding the header row and every sample kept under the key. |
| TrialStatus.NoCommaInDecimal | python/thresholding_eyeblink_data.py:26 | `str(n)` holds no comma. |
| TrialStatus.Slice | python/thresholding_eyeblink_data.py:47 | A slice with non-negative bounds clamped to the length has the right length and the entries from `lo` on. |
| TrialStatus.PreTone | python/thresholding_eyeblink_data.py:44 | `d[:pretoneN_]` is the first min(500, n) samples of the row. |
| TrialStatus.Response | python/thresholding_eyeblink_data.py:47 | `d[pretoneN_:blinkResponseInterval_]` is the samples from index 500 up to min(550, n), none when the row is shorter than 501. |
| TrialStatus.WindowsAdjacent | python/thresholding_eyeblink_data.py:44-47 | The pre-tone window is the first min(500, n) samples. The response window holds at most 50. Together they are exactly the first min(550, n) samples, so each sample is in at most one window. |
| TrialStatus.SummaryLabel | python/thresholding_eyeblink_data.py:37-42 | A row's label is CS_PLUS iff its status is 1. |
| TrialStatus.SummaryAt | python/thresholding_eyeblink_data.py:37-47 | The loop body for one row. It has no contract of its own: `SummaryLabel` and `Process` state it. |
| TrialStatus.SummariesSnoc | python/thresholding_eyeblink_data.py:37 | The summaries of the first rows followed by the next row's are the summaries of one row more. |
| TrialStatus.Process | python/thresholding_eyeblink_data.py:34-47 | One summary per row, in row order, each with the row's label and windows. The loop stops at the first row whose status cannot be read, with that row's error. |
| TracePartition.Column | python/plot_trial_data.py:15 | `mat[:,c]` has one entry per row, entry k being row k's column c. |
| TracePartition.Blinks | python/plot_trial_data.py:15 | The blink vector is column 0. |
| TracePartition.Times | python/plot_trial_data.py:15 | The time vector is column 1. |
| TracePartition.First | python/plot_trial_data.py:19-22 | The index of the first time equal to 11, or the length when there is none. No earlier time is 11. |
| TracePartition.Count | python/plot_trial_data.py:19-22 | The number of times equal to 11. It has no contract of its own: `CountStep` and `CountNone` state it, and `PartitionData` gives one chunk per count. |
| TracePartition.ConcatAppend | python/plot_trial_data.py:21 | Flattening two lists of parts is flattening each. |
| TracePartition.FlatLengths | python/plot_trial_data.py:23-27 | Chunks with equally long x and y lists flatten to equally long lists. |
| TracePartition.FlatAppend | python/plot_trial_data.py:21 | Appending a chunk appends its lists to the flattened lists. |
| TracePartition.BuiltClosed | python/plot_trial_data.py:28 | Closing the current chunk gives chunks that are all opened by 11 and together hold the samples so far. |
| TracePartition.BuiltMarker | python/plot_trial_data.py:20-24 | A sample with time 11 closes the current chunk and opens a new one with itself. |
| TracePartition.BuiltOther | python/plot_trial_data.py:25-27 | Any other sample joins the current chunk. |
| TracePartition.CountNone | python/plot_trial_data.py:19-22 | Before the first 11, no time counts as a marker. |
| TracePartition.CountStep | python/plot_trial_data.py:19-20 | Each sample adds one to the marker count iff its time is 11. |
| TracePartition.MarkerStep | python/plot_trial_data.py:20-24 | At a time of 11 the loop state stays valid. The current lists go to `result` and new ones start with this sample. |
| TracePartition.FirstMarkerStep | python/plot_trial_data.py:20-24 | At the first 11, the samples so far become `result[0]`, the part later dropped. |
| TracePartition.LaterMarkerStep | python/plot_trial_data.py:20-24 | At a later 11, the current chunk is closed. |
| TracePartition.OtherStep | python/plot_trial_data.py:25-27 | Any other sample joins the current lists, keeping time and blink paired. |
| TracePartition.OtherStepInChunk | python/plot_trial_data.py:25-27 | After the first 11, a non-11 sample joins the current chunk. |
| TracePartition.Finish | python/plot_trial_data.py:28-29 | After the final append and `[1:]`, there is one chunk per 11. Each chunk is opened by 11. Together they hold every sample from the first 11 on. |
| TracePartition.PartitionData | python/plot_trial_data.py:14-29 | The number of chunks equals the number of times equal to 11, so the result is empty without one. Each chunk begins with a time of 11 and holds no other. The concatenated x lists are the time column from the first 11 on. The y lists likewise give the blink column. |
| TracePartition.SplitAtMarkers | python/plot_trial_data.py:16-29 | The loop over the paired columns produces exactly those chunks. |
| TracePartition.PrefixParts | python/plot_trial_data.py:23-27 | The lists of the first k chunks are the first k lists. |
| TracePartition.ConcatAt | python/plot_trial_data.py:23-27 | Entry j of part k sits in the concatenation right after the entries of the parts before it. |
| TracePartition.ChunksPaired | python/plot_trial_data.py:23-27 | Entry j of chunk k's x list and of its y list come from the same row of the matrix, at the same position. |

## Left out

- Serial port discovery and opening (`python/eyeBlinkDataSave.py:99-136`) are not modelled. The port is a finite sequence of lines. It is opened with a 0.5 s timeout, so a `readline()` that times out returns the empty string: the model treats that as an ordinary line, which the `[` skip loop passes over and the body loop fails to unpack (a `BadLine` error, the source's `ValueError`). An incomplete block only marks that the modelled lines ran out, which the program itself never observes.
- Logging and console output are not modelled (`python/eyeBlinkDataSave.py:40-45, 71-80`; every `print`). Neither are `inform_user` and the progress dots of `write_data` (90-96, 243-249).
- `write_data` (234-251) is not modelled. It throws away the first line of the port (238), then reads lines until one is non-blank and throws that one away too (241-242). It then calls `process_data` (251), whose loop never returns, so `process_data` starts on the line after the first non-blank one. `ExperimentState.Run` and `ExpState.ProcessData` therefore take as input the lines from that point on, not the whole output of the port.
- `init_storage` (253-267) and the argument parsing (279-312) are not modelled. The output directory is a parameter.
- The `writeData` dispatch (181-206) is not modelled, and neither reader is reachable in this program. Nothing calls `writeData`: `main` (274) calls `write_data`, which calls `process_data`. `writeData` itself would print one line and throw it away (186). It would then read until a non-blank line and throw that away too (187-191), and return at a line equal to `>` (200-201). It looks up every `#`-prefixed line, line ending included, in `operationMap` (202-204). That map is keyed only by `@` and `$` (85-86, 182-184), so every lookup raises `KeyError` before a reader runs. `writeTrialData` and `writeProfilingData` are therefore modelled on their own, from a cursor, as what they evidently intend.
- The markers are compared by string equality on lines without their terminator. As written, the source compares the raw `readline()` output, which keeps its line ending, with `"["`, and tests `]` with `is`. Both only work if the port yields bare one-character strings.
- FramedBlocks.TrialText: it models what `writeTrialData` evidently intends to write: each `writeline(x)` as `x` plus a newline, and the final join over the `ts,v` rows. As written, the source calls the nonexistent `f.writeline` and joins the sample tuples themselves, so it raises before writing anything useful.
- `trialsDict` has `defaultdict(list)` semantics: a key appears when a sample is appended or when its file is written. The default argument `{}` in the signature would raise `KeyError` on a new trial.
- FramedBlocks.Recorder.WriteProfilingData: the order of `profilingDict.items()` is not modelled. The method returns the key order it used, and the contract only requires it to list every key exactly once.
- The floating-point statistics of the threshold script (`python/thresholding_eyeblink_data.py:45-54`: means, standard deviations, `crr`, `weight`, `blink`) are not modelled. Neither are its pylab plots. The windows they are computed from are modelled.
- TrialStatus.Process: the `result_` dictionary is returned as the list of row summaries instead of being appended to a global. An error ends the loop with the rows done so far, where the script would stop with a traceback.
- `plot_data`, `plot_dir`, `np.genfromtxt` loading and the `os.walk` scan of `python/plot_trial_data.py` are not modelled. They are I/O and pylab plotting around `partition_data`.
- Samples are modelled as exact reals, so the comparison of a time with 11 is exact.
- The video scripts (`python/process_video_for_eye_blink.py`, `python/video_processing/process_video_for_eye_blink.py`) are not part of this model. Neither is the firmware header `eye_Blink_Conditioning/Globals.h`.
- `sessionNo` and `trialNo` of `ExpState` are never used by the core and are not modelled.
