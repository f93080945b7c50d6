# Pitch engine of the vocal-range test

Two React components, `src/PitchTest.jsx` (recorder reference tone) and
`src/PitchTestpiano.jsx` (piano reference tone), play the natural notes from
C3 to C5 one after another. For each note they wait for the singer's voice,
estimate the sung pitch block by block, and grade the note as "Strong OK",
"Weak OK" or "Fail". Both files embed the same engine. In the engine and its
loops only four things differ between them: the onset threshold (0.01 or
0.015), the onset deadline (3.0 s or 4.0 s), the length of the reference tone
(1.0 s or 2.0 s) and the waits. Outside the engine the reference tone sounds
different (one sine at gain 0.2, or a sine and a triangle mixed at 0.6 under
an attack and decay envelope) and `drawCanvas` uses other colours and fonts.

`pitch_engine.dfy` models that engine as one module, `PitchEngine`:

- **Note table.** `midiToNoteName` is `MidiToNoteName`. `generateNoteList` is
  the loop in `GenerateNoteList`, specified by the function `NoteTable`.
  `NoteTable` keeps the natural notes of `FilteredNotes`, which builds the
  ascending list of entries for the MIDI numbers a filter admits.
- **Cents.** `freqToCents` is `FreqToCents`. Its +Infinity sentinel is made
  explicit in `ExtReal`.
- **Estimator.** `autocorrelate` is the method `Autocorrelate`. Its steps are
  methods of their own: the array filling, the skip loop, the first-maximum
  search and the refinement. Each is proved against a function: `Autocorrelation`,
  `DescentEnd`, `FirstArgMax` and `RefinedFrequency`. `EstimatePitch` is the
  whole estimator as a function. The estimator returns the block's energy (the
  sum of squared samples), not its rms. The gates compare squares, and
  `SquaredGatesMatchRms` proves them equivalent to the source's `rms`
  comparisons.
- **Grader.** The tail of `runNoteTest` is `ScoreFrames` and `GradeOf`.
- **Sequence.** `runNoteTest` is `RunNoteTest`. `startSequence` is
  `StartSequence`, with its loop in `RunEachNote`. Time is abstracted:
  - A `Capture` holds the sample blocks one note's test reads. These are the
    blocks polled before the onset deadline, then the blocks read during the
    measurement window.
  - A session maps the i-th note to its capture.

`midiToFreq` (`Math.pow`) and `Math.log2` are parameters of the model: every
property holds for any functions supplied for them, except two about cents.
`InTuneIsZeroCents` needs `log2(1) = 0` and `OctaveIs1200Cents` needs
`log2(2) = 1`, as `Math.log2` gives. The sample rate must be positive, as an
audio context's rate is.

## Model

The rows cite the recorder variant. The piano variant has the same code at
these lines of `src/PitchTestpiano.jsx`:
- `freqToCents` at 20-23, `midiToNoteName` at 24-27 and `generateNoteList` at 29-39.
- `autocorrelate` at 42-77: the gate at 44-47, `r` at 49-54, the skip at 56-57,
  the maximum search at 58-66 and the refinement at 68-76.
- `runNoteTest` at 155-207: the onset loop at 170-178, the measurement at
  180-196 and the grade at 198-206.
- `startSequence` at 209-221.

| member | source | states |
|---|---|---|
| PitchEngine.Abs | src/PitchTest.jsx:177 | `Math.abs` keeps +Infinity and otherwise gives the non-negative magnitude of its argument |
| PitchEngine.NatToString | src/PitchTest.jsx:28 | the decimal form of a natural number is a non-empty string of digits, one digit below 10 |
| PitchEngine.IntToString | src/PitchTest.jsx:28 | the octave number as written contains no '#', and for non-negative numbers it is the plain digits |
| PitchEngine.MidiToNoteName | src/PitchTest.jsx:26-29 | no contract of its own: the name of pitch class `m % 12` followed by the octave `m / 12 - 1`; `SharpMarksAccidental`, `NaturalNamesDistinct` and `EndpointNames` state its properties |
| PitchEngine.IsNatural | src/PitchTest.jsx:37 | no contract of its own: the pitch classes whose name has no '#'; `SharpMarksAccidental` proves it is exactly `!name.includes("#")` |
| PitchEngine.SharpMarksAccidental | src/PitchTest.jsx:26-29 | a note name contains '#' exactly when its pitch class is one of 1, 3, 6, 8, 10 (the accidentals) |
| PitchEngine.NaturalNamesDistinct | src/PitchTest.jsx:26-29 | between MIDI 12 and 131, two natural notes with the same name are the same note |
| PitchEngine.FilteredNotes | src/PitchTest.jsx:32-42 | no contract of its own: the upward walk over `lo..hi` that appends the entry of each admitted MIDI number; `FilteredNotesEntries`, `FilteredNotesRange`, `FilteredNotesAscending` and `FilteredNotesComplete` state its properties |
| PitchEngine.NoteTable | src/PitchTest.jsx:32-42 | no contract of its own: `FilteredNotes` admitting the natural notes; `NoteTableEnds`, `NoteTableNamesDistinct`, `TestedNoteTable` and `GenerateNoteList` state its properties |
| PitchEngine.FilteredNotesEntries | src/PitchTest.jsx:32-42 | every entry of the list is an admitted MIDI number in range, named by `midiToNoteName` and tuned by `midiToFreq` |
| PitchEngine.FilteredNotesRange | src/PitchTest.jsx:33-35 | every MIDI number in the list lies in the walked range |
| PitchEngine.FilteredNotesAscending | src/PitchTest.jsx:34-40 | the list is strictly ascending by MIDI number |
| PitchEngine.FilteredNotesComplete | src/PitchTest.jsx:34-40 | every admitted MIDI number of the range has its entry in the list, so the list holds exactly the admitted notes |
| PitchEngine.TestedTableLength | src/PitchTest.jsx:33 | the natural notes from MIDI 48 to 72 are fifteen |
| PitchEngine.EndpointNames | src/PitchTest.jsx:33 | MIDI 48 is named "C3" and MIDI 72 "C5" |
| PitchEngine.NoteTableEnds | src/PitchTest.jsx:34-40 | a table whose end points are natural starts with the entry of its lowest and ends with that of its highest MIDI number |
| PitchEngine.NoteTableNamesDistinct | src/PitchTest.jsx:32-42 | no two entries of a table within MIDI 12..131 share a name |
| PitchEngine.TestedNoteTable | src/PitchTest.jsx:43 | `NOTES_TO_TEST` has 15 entries, first C3 (MIDI 48), last C5 (MIDI 72), with pairwise distinct names |
| PitchEngine.GenerateNoteList | src/PitchTest.jsx:32-42 | the loop that keeps names without '#' builds exactly the table of natural notes 48..72: 15 entries, strictly ascending |
| PitchEngine.FreqToCents | src/PitchTest.jsx:22-25 | the result is finite exactly when both frequencies are positive and the measured one is finite, and is then 1200·log2 of their ratio; otherwise it is the +Infinity sentinel |
| PitchEngine.InTuneIsZeroCents | src/PitchTest.jsx:22-25 | for a `log2` with `log2(1) = 0`, a measured frequency equal to the target deviates by 0 cents |
| PitchEngine.OctaveIs1200Cents | src/PitchTest.jsx:22-25 | for a `log2` with `log2(2) = 1`, a measured frequency one octave above the target deviates by 1200 cents |
| PitchEngine.SumSquares | src/PitchTest.jsx:48-49 | no contract of its own: the sum of squared samples; `SquaresNonNegative` and `SquaredGatesMatchRms` state its properties |
| PitchEngine.LaggedSum | src/PitchTest.jsx:55-56 | no contract of its own: the inner loop's sum of `buffer[i]·buffer[i+lag]`; `ZeroBlockSums` and `FillAutocorrelation` state its properties |
| PitchEngine.Autocorrelation | src/PitchTest.jsx:53-58 | no contract of its own: the array `r`, entry `lag` being `LaggedSum` over the overlap; `FillAutocorrelation` is proved to build it |
| PitchEngine.EstimatePitch | src/PitchTest.jsx:46-81 | no contract of its own: `autocorrelate` as a function, the silence gate and then `PitchFromAutocorrelation` of `r`; `SilenceGate`, `SilentBlockHasNoPitch`, `ConstantBlockPitch` and `Autocorrelate` state its properties |
| PitchEngine.PitchFromAutocorrelation | src/PitchTest.jsx:60-80 | no contract of its own: the skip, the first-maximum search, the `maxVal <= 0` gate and the refinement; `PeakDecidesPitch` and `InteriorPeakPitch` state its properties |
| PitchEngine.SilenceGate | src/PitchTest.jsx:48-51 | every return path reports the block's energy, and a block below the silence floor has no pitch (-1) |
| PitchEngine.SquaredGatesMatchRms | src/PitchTest.jsx:50-51 | the squared silence gate decides exactly as `rms < 0.001`, and the squared onset test of the onset loop (lines 163-164) exactly as `rms > threshold` |
| PitchEngine.SquaresNonNegative | src/PitchTest.jsx:49 | the accumulated sum of squares is never negative |
| PitchEngine.ZeroBlockSums | src/PitchTest.jsx:53-58 | every lagged sum of an all-zero block is 0 |
| PitchEngine.SilentBlockHasNoPitch | src/PitchTest.jsx:46-81 | an all-zero block of any length gets no pitch |
| PitchEngine.FillAutocorrelation | src/PitchTest.jsx:53-58 | the nested loops fill a fresh array of length SIZE whose entry `lag` is the sum of `buffer[i]·buffer[i+lag]` over the overlap |
| PitchEngine.DescentEnd | src/PitchTest.jsx:60-61 | the skip loop stops inside the array when it is non-empty: the comparison with the missing `r[SIZE]` is false |
| PitchEngine.DescentEndFrom | src/PitchTest.jsx:60-61 | from any start, the loop passes only indices where `r` strictly descends and stops where the descent ends |
| PitchEngine.DescentEndSpec | src/PitchTest.jsx:60-61 | after the skip, `r[k] > r[k+1]` for all k < d; d ≤ SIZE-1 when SIZE > 0, d = 0 when SIZE = 0; and r no longer descends at d |
| PitchEngine.SkipDescent | src/PitchTest.jsx:60-61 | the while loop stops exactly where `DescentEnd` says |
| PitchEngine.FirstArgMax | src/PitchTest.jsx:62-69 | the result is an index of the range holding its maximum, and every earlier index of the range holds a strictly smaller value |
| PitchEngine.FirstMaximum | src/PitchTest.jsx:62-69 | the search loop finds no index on an empty range (`maxPos = -1`); otherwise it finds the first maximum, with its value |
| PitchEngine.PeakDecidesPitch | src/PitchTest.jsx:60-70 | with no positive entry at or after the skip there is no pitch; otherwise the pitch is the refinement of the first maximum there, which is positive |
| PitchEngine.InteriorPeakPitch | src/PitchTest.jsx:60-79 | when the first maximum after the skip is positive and lies past the skip point and before the last lag, the reported frequency is finite and between `sampleRate/(p+1/2)` and `sampleRate/(p-1/2)` |
| PitchEngine.ConstantBlockPitch | src/PitchTest.jsx:46-81 | a constant block [1, 1, 1] at sample rate 3 is not rejected: the skip runs to the last lag and the estimator reports 1.5, that is `sampleRate/(SIZE-1)`, not -1 |
| PitchEngine.At | src/PitchTest.jsx:72-74 | no contract of its own: `r[i] ?? 0`, the entry when the index is inside `r` and 0 otherwise; `Refine`, which reads the neighbours from the array, is proved equal to `RefinedFrequency` built on it |
| PitchEngine.ParabolicShift | src/PitchTest.jsx:75-77 | no contract of its own: `(left - right) / (2·denom)`, 0 when `denom` is 0; `ShiftIsParabolaVertex` and `ShiftWithinHalf` state its properties |
| PitchEngine.RefinedFrequency | src/PitchTest.jsx:72-79 | no contract of its own: `sampleRate / (maxPos + shift)`, +Infinity for a zero lag; `RefinedNearPeak` and `Refine` state its properties |
| PitchEngine.ShiftIsParabolaVertex | src/PitchTest.jsx:72-77 | the shift is the vertex of the parabola through the peak and its two neighbours, and 0 when the three points are collinear |
| PitchEngine.ShiftWithinHalf | src/PitchTest.jsx:72-77 | at a peak no lower than its neighbours the shift lies in [-1/2, 1/2] |
| PitchEngine.RefinedNearPeak | src/PitchTest.jsx:72-79 | at an interior peak the refined frequency is finite and lies between `sampleRate/(p+1/2)` and `sampleRate/(p-1/2)` |
| PitchEngine.Refine | src/PitchTest.jsx:72-80 | the refinement reads missing neighbours as 0, uses shift 0 on a zero denominator, and returns `sampleRate/(maxPos+shift)`, +Infinity for a zero lag |
| PitchEngine.Autocorrelate | src/PitchTest.jsx:46-81 | the method computes exactly `EstimatePitch` of the block and reports its energy on every path |
| PitchEngine.CountWithin | src/PitchTest.jsx:188-189 | the number of frames within a limit is at most the number of frames |
| PitchEngine.CountWithinMonotone | src/PitchTest.jsx:188-189 | a looser limit admits at least as many frames, so the weak count is at least the strong count |
| PitchEngine.GradeOf | src/PitchTest.jsx:191-193 | "Strong OK" iff strong ≥ strongPercent whatever weak is; "Weak OK" iff strong < strongPercent and weak ≥ weakPercent; "Fail" iff both fall short |
| PitchEngine.ScoreFrames | src/PitchTest.jsx:187-193 | both shares lie in [0, 1]; weak ≥ strong when strongCents ≤ weakCents; no frames give 0 and 0 and, with positive percentages, "Fail"; the grade follows `GradeOf` |
| PitchEngine.ScoreExample | src/PitchTest.jsx:5-13 | with the defaults, deviations 10, 15, 20, 10, 200 cents score 0.8 and 0.8 and grade "Strong OK" |
| PitchEngine.DefaultsValid | src/PitchTest.jsx:5-13 | the recorder defaults and the piano defaults (src/PitchTestpiano.jsx:4-12) both satisfy `ValidConfig`: a non-negative onset threshold, strong limit below weak limit, percentages in (0, 1] |
| PitchEngine.Loud | src/PitchTest.jsx:163-164 | no contract of its own: the squared onset test of one block; `SquaredGatesMatchRms` proves it decides as `rms > threshold` |
| PitchEngine.OnsetDetected | src/PitchTest.jsx:158-166 | no contract of its own: some polled block is `Loud`; the onset poll of `RunNoteTest` is proved to decide exactly this, since its result equals `NoteOutcome` |
| PitchEngine.CollectFrames | src/PitchTest.jsx:172-183 | no contract of its own: one frame `Math.abs(freqToCents(target, freq))` per block whose estimate is positive, in block order; `FramesAreDeviations` and `SilentWindowHasNoFrames` state its properties |
| PitchEngine.MeasuredFrames | src/PitchTest.jsx:158-184 | no contract of its own: the frames of the measurement window when an onset was detected and none otherwise; `NoteOutcomeSpec` and `RunNoteTest` state its properties |
| PitchEngine.NoteOutcome | src/PitchTest.jsx:144-196 | no contract of its own: `runNoteTest` as a function of the note and its capture, the measured frames scored by `ScoreFrames`; `NoteOutcomeSpec`, `RunNoteTest` and `RunEachNote` state its properties |
| PitchEngine.FramesAreDeviations | src/PitchTest.jsx:174-180 | the measurement loop adds at most one frame per block, and every frame is a non-negative deviation or +Infinity |
| PitchEngine.SilentWindowHasNoFrames | src/PitchTest.jsx:168-184 | a measurement window of all-zero blocks collects no frames |
| PitchEngine.NoteOutcomeSpec | src/PitchTest.jsx:144-196 | for a config meeting `ValidConfig` (both defaults do, `DefaultsValid`), a note's result names the note and keeps its frequency; its shares lie in [0, 1] with weak ≥ strong; without onset both shares are 0 and the grade is "Fail" |
| PitchEngine.RunNoteTest | src/PitchTest.jsx:158-195 | onset is `OnsetDetected` (some polled block is `Loud`, the squared form of `rms > threshold` for a non-negative threshold); frames come only after an onset and only from positive estimates; the result is `NoteOutcome` and copies the note's name and frequency |
| PitchEngine.RunEachNote | src/PitchTest.jsx:202-207 | one result per note, in order: result i is the outcome of note i, with its name and frequency |
| PitchEngine.StartSequence | src/PitchTest.jsx:198-210 | the sequence yields exactly 15 results, result i the outcome of the i-th table note, named and tuned from that note's MIDI number |

## Left out

- Rendering: the React components, the result tables, the colour blocks and
  `drawCanvas`. These are presentation only.
- Web Audio and the microphone: `initAudio`, `playTone`, `stopAll`,
  `getUserMedia`, the oscillators and the gain envelopes. The failure path
  of `initAudio` is left out too. These are browser APIs; the analyser's
  output is the `Capture` each note receives.
- Time: the `setTimeout` waits (1000, 1200/2300, 100, 60 and 800 ms), the
  onset deadlines (3.0 s and 4.0 s) and the 3.0 s measurement window. The
  number of polls and measurement reads is fixed by the `Capture` instead.
  The measurement window's blocks do not depend on when the onset was
  detected, so the block at which polling stops is not observable in the
  model.
- The React state `status`, `currentNote`, `pitchHistory` and `results`:
  interface state set across awaits.
- `midiToFreq`, `freqToMidi`, and the numeric values of `Math.pow`,
  `Math.log2` and `Math.sqrt`. The first and `Math.log2` are parameters;
  `freqToMidi` is never called by the engine; `Math.sqrt` is avoided by
  comparing squares.
- Floating point: sums, ratios and quotients are exact reals. No rounding
  is modelled.
- PitchEngine.Autocorrelate: the rms of an empty block is NaN in the source
  and is not modelled as a value. Only the energy is returned, and both
  gates compare it squared. On an empty block the squared gates give the
  same "false" as the source's comparisons with NaN.
- PitchEngine.FreqToCents: a NaN argument is not modelled. The engine only
  passes positive targets and the estimator's numbers, which are finite or
  +Infinity.
