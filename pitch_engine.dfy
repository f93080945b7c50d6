/**
 * The sung-pitch judging engine shared by the two vocal-range test
 * components (the recorder-tone and the piano-tone variant): the table of
 * natural notes from C3 to C5, the autocorrelation pitch estimator, the
 * per-note grader, and the loops that measure one note and run the whole
 * sequence.
 *
 * Numbers: the engine works on JavaScript numbers. Samples, sums and
 * ratios are modelled as `real`; the only non-finite frequency the engine
 * can produce on these paths, +Infinity, is made explicit in `ExtReal`.
 * `Math.pow` and `Math.log2` are not modelled: the caller supplies them as
 * the function parameters `midiToFreq` and `log2`. `Math.sqrt` is avoided by
 * comparing squares (see `Loud` and the silence gate of `EstimatePitch`).
 */
module PitchEngine {

  // ===================================================================
  // Numbers and configuration
  // ===================================================================

  /** A JavaScript number as far as this engine needs one: finite, or +Infinity. */
  datatype ExtReal = Fin(val: real) | PosInf

  /** `x > 0` on a JavaScript number. */
  predicate IsPositive(x: ExtReal)
  {
    x.PosInf? || x.val > 0.0
  }

  /** `x <= bound` on a JavaScript number (false for +Infinity). */
  predicate AtMost(x: ExtReal, bound: real)
  {
    x.Fin? && x.val <= bound
  }

  /** `Math.abs`. */
  function Abs(x: ExtReal): (a: ExtReal)
    ensures a.PosInf? <==> x.PosInf?
    ensures a.Fin? ==> 0.0 <= a.val && (a.val == x.val || a.val == -x.val)
  {
    match x
    case PosInf => PosInf
    case Fin(v) => Fin(if v < 0.0 then -v else v)
  }

  /** The tunable constants of the engine (the source's `DEFAULTS` record). */
  datatype Config = Config(
    onsetRmsThreshold: real,  // RMS a block must exceed to count as voice onset
    strongCents: real,        // a frame within this many cents is "strong"
    weakCents: real,          // a frame within this many cents is "weak"
    strongPercent: real,      // share of strong frames needed for "Strong OK"
    weakPercent: real)        // share of weak frames needed for "Weak OK"

  /** `DEFAULTS` of the recorder-tone component. */
  const RECORDER_DEFAULTS := Config(0.01, 30.0, 75.0, 0.6, 0.4)

  /** `DEFAULTS` of the piano-tone component: only the onset threshold differs. */
  const PIANO_DEFAULTS := Config(0.015, 30.0, 75.0, 0.6, 0.4)

  /** What the defaults of both components satisfy. */
  predicate ValidConfig(c: Config)
  {
    0.0 <= c.onsetRmsThreshold &&
    0.0 <= c.strongCents < c.weakCents &&
    0.0 < c.strongPercent <= 1.0 &&
    0.0 < c.weakPercent <= 1.0
  }

  /** Both components' defaults satisfy `ValidConfig`. */
  lemma DefaultsValid()
    ensures ValidConfig(RECORDER_DEFAULTS) && ValidConfig(PIANO_DEFAULTS)
  {
  }

  // ===================================================================
  // Note table
  // ===================================================================

  const NOTE_NAMES: seq<string> := ["C", "C#", "D", "D#", "E", "F", "F#", "G", "G#", "A", "A#", "B"]

  /** The tested range, C3 to C5 inclusive. */
  const LOWEST_MIDI: nat := 48
  const HIGHEST_MIDI: nat := 72

  /** The decimal digits of `n`, as JavaScript writes them for the small numbers the engine prints. */
  function NatToString(n: nat): (s: string)
    ensures 1 <= |s|
    ensures forall i :: 0 <= i < |s| ==> '0' <= s[i] <= '9'
    ensures n < 10 ==> s == [(48 + n) as char]
  {
    if n < 10 then [(48 + n) as char]
    else NatToString(n / 10) + [(48 + n % 10) as char]
  }

  /** An integer as JavaScript writes it: a minus sign, then the digits. */
  function IntToString(n: int): (s: string)
    ensures '#' !in s
    ensures 0 <= n ==> s == NatToString(n)
  {
    if n < 0 then "-" + NatToString(-n) else NatToString(n)
  }

  /**
   * `midiToNoteName`: the pitch-class name followed by the octave
   * `floor(m / 12 - 1)`. The source only calls it with non-negative numbers
   * (for negative ones `names[m % 12]` would be undefined).
   */
  function MidiToNoteName(m: nat): string
  {
    NOTE_NAMES[m % 12] + IntToString(m / 12 - 1)
  }

  /** A white key: a pitch class other than C#, D#, F#, G#, A#. */
  predicate IsNatural(m: nat)
  {
    m % 12 != 1 && m % 12 != 3 && m % 12 != 6 && m % 12 != 8 && m % 12 != 10
  }

  /** The source's test `name.includes("#")` picks out exactly the accidentals. */
  lemma SharpMarksAccidental(m: nat)
    ensures '#' in MidiToNoteName(m) <==> !IsNatural(m)
  {
    var k := m % 12;
    var octave := IntToString(m / 12 - 1);
    assert MidiToNoteName(m) == NOTE_NAMES[k] + octave;
    assert '#' in NOTE_NAMES[k] <==> !IsNatural(m) by {
      if k == 0 { assert NOTE_NAMES[k] == "C"; }
      else if k == 1 { assert NOTE_NAMES[k] == "C#"; }
      else if k == 2 { assert NOTE_NAMES[k] == "D"; }
      else if k == 3 { assert NOTE_NAMES[k] == "D#"; }
      else if k == 4 { assert NOTE_NAMES[k] == "E"; }
      else if k == 5 { assert NOTE_NAMES[k] == "F"; }
      else if k == 6 { assert NOTE_NAMES[k] == "F#"; }
      else if k == 7 { assert NOTE_NAMES[k] == "G"; }
      else if k == 8 { assert NOTE_NAMES[k] == "G#"; }
      else if k == 9 { assert NOTE_NAMES[k] == "A"; }
      else if k == 10 { assert NOTE_NAMES[k] == "A#"; }
      else { assert NOTE_NAMES[k] == "B"; }
    }
    assert '#' !in octave;
  }

  /**
   * Between octaves 0 and 9 the name of a natural note is one letter and one
   * digit, and no two natural notes share a name. Results carry only the
   * note's name, so this is what lets a name identify a result.
   */
  lemma NaturalNamesDistinct(m1: nat, m2: nat)
    requires 12 <= m1 < 132 && 12 <= m2 < 132
    requires IsNatural(m1) && IsNatural(m2)
    requires MidiToNoteName(m1) == MidiToNoteName(m2)
    ensures m1 == m2
  {
    var k1, k2 := m1 % 12, m2 % 12;
    var o1, o2 := m1 / 12 - 1, m2 / 12 - 1;
    assert |NOTE_NAMES[k1]| == 1 && |NOTE_NAMES[k2]| == 1;
    var n1, n2 := MidiToNoteName(m1), MidiToNoteName(m2);
    assert n1 == NOTE_NAMES[k1] + [(48 + o1) as char];
    assert n2 == NOTE_NAMES[k2] + [(48 + o2) as char];
    assert n1[1] == n2[1];
    assert o1 == o2;
    assert NOTE_NAMES[k1][0] == n1[0] == n2[0] == NOTE_NAMES[k2][0];
    assert k1 == k2;
  }

  /** One entry of the note table (`{ note, midi, freq }`). */
  datatype Note = Note(name: string, midi: nat, freq: real)

  /** The entry for MIDI number `m`: its name and its equal-tempered frequency. */
  function NoteOf(m: nat, midiToFreq: int -> real): Note
  {
    Note(MidiToNoteName(m), m, midiToFreq(m))
  }

  /**
   * The entries for the MIDI numbers `lo..hi` that `keep` admits, in
   * ascending order. The lemmas below hold for any `keep`; the note table
   * keeps the natural notes.
   */
  function FilteredNotes(keep: nat -> bool, lo: nat, hi: int, midiToFreq: int -> real): seq<Note>
    decreases hi - lo
  {
    if hi < lo then []
    else FilteredNotes(keep, lo, hi - 1, midiToFreq) + (if keep(hi) then [NoteOf(hi, midiToFreq)] else [])
  }

  /** The natural notes with MIDI numbers `lo..hi`, in ascending order. */
  function NoteTable(lo: nat, hi: int, midiToFreq: int -> real): seq<Note>
  {
    FilteredNotes(IsNatural, lo, hi, midiToFreq)
  }

  /** Every entry is an admitted MIDI number of the range, named and tuned from that number. */
  lemma {:induction false} FilteredNotesEntries(keep: nat -> bool, lo: nat, hi: int, midiToFreq: int -> real)
    ensures forall n :: n in FilteredNotes(keep, lo, hi, midiToFreq) ==>
      lo <= n.midi <= hi && keep(n.midi) && n == NoteOf(n.midi, midiToFreq)
    decreases hi - lo
  {
    if lo <= hi {
      FilteredNotesEntries(keep, lo, hi - 1, midiToFreq);
    }
  }

  /** Every MIDI number in the table lies in `lo..hi`. */
  lemma {:induction false} FilteredNotesRange(keep: nat -> bool, lo: nat, hi: int, midiToFreq: int -> real)
    ensures forall i :: 0 <= i < |FilteredNotes(keep, lo, hi, midiToFreq)| ==>
      lo <= FilteredNotes(keep, lo, hi, midiToFreq)[i].midi <= hi
    decreases hi - lo
  {
    if lo <= hi {
      var prefix := FilteredNotes(keep, lo, hi - 1, midiToFreq);
      FilteredNotesRange(keep, lo, hi - 1, midiToFreq);
      var last := if keep(hi) then [NoteOf(hi, midiToFreq)] else [];
      var t := prefix + last;
      assert FilteredNotes(keep, lo, hi, midiToFreq) == t;
      forall i | 0 <= i < |t|
        ensures lo <= t[i].midi <= hi
      {
        if i < |prefix| {
          assert t[i] == prefix[i];
        } else {
          assert t[i] == last[0] == NoteOf(hi, midiToFreq);
        }
      }
    }
  }

  /** Appending a note above every note of an ascending list keeps it ascending. */
  lemma AppendKeepsAscending(notes: seq<Note>, n: Note)
    requires forall i, j :: 0 <= i < j < |notes| ==> notes[i].midi < notes[j].midi
    requires forall i :: 0 <= i < |notes| ==> notes[i].midi < n.midi
    ensures var t := notes + [n];
      forall i, j :: 0 <= i < j < |t| ==> t[i].midi < t[j].midi
  {
    var t := notes + [n];
    forall i, j | 0 <= i < j < |t|
      ensures t[i].midi < t[j].midi
    {
      assert t[i] == notes[i];
      if j < |notes| {
        assert t[j] == notes[j];
      }
    }
  }

  /** The table is strictly ascending by MIDI number. */
  lemma {:induction false} FilteredNotesAscending(keep: nat -> bool, lo: nat, hi: int, midiToFreq: int -> real)
    ensures forall i, j :: 0 <= i < j < |FilteredNotes(keep, lo, hi, midiToFreq)| ==>
      FilteredNotes(keep, lo, hi, midiToFreq)[i].midi < FilteredNotes(keep, lo, hi, midiToFreq)[j].midi
    decreases hi - lo
  {
    if lo <= hi {
      var prefix := FilteredNotes(keep, lo, hi - 1, midiToFreq);
      FilteredNotesAscending(keep, lo, hi - 1, midiToFreq);
      if keep(hi) {
        FilteredNotesRange(keep, lo, hi - 1, midiToFreq);
        AppendKeepsAscending(prefix, NoteOf(hi, midiToFreq));
        assert FilteredNotes(keep, lo, hi, midiToFreq) == prefix + [NoteOf(hi, midiToFreq)];
      } else {
        assert FilteredNotes(keep, lo, hi, midiToFreq) == prefix;
      }
    }
  }

  /** Every admitted MIDI number of the range has its entry in the table. */
  lemma {:induction false} FilteredNotesComplete(keep: nat -> bool, lo: nat, hi: int, midiToFreq: int -> real, m: nat)
    requires lo <= m <= hi && keep(m)
    ensures NoteOf(m, midiToFreq) in FilteredNotes(keep, lo, hi, midiToFreq)
    decreases hi - lo
  {
    if m < hi {
      FilteredNotesComplete(keep, lo, hi - 1, midiToFreq, m);
    }
  }

  /** The tested table holds fifteen notes. */
  lemma TestedTableLength(midiToFreq: int -> real)
    ensures |NoteTable(LOWEST_MIDI, HIGHEST_MIDI, midiToFreq)| == 15
  {
    var f := midiToFreq;
    assert NoteTable(48, 47, f) == [];
    assert |NoteTable(48, 48, f)| == 1; assert |NoteTable(48, 49, f)| == 1; assert |NoteTable(48, 50, f)| == 2;
    assert |NoteTable(48, 51, f)| == 2; assert |NoteTable(48, 52, f)| == 3; assert |NoteTable(48, 53, f)| == 4;
    assert |NoteTable(48, 54, f)| == 4; assert |NoteTable(48, 55, f)| == 5; assert |NoteTable(48, 56, f)| == 5;
    assert |NoteTable(48, 57, f)| == 6; assert |NoteTable(48, 58, f)| == 6; assert |NoteTable(48, 59, f)| == 7;
    assert |NoteTable(48, 60, f)| == 8; assert |NoteTable(48, 61, f)| == 8; assert |NoteTable(48, 62, f)| == 9;
    assert |NoteTable(48, 63, f)| == 9; assert |NoteTable(48, 64, f)| == 10; assert |NoteTable(48, 65, f)| == 11;
    assert |NoteTable(48, 66, f)| == 11; assert |NoteTable(48, 67, f)| == 12; assert |NoteTable(48, 68, f)| == 12;
    assert |NoteTable(48, 69, f)| == 13; assert |NoteTable(48, 70, f)| == 13; assert |NoteTable(48, 71, f)| == 14;
    assert |NoteTable(48, 72, f)| == 15;
  }

  /** The names of the range's end points. */
  lemma EndpointNames()
    ensures MidiToNoteName(LOWEST_MIDI) == "C3" && MidiToNoteName(HIGHEST_MIDI) == "C5"
  {
    assert IntToString(48 / 12 - 1) == ['3'];
    assert IntToString(72 / 12 - 1) == ['5'];
    assert NOTE_NAMES[48 % 12] == NOTE_NAMES[72 % 12] == "C";
  }

  /** No two notes of a table within MIDI 12..131 share a name. */
  lemma NoteTableNamesDistinct(lo: nat, hi: int, midiToFreq: int -> real)
    requires 12 <= lo && hi < 132
    ensures forall i, j :: 0 <= i < j < |NoteTable(lo, hi, midiToFreq)| ==>
      NoteTable(lo, hi, midiToFreq)[i].name != NoteTable(lo, hi, midiToFreq)[j].name
  {
    var t := NoteTable(lo, hi, midiToFreq);
    FilteredNotesEntries(IsNatural, lo, hi, midiToFreq);
    FilteredNotesAscending(IsNatural, lo, hi, midiToFreq);
    forall i, j | 0 <= i < j < |t|
      ensures t[i].name != t[j].name
    {
      assert t[i] in t && t[j] in t;
      if t[i].name == t[j].name {
        NaturalNamesDistinct(t[i].midi, t[j].midi);
      }
    }
  }

  /** A table whose end points are natural notes starts at `lo` and ends at `hi`. */
  lemma NoteTableEnds(lo: nat, hi: int, midiToFreq: int -> real)
    requires lo <= hi && IsNatural(lo) && IsNatural(hi)
    ensures var t := NoteTable(lo, hi, midiToFreq);
      0 < |t| && t[0] == NoteOf(lo, midiToFreq) && t[|t| - 1] == NoteOf(hi, midiToFreq)
  {
    var t := FilteredNotes(IsNatural, lo, hi, midiToFreq);
    assert t == FilteredNotes(IsNatural, lo, hi - 1, midiToFreq) + [NoteOf(hi, midiToFreq)];
    FilteredNotesRange(IsNatural, lo, hi, midiToFreq);
    FilteredNotesAscending(IsNatural, lo, hi, midiToFreq);
    FilteredNotesComplete(IsNatural, lo, hi, midiToFreq, lo);
    var i :| 0 <= i < |t| && t[i] == NoteOf(lo, midiToFreq);
    assert t[i].midi == lo <= t[0].midi;
    assert i == 0;
  }

  /** The tested table runs from C3 (MIDI 48) to C5 (MIDI 72), and no two of its notes share a name. */
  lemma TestedNoteTable(midiToFreq: int -> real)
    ensures |NoteTable(LOWEST_MIDI, HIGHEST_MIDI, midiToFreq)| == 15
    ensures NoteTable(LOWEST_MIDI, HIGHEST_MIDI, midiToFreq)[0] == Note("C3", 48, midiToFreq(48))
    ensures NoteTable(LOWEST_MIDI, HIGHEST_MIDI, midiToFreq)[14] == Note("C5", 72, midiToFreq(72))
    ensures forall i, j :: 0 <= i < j < |NoteTable(LOWEST_MIDI, HIGHEST_MIDI, midiToFreq)| ==>
      NoteTable(LOWEST_MIDI, HIGHEST_MIDI, midiToFreq)[i].name != NoteTable(LOWEST_MIDI, HIGHEST_MIDI, midiToFreq)[j].name
  {
    TestedTableLength(midiToFreq);
    NoteTableEnds(LOWEST_MIDI, HIGHEST_MIDI, midiToFreq);
    EndpointNames();
    NoteTableNamesDistinct(LOWEST_MIDI, HIGHEST_MIDI, midiToFreq);
  }

  /**
   * `generateNoteList`: walk the MIDI numbers of the tested range upwards and
   * push every note whose name has no '#'.
   */
  method GenerateNoteList(midiToFreq: int -> real) returns (list: seq<Note>)
    ensures list == NoteTable(LOWEST_MIDI, HIGHEST_MIDI, midiToFreq)
    ensures |list| == 15
    ensures forall i, j :: 0 <= i < j < |list| ==> list[i].midi < list[j].midi
  {
    list := [];
    var m := LOWEST_MIDI;
    while m <= HIGHEST_MIDI
      invariant LOWEST_MIDI <= m <= HIGHEST_MIDI + 1
      invariant list == NoteTable(LOWEST_MIDI, m - 1, midiToFreq)
    {
      var name := MidiToNoteName(m);
      SharpMarksAccidental(m);
      if '#' !in name {
        list := list + [Note(name, m, midiToFreq(m))];
      }
      m := m + 1;
    }
    TestedTableLength(midiToFreq);
    FilteredNotesAscending(IsNatural, LOWEST_MIDI, HIGHEST_MIDI, midiToFreq);
  }

  // ===================================================================
  // Cents
  // ===================================================================

  /**
   * `freqToCents`: the deviation of a measured frequency from a target, in
   * cents; +Infinity ("not comparable") when either frequency is not positive.
   */
  function FreqToCents(target: real, measured: ExtReal, log2: real -> real): (c: ExtReal)
    ensures c.Fin? <==> 0.0 < target && measured.Fin? && 0.0 < measured.val
    ensures c.Fin? ==> c.val == 1200.0 * log2(measured.val / target)
  {
    if !IsPositive(measured) || target <= 0.0 then PosInf
    else match measured
      case PosInf => PosInf  // log2(+Infinity) is +Infinity
      case Fin(f) => Fin(1200.0 * log2(f / target))
  }

  /** A measured frequency equal to the target deviates by zero cents. */
  lemma InTuneIsZeroCents(target: real, log2: real -> real)
    requires 0.0 < target && log2(1.0) == 0.0
    ensures FreqToCents(target, Fin(target), log2) == Fin(0.0)
  {
    assert target / target == 1.0;
  }

  /** A measured frequency an octave above the target deviates by 1200 cents. */
  lemma OctaveIs1200Cents(target: real, log2: real -> real)
    requires 0.0 < target && log2(2.0) == 1.0
    ensures FreqToCents(target, Fin(2.0 * target), log2) == Fin(1200.0)
  {
    assert 2.0 * target / target == 2.0;
  }

  // ===================================================================
  // Pitch estimation (autocorrelation)
  // ===================================================================

  /** The RMS below which a block is treated as silence. */
  const SILENCE_FLOOR: real := 0.001

  /** The frequency sentinel for "no pitch detected" (`freq: -1`). */
  const NO_PITCH: ExtReal := Fin(-1.0)

  /** What the estimator returns: a frequency and the block's loudness. */
  datatype Reading = Reading(
    freq: ExtReal,     // NO_PITCH when no periodicity was found
    sumSquares: real)  // the source's rms is sqrt(sumSquares / |block|)

  /** `sum_{i < n} b[i] * b[i + lag]`, accumulated from the front. */
  function LaggedSum(b: seq<real>, lag: nat, n: nat): real
    requires lag + n <= |b|
  {
    if n == 0 then 0.0 else LaggedSum(b, lag, n - 1) + b[n - 1] * b[n - 1 + lag]
  }

  /** The energy of a block: the sum of its squared samples. */
  function SumSquares(b: seq<real>): real
  {
    LaggedSum(b, 0, |b|)
  }

  /** The direct-form autocorrelation: entry `lag` is the dot product of the block with itself shifted by `lag`. */
  function Autocorrelation(b: seq<real>): seq<real>
  {
    seq(|b|, lag requires 0 <= lag < |b| => LaggedSum(b, lag, |b| - lag))
  }

  /**
   * Where the skip loop stops, starting from `d`: it advances while `r[d] >
   * r[d + 1]`; past the end `r[d + 1]` is undefined in the source and the
   * comparison is false, so it stops at the last index at the latest.
   */
  function DescentEnd(r: seq<real>, d: nat): (e: nat)
    requires d <= |r|
    ensures d <= e <= |r|
    ensures d < |r| ==> e < |r|
    decreases |r| - d
  {
    if d < |r| && d + 1 < |r| && r[d] > r[d + 1] then DescentEnd(r, d + 1) else d
  }

  /** The first index in `[lo, hi)` at which `r` takes its maximum over that range. */
  function FirstArgMax(r: seq<real>, lo: nat, hi: nat): (p: nat)
    requires lo < hi <= |r|
    ensures lo <= p < hi
    ensures forall k :: lo <= k < hi ==> r[k] <= r[p]
    ensures forall k :: lo <= k < p ==> r[k] < r[p]
    decreases hi
  {
    if hi == lo + 1 then lo
    else
      var p := FirstArgMax(r, lo, hi - 1);
      if r[hi - 1] > r[p] then hi - 1 else p
  }

  /** `r[i] ?? 0`: an index outside `r` reads as 0. */
  function At(r: seq<real>, i: int): real
  {
    if 0 <= i < |r| then r[i] else 0.0
  }

  /** The parabolic-interpolation offset of the peak, 0 when the three points are collinear. */
  function ParabolicShift(left: real, center: real, right: real): real
  {
    var denom := left - 2.0 * center + right;
    if denom != 0.0 then (left - right) / (2.0 * denom) else 0.0
  }

  /**
   * The shift is the abscissa of the vertex of the parabola through
   * (-1, left), (0, center), (1, right).
   */
  lemma ShiftIsParabolaVertex(left: real, center: real, right: real)
    ensures var a := (left + right) / 2.0 - center;
      var b := (right - left) / 2.0;
      a - b + center == left && a + b + center == right &&
      (a != 0.0 ==> 2.0 * a * ParabolicShift(left, center, right) + b == 0.0) &&
      (a == 0.0 ==> ParabolicShift(left, center, right) == 0.0)
  {
    var denom := left - 2.0 * center + right;
    if denom != 0.0 {
      var s := ParabolicShift(left, center, right);
      assert s * (2.0 * denom) == left - right;
    }
  }

  /** When the center is at least as high as both neighbours, the refined peak moves by at most half a lag. */
  lemma ShiftWithinHalf(left: real, center: real, right: real)
    requires left <= center && right <= center
    ensures -0.5 <= ParabolicShift(left, center, right) <= 0.5
  {
    var denom := left - 2.0 * center + right;
    if denom != 0.0 {
      var spread := -denom;
      assert 0.0 < spread;
      var s := ParabolicShift(left, center, right);
      assert s * (2.0 * spread) == right - left;
      assert -spread <= right - left <= spread;
    }
  }

  /** The refined frequency `sampleRate / (p + shift)`; a zero lag divides to +Infinity. */
  function RefinedFrequency(r: seq<real>, p: nat, sampleRate: real): ExtReal
    requires p < |r| && 0.0 < sampleRate
  {
    var lag := p as real + ParabolicShift(At(r, p as int - 1), r[p], At(r, p + 1));
    if lag == 0.0 then PosInf else Fin(sampleRate / lag)
  }

  /**
   * At an interior peak the refined frequency is finite and lies between the
   * frequencies of the lags half a step either side of the peak.
   */
  lemma RefinedNearPeak(r: seq<real>, p: nat, sampleRate: real)
    requires 1 <= p && p + 1 < |r| && 0.0 < sampleRate
    requires r[p - 1] <= r[p] && r[p + 1] <= r[p]
    ensures var f := RefinedFrequency(r, p, sampleRate);
      f.Fin? && sampleRate / (p as real + 0.5) <= f.val <= sampleRate / (p as real - 0.5)
  {
    var s := ParabolicShift(r[p - 1], r[p], r[p + 1]);
    ShiftWithinHalf(r[p - 1], r[p], r[p + 1]);
    var lag := p as real + s;
    assert 0.5 <= p as real - 0.5 <= lag <= p as real + 0.5;
    DivisionAntitone(sampleRate, p as real - 0.5, lag);
    DivisionAntitone(sampleRate, lag, p as real + 0.5);
  }

  /** Dividing a positive number by a larger positive divisor gives a smaller quotient. */
  lemma DivisionAntitone(x: real, y: real, z: real)
    requires 0.0 < x && 0.0 < y <= z
    ensures x / z <= x / y
  {
    assert (x / z) * z == x == (x / y) * y;
    assert (x / y) * z >= (x / y) * y;
  }

  /**
   * Everything `autocorrelate` does after the silence gate, given the
   * autocorrelation array: skip, first maximum, refinement.
   */
  function PitchFromAutocorrelation(r: seq<real>, sampleRate: real): (f: ExtReal)
    requires 0.0 < sampleRate
  {
    var d := DescentEnd(r, 0);
    if d == |r| then NO_PITCH
    else
      var p := FirstArgMax(r, d, |r|);
      if r[p] <= 0.0 then NO_PITCH
      else RefinedFrequency(r, p, sampleRate)
  }

  /**
   * `autocorrelate` as a function of the block: the silence gate, then the
   * autocorrelation, the skip over the initial descent, the first maximum at
   * or after it, and the parabolic refinement.
   */
  function EstimatePitch(b: seq<real>, sampleRate: real): (est: Reading)
    requires 0.0 < sampleRate
  {
    var energy := SumSquares(b);
    // rms < SILENCE_FLOOR, squared; for an empty block the source compares NaN, which is false, as is 0 < 0
    if energy < SILENCE_FLOOR * SILENCE_FLOOR * |b| as real then Reading(NO_PITCH, energy)
    else Reading(PitchFromAutocorrelation(Autocorrelation(b), sampleRate), energy)
  }

  /** Every path returns the block's energy, and a quiet block has no pitch. */
  lemma SilenceGate(b: seq<real>, sampleRate: real)
    requires 0.0 < sampleRate
    ensures EstimatePitch(b, sampleRate).sumSquares == SumSquares(b)
    ensures SumSquares(b) < SILENCE_FLOOR * SILENCE_FLOOR * |b| as real ==> EstimatePitch(b, sampleRate).freq == NO_PITCH
  {
  }

  /**
   * The squared gate is the source's `rms < 0.001` and the squared onset
   * test is its `rms > threshold`, for any non-negative rms whose square is
   * the mean of the squared samples.
   */
  lemma SquaredGatesMatchRms(b: seq<real>, rms: real, threshold: real)
    requires 0 < |b| && 0.0 <= rms && 0.0 <= threshold
    requires rms * rms * |b| as real == SumSquares(b)
    ensures SumSquares(b) < SILENCE_FLOOR * SILENCE_FLOOR * |b| as real <==> rms < SILENCE_FLOOR
    ensures Loud(b, threshold) <==> rms > threshold
  {
    var n := |b| as real;
    SquareOrder(rms, SILENCE_FLOOR, n);
    SquareOrder(threshold, rms, n);
  }

  /** For non-negative numbers, squaring preserves strict order, scaled by a positive factor. */
  lemma SquareOrder(x: real, y: real, n: real)
    requires 0.0 <= x && 0.0 <= y && 0.0 < n
    ensures x < y <==> x * x * n < y * y * n
  {
    if x < y {
      SquareStrict(x, y);
      ScaleStrict(x * x, y * y, n);
    } else if y < x {
      SquareStrict(y, x);
      ScaleStrict(y * y, x * x, n);
    }
  }

  lemma SquareStrict(x: real, y: real)
    requires 0.0 <= x < y
    ensures x * x < y * y
  {
    PositiveProduct(y - x, y + x);
    assert y * y - x * x == (y - x) * (y + x);
  }

  lemma PositiveProduct(p: real, q: real)
    requires 0.0 < p && 0.0 < q
    ensures 0.0 < p * q
  {
  }

  lemma ScaleStrict(a: real, b: real, n: real)
    requires a < b && 0.0 < n
    ensures a * n < b * n
  {
    PositiveProduct(b - a, n);
    assert b * n - a * n == (b - a) * n;
  }

  /** A sum of squares is never negative. */
  lemma {:induction false} SquaresNonNegative(b: seq<real>, n: nat)
    requires n <= |b|
    ensures 0.0 <= LaggedSum(b, 0, n)
  {
    if n > 0 {
      SquaresNonNegative(b, n - 1);
    }
  }

  /** Lagged sums over an all-zero block vanish. */
  lemma {:induction false} ZeroBlockSums(b: seq<real>, lag: nat, n: nat)
    requires lag + n <= |b|
    requires forall i :: 0 <= i < |b| ==> b[i] == 0.0
    ensures LaggedSum(b, lag, n) == 0.0
  {
    if n > 0 {
      ZeroBlockSums(b, lag, n - 1);
    }
  }

  /** A silent (all-zero) block has no pitch, whatever its length. */
  lemma SilentBlockHasNoPitch(b: seq<real>, sampleRate: real)
    requires 0.0 < sampleRate
    requires forall i :: 0 <= i < |b| ==> b[i] == 0.0
    ensures EstimatePitch(b, sampleRate).freq == NO_PITCH
  {
    ZeroBlockSums(b, 0, |b|);
    if |b| == 0 {
      assert DescentEnd(Autocorrelation(b), 0) == 0;
    }
  }

  /**
   * The skip loop from `d` stops inside the array, after a strictly
   * descending run, at an index where the descent has ended.
   */
  lemma {:induction false} DescentEndFrom(r: seq<real>, d: nat)
    requires d < |r|
    ensures d <= DescentEnd(r, d) < |r|
    ensures forall k :: d <= k < DescentEnd(r, d) ==> r[k] > r[k + 1]
    ensures DescentEnd(r, d) + 1 < |r| ==> r[DescentEnd(r, d)] <= r[DescentEnd(r, d) + 1]
    decreases |r| - d
  {
    if d + 1 < |r| && r[d] > r[d + 1] {
      DescentEndFrom(r, d + 1);
    }
  }

  /**
   * The skip loop run from 0: every index it passes starts a strict descent;
   * it ends on the last index at the latest (at 0 on an empty array); and
   * where it ends before the last index, `r` no longer descends.
   */
  lemma DescentEndSpec(r: seq<real>)
    ensures var d := DescentEnd(r, 0);
      (forall k :: 0 <= k < d ==> r[k] > r[k + 1]) &&
      (|r| == 0 ==> d == 0) &&
      (0 < |r| ==> d <= |r| - 1) &&
      (d + 1 < |r| ==> r[d] <= r[d + 1])
  {
    if 0 < |r| {
      DescentEndFrom(r, 0);
    }
  }

  /**
   * When no entry of `r` at or after the skip is positive, there is no
   * pitch; otherwise a pitch is reported only from the first maximum there.
   */
  lemma PeakDecidesPitch(r: seq<real>, sampleRate: real)
    requires 0.0 < sampleRate
    ensures var d := DescentEnd(r, 0);
      (forall k :: d <= k < |r| ==> r[k] <= 0.0) ==> PitchFromAutocorrelation(r, sampleRate) == NO_PITCH
    ensures var d := DescentEnd(r, 0);
      (exists k :: d <= k < |r| && r[k] > 0.0) ==>
        exists p :: d <= p < |r| && 0.0 < r[p] &&
          (forall k :: d <= k < |r| ==> r[k] <= r[p]) &&
          (forall k :: d <= k < p ==> r[k] < r[p]) &&
          PitchFromAutocorrelation(r, sampleRate) == RefinedFrequency(r, p, sampleRate)
  {
    var d := DescentEnd(r, 0);
    if d < |r| {
      var p := FirstArgMax(r, d, |r|);
      if exists k :: d <= k < |r| && r[k] > 0.0 {
        var k :| d <= k < |r| && r[k] > 0.0;
        assert r[k] <= r[p];
      }
    }
  }

  /**
   * When the first maximum after the skip lies strictly inside `r` and past
   * the skip point, the reported frequency is finite and within half a lag
   * of `sampleRate / p`.
   */
  lemma InteriorPeakPitch(r: seq<real>, sampleRate: real)
    requires 0.0 < sampleRate
    requires DescentEnd(r, 0) < |r|
    requires var p := FirstArgMax(r, DescentEnd(r, 0), |r|);
      DescentEnd(r, 0) < p && p + 1 < |r| && 0.0 < r[p]
    ensures var p := FirstArgMax(r, DescentEnd(r, 0), |r|);
      var f := PitchFromAutocorrelation(r, sampleRate);
      f.Fin? && sampleRate / (p as real + 0.5) <= f.val <= sampleRate / (p as real - 0.5)
  {
    var d := DescentEnd(r, 0);
    var p := FirstArgMax(r, d, |r|);
    assert r[p - 1] < r[p] && r[p + 1] <= r[p];
    RefinedNearPeak(r, p, sampleRate);
  }

  /**
   * A constant block is not silent and has no descent-then-peak shape, yet
   * the skip runs to the last lag and the estimator reports
   * `sampleRate / (SIZE - 1)` rather than "no pitch".
   */
  lemma ConstantBlockPitch()
    ensures EstimatePitch([1.0, 1.0, 1.0], 3.0).freq == Fin(1.5)
  {
    var b := [1.0, 1.0, 1.0];
    var r := Autocorrelation(b);
    assert SumSquares(b) == 3.0;
    assert LaggedSum(b, 1, 2) == 2.0 && LaggedSum(b, 2, 1) == 1.0;
    assert r[0] == 3.0 && r[1] == 2.0 && r[2] == 1.0;
    assert r == [3.0, 2.0, 1.0];
    assert DescentEnd(r, 0) == 2;
    assert FirstArgMax(r, 2, 3) == 2;
    assert ParabolicShift(At(r, 1), r[2], At(r, 3)) == 0.0;
  }

  /** The nested loops of `autocorrelate` that fill the array `r`, lag by lag. */
  method FillAutocorrelation(buffer: seq<real>) returns (r: array<real>)
    ensures fresh(r)
    ensures r[..] == Autocorrelation(buffer)
  {
    var size := |buffer|;
    r := new real[size](_ => 0.0);
    for lag := 0 to size
      invariant forall k :: 0 <= k < lag ==> r[k] == LaggedSum(buffer, k, size - k)
    {
      var sum := 0.0;
      for i := 0 to size - lag
        invariant sum == LaggedSum(buffer, lag, i)
      {
        sum := sum + buffer[i] * buffer[i + lag];
      }
      r[lag] := sum;
    }
    assert r[..] == Autocorrelation(buffer);
  }

  /** The skip loop of `autocorrelate`: step over the initial descending run of `r`. */
  method SkipDescent(r: array<real>) returns (d: nat)
    ensures d == DescentEnd(r[..], 0)
  {
    d := 0;
    // at d = r.Length - 1 the source compares with the undefined r[r.Length], which is false
    while d < r.Length && d + 1 < r.Length && r[d] > r[d + 1]
      invariant d <= r.Length
      invariant DescentEnd(r[..], d) == DescentEnd(r[..], 0)
    {
      d := d + 1;
    }
  }

  /**
   * The maximum search of `autocorrelate` over `r[d..]`; `maxPos == -1`
   * stands for `maxVal == -Infinity`, which every entry beats.
   */
  method FirstMaximum(r: array<real>, d: nat) returns (maxPos: int, maxVal: real)
    requires d <= r.Length
    ensures maxPos == -1 <==> d == r.Length
    ensures d < r.Length ==> maxPos == FirstArgMax(r[..], d, r.Length) && maxVal == r[maxPos]
  {
    maxPos, maxVal := -1, 0.0;
    for i := d to r.Length
      invariant maxPos == -1 <==> i == d
      invariant d < i ==> maxPos == FirstArgMax(r[..], d, i) && maxVal == r[maxPos]
    {
      if maxPos == -1 || r[i] > maxVal {
        maxVal := r[i];
        maxPos := i;
      }
    }
  }

  /**
   * The refinement step of `autocorrelate`: the parabola through the peak and
   * its neighbours (`?? 0` past either end), and `sampleRate / lag`.
   */
  method Refine(r: array<real>, maxPos: nat, sampleRate: real) returns (freq: ExtReal)
    requires maxPos < r.Length && 0.0 < sampleRate
    ensures freq == RefinedFrequency(r[..], maxPos, sampleRate)
  {
    var left := if maxPos - 1 >= 0 then r[maxPos - 1] else 0.0;
    var center := r[maxPos];
    var right := if maxPos + 1 < r.Length then r[maxPos + 1] else 0.0;
    var denom := left - 2.0 * center + right;
    var shift := 0.0;
    if denom != 0.0 {
      shift := (left - right) / (2.0 * denom);
    }
    var lag := maxPos as real + shift;
    // sampleRate / 0 is +Infinity for a positive sample rate
    freq := if lag == 0.0 then PosInf else Fin(sampleRate / lag);
  }

  /**
   * `autocorrelate`: the energy loop and the silence gate, then the
   * autocorrelation array, the skip, the maximum search and the refinement.
   */
  method Autocorrelate(buffer: seq<real>, sampleRate: real) returns (est: Reading)
    requires 0.0 < sampleRate
    ensures est == EstimatePitch(buffer, sampleRate)
    ensures est.sumSquares == SumSquares(buffer)
  {
    var size := |buffer|;
    var energy := 0.0;
    for i := 0 to size
      invariant energy == LaggedSum(buffer, 0, i)
    {
      energy := energy + buffer[i] * buffer[i];
    }
    if energy < SILENCE_FLOOR * SILENCE_FLOOR * size as real {
      return Reading(NO_PITCH, energy);
    }
    var r := FillAutocorrelation(buffer);
    var d := SkipDescent(r);
    var maxPos, maxVal := FirstMaximum(r, d);
    if maxPos == -1 || maxVal <= 0.0 {
      return Reading(NO_PITCH, energy);
    }
    var freq := Refine(r, maxPos, sampleRate);
    est := Reading(freq, energy);
  }

  // ===================================================================
  // Note grading
  // ===================================================================

  datatype Grade = StrongOk | WeakOk | Fail

  /** `frames.filter((c) => c <= limit).length`. */
  function CountWithin(frames: seq<ExtReal>, limit: real): (n: nat)
    ensures n <= |frames|
  {
    if frames == [] then 0
    else (if AtMost(frames[0], limit) then 1 else 0) + CountWithin(frames[1..], limit)
  }

  /** A looser limit admits at least as many frames. */
  lemma {:induction false} CountWithinMonotone(frames: seq<ExtReal>, a: real, b: real)
    requires a <= b
    ensures CountWithin(frames, a) <= CountWithin(frames, b)
  {
    if frames != [] {
      CountWithinMonotone(frames[1..], a, b);
    }
  }

  /**
   * The grade with strict precedence: "Strong OK" whenever the strong share
   * is met, "Weak OK" only otherwise, and "Fail" when neither is.
   */
  function GradeOf(strong: real, weak: real, cfg: Config): (g: Grade)
    ensures g == StrongOk <==> strong >= cfg.strongPercent
    ensures g == WeakOk <==> strong < cfg.strongPercent && weak >= cfg.weakPercent
    ensures g == Fail <==> strong < cfg.strongPercent && weak < cfg.weakPercent
  {
    if strong >= cfg.strongPercent then StrongOk
    else if weak >= cfg.weakPercent then WeakOk
    else Fail
  }

  /** Dividing by a positive number keeps order. */
  lemma DivisionMonotone(a: real, b: real, t: real)
    requires a <= b && 0.0 < t
    ensures a / t <= b / t
  {
  }

  /** Shares of one total keep the order of their counts and stay within [0, 1]. */
  lemma ShareOrder(a: nat, b: nat, total: nat)
    requires a <= b <= total && 0 < total
    ensures 0.0 <= a as real / total as real <= b as real / total as real <= 1.0
  {
    var t := total as real;
    DivisionMonotone(0.0, a as real, t);
    DivisionMonotone(a as real, b as real, t);
    DivisionMonotone(b as real, t, t);
    assert 0.0 / t == 0.0 && t / t == 1.0;
  }

  /** The two shares and the grade of one note. */
  datatype Score = Score(strong: real, weak: real, grade: Grade)

  /**
   * Step 5 of `runNoteTest`: the shares of frames within the strong and the
   * weak limit, over `frames.length || 1`, and the grade.
   */
  function ScoreFrames(frames: seq<ExtReal>, cfg: Config): (s: Score)
    ensures 0.0 <= s.strong <= 1.0 && 0.0 <= s.weak <= 1.0
    ensures cfg.strongCents <= cfg.weakCents ==> s.strong <= s.weak
    ensures frames == [] ==> s.strong == 0.0 && s.weak == 0.0
    ensures frames == [] && 0.0 < cfg.strongPercent && 0.0 < cfg.weakPercent ==> s.grade == Fail
    ensures s.grade == GradeOf(s.strong, s.weak, cfg)
  {
    var total := if |frames| == 0 then 1 else |frames|;
    var strongCount := CountWithin(frames, cfg.strongCents);
    var weakCount := CountWithin(frames, cfg.weakCents);
    var strong := strongCount as real / total as real;
    var weak := weakCount as real / total as real;
    assert 0.0 <= strong <= 1.0 && 0.0 <= weak <= 1.0 by {
      ShareOrder(0, strongCount, total);
      ShareOrder(0, weakCount, total);
    }
    assert cfg.strongCents <= cfg.weakCents ==> strong <= weak by {
      if cfg.strongCents <= cfg.weakCents {
        CountWithinMonotone(frames, cfg.strongCents, cfg.weakCents);
        ShareOrder(strongCount, weakCount, total);
      }
    }
    Score(strong, weak, GradeOf(strong, weak, cfg))
  }

  /** The worked example: deviations 10, 15, 20, 10 and 200 cents grade "Strong OK" at 80%. */
  lemma ScoreExample()
    ensures ScoreFrames([Fin(10.0), Fin(15.0), Fin(20.0), Fin(10.0), Fin(200.0)], RECORDER_DEFAULTS)
      == Score(0.8, 0.8, StrongOk)
  {
    var frames := [Fin(10.0), Fin(15.0), Fin(20.0), Fin(10.0), Fin(200.0)];
    assert CountWithin(frames[4..], 30.0) == 0 && CountWithin(frames[4..], 75.0) == 0;
    assert CountWithin(frames, 30.0) == 4 && CountWithin(frames, 75.0) == 4;
  }

  // ===================================================================
  // Measuring one note and running the sequence
  // ===================================================================

  /**
   * `rms > threshold` for rms = sqrt(sumSquares / |block|), compared
   * squared; an empty block (NaN in the source) is never loud.
   */
  predicate Loud(block: seq<real>, threshold: real)
  {
    SumSquares(block) > threshold * threshold * |block| as real
  }

  /**
   * The sample blocks one note's test reads, standing in for the analyser
   * and the clock: the blocks polled before the onset deadline, then the
   * blocks read during the measurement window.
   */
  datatype Capture = Capture(onsetBlocks: seq<seq<real>>, measureBlocks: seq<seq<real>>)

  /** One row of the results (`{ note, freq, strong, weak, grade }`). */
  datatype NoteResult = NoteResult(note: string, freq: real, strong: real, weak: real, grade: Grade)

  /** Whether some polled block is loud enough to count as voice onset. */
  predicate OnsetDetected(blocks: seq<seq<real>>, threshold: real)
  {
    exists i :: 0 <= i < |blocks| && Loud(blocks[i], threshold)
  }

  /**
   * The frames the measurement loop collects: for every block whose
   * estimate is a positive frequency, its absolute deviation in cents from
   * the target; other blocks add nothing.
   */
  function CollectFrames(blocks: seq<seq<real>>, target: real, sampleRate: real, log2: real -> real): seq<ExtReal>
    requires 0.0 < sampleRate
  {
    if blocks == [] then []
    else
      var prefix := blocks[..|blocks| - 1];
      var est := EstimatePitch(blocks[|blocks| - 1], sampleRate);
      CollectFrames(prefix, target, sampleRate, log2) +
        (if IsPositive(est.freq) then [Abs(FreqToCents(target, est.freq, log2))] else [])
  }

  /** Collected frames are absolute deviations, at most one per block. */
  lemma {:induction false} FramesAreDeviations(blocks: seq<seq<real>>, target: real, sampleRate: real, log2: real -> real)
    requires 0.0 < sampleRate
    ensures var frames := CollectFrames(blocks, target, sampleRate, log2);
      |frames| <= |blocks| &&
      forall i :: 0 <= i < |frames| ==> frames[i].PosInf? || 0.0 <= frames[i].val
  {
    if blocks != [] {
      FramesAreDeviations(blocks[..|blocks| - 1], target, sampleRate, log2);
    }
  }

  /** A measurement window of silent blocks collects no frames. */
  lemma {:induction false} SilentWindowHasNoFrames(blocks: seq<seq<real>>, target: real, sampleRate: real, log2: real -> real)
    requires 0.0 < sampleRate
    requires forall j, i :: 0 <= j < |blocks| && 0 <= i < |blocks[j]| ==> blocks[j][i] == 0.0
    ensures CollectFrames(blocks, target, sampleRate, log2) == []
  {
    if blocks != [] {
      SilentWindowHasNoFrames(blocks[..|blocks| - 1], target, sampleRate, log2);
      SilentBlockHasNoPitch(blocks[|blocks| - 1], sampleRate);
    }
  }

  /** The frames of one note: none at all unless onset was detected. */
  function MeasuredFrames(note: Note, capture: Capture, cfg: Config, sampleRate: real, log2: real -> real): seq<ExtReal>
    requires 0.0 < sampleRate
  {
    if OnsetDetected(capture.onsetBlocks, cfg.onsetRmsThreshold)
    then CollectFrames(capture.measureBlocks, note.freq, sampleRate, log2)
    else []
  }

  /** `runNoteTest` as a function of the note and the blocks it reads. */
  function NoteOutcome(note: Note, capture: Capture, cfg: Config, sampleRate: real, log2: real -> real): NoteResult
    requires 0.0 < sampleRate
  {
    var s := ScoreFrames(MeasuredFrames(note, capture, cfg, sampleRate, log2), cfg);
    NoteResult(note.name, note.freq, s.strong, s.weak, s.grade)
  }

  /**
   * A note's result names the note, keeps its frequency, has shares in
   * [0, 1] with the weak one at least the strong one, and is "Fail" with
   * zero shares when no onset was detected.
   */
  lemma NoteOutcomeSpec(note: Note, capture: Capture, cfg: Config, sampleRate: real, log2: real -> real)
    requires 0.0 < sampleRate && ValidConfig(cfg)
    ensures var res := NoteOutcome(note, capture, cfg, sampleRate, log2);
      res.note == note.name && res.freq == note.freq &&
      0.0 <= res.strong <= res.weak <= 1.0 &&
      (!OnsetDetected(capture.onsetBlocks, cfg.onsetRmsThreshold) ==>
        res.strong == 0.0 && res.weak == 0.0 && res.grade == Fail)
  {
  }

  /**
   * `runNoteTest` after the count-in and the reference tone: poll blocks
   * until one is loud or the deadline's polls are used up; only after an
   * onset, estimate the pitch of each block of the measurement window and
   * keep the absolute deviation of every positive estimate; then grade.
   */
  method RunNoteTest(note: Note, capture: Capture, cfg: Config, sampleRate: real, log2: real -> real)
    returns (result: NoteResult)
    requires 0.0 < sampleRate && 0.0 <= cfg.onsetRmsThreshold
    ensures result == NoteOutcome(note, capture, cfg, sampleRate, log2)
    ensures result.note == note.name && result.freq == note.freq
  {
    var polls := capture.onsetBlocks;
    var onsetDetected := false;
    var k := 0;
    while k < |polls| && !onsetDetected
      invariant 0 <= k <= |polls|
      invariant !onsetDetected ==> forall j :: 0 <= j < k ==> !Loud(polls[j], cfg.onsetRmsThreshold)
      invariant onsetDetected ==> 0 < k && Loud(polls[k - 1], cfg.onsetRmsThreshold)
    {
      if Loud(polls[k], cfg.onsetRmsThreshold) {
        onsetDetected := true;
      }
      k := k + 1;
    }
    assert onsetDetected == OnsetDetected(polls, cfg.onsetRmsThreshold);

    var frames: seq<ExtReal> := [];
    if onsetDetected {
      var blocks := capture.measureBlocks;
      var j := 0;
      while j < |blocks|
        invariant 0 <= j <= |blocks|
        invariant frames == CollectFrames(blocks[..j], note.freq, sampleRate, log2)
      {
        var est := Autocorrelate(blocks[j], sampleRate);
        if IsPositive(est.freq) {
          var cents := Abs(FreqToCents(note.freq, est.freq, log2));
          frames := frames + [cents];
        }
        assert blocks[..j + 1][..j] == blocks[..j];
        j := j + 1;
      }
      assert blocks[..j] == blocks;
    }

    var s := ScoreFrames(frames, cfg);
    result := NoteResult(note.name, note.freq, s.strong, s.weak, s.grade);
  }

  /**
   * The loop of `startSequence`: run the test of every note in order and
   * push one result per note. `session(i)` is what the analyser delivers
   * during the i-th note.
   */
  method RunEachNote(notes: seq<Note>, session: nat -> Capture, cfg: Config, sampleRate: real, log2: real -> real)
    returns (results: seq<NoteResult>)
    requires 0.0 < sampleRate && 0.0 <= cfg.onsetRmsThreshold
    ensures |results| == |notes|
    ensures forall i :: 0 <= i < |notes| ==> results[i] == NoteOutcome(notes[i], session(i), cfg, sampleRate, log2)
    ensures forall i :: 0 <= i < |notes| ==> results[i].note == notes[i].name && results[i].freq == notes[i].freq
  {
    results := [];
    for i := 0 to |notes|
      invariant |results| == i
      invariant forall j :: 0 <= j < i ==> results[j] == NoteOutcome(notes[j], session(j), cfg, sampleRate, log2)
      invariant forall j :: 0 <= j < i ==> results[j].note == notes[j].name && results[j].freq == notes[j].freq
    {
      var r := RunNoteTest(notes[i], session(i), cfg, sampleRate, log2);
      assert (results + [r])[i] == r;
      results := results + [r];
    }
  }

  /**
   * `startSequence`: build the note table, then test its notes in order;
   * there is one result per tested note, named and tuned from that note.
   */
  method StartSequence(midiToFreq: int -> real, log2: real -> real, sampleRate: real, cfg: Config,
                       session: nat -> Capture)
    returns (results: seq<NoteResult>)
    requires 0.0 < sampleRate && 0.0 <= cfg.onsetRmsThreshold
    ensures |results| == |NoteTable(LOWEST_MIDI, HIGHEST_MIDI, midiToFreq)| == 15
    ensures forall i :: 0 <= i < |results| ==>
      results[i] == NoteOutcome(NoteTable(LOWEST_MIDI, HIGHEST_MIDI, midiToFreq)[i], session(i), cfg, sampleRate, log2)
    ensures forall i :: 0 <= i < |results| ==>
      results[i].note == MidiToNoteName(NoteTable(LOWEST_MIDI, HIGHEST_MIDI, midiToFreq)[i].midi) &&
      results[i].freq == midiToFreq(NoteTable(LOWEST_MIDI, HIGHEST_MIDI, midiToFreq)[i].midi)
  {
    var notes := GenerateNoteList(midiToFreq);
    results := RunEachNote(notes, session, cfg, sampleRate, log2);
    ghost var table := NoteTable(LOWEST_MIDI, HIGHEST_MIDI, midiToFreq);
    TestedTableLength(midiToFreq);
    FilteredNotesEntries(IsNatural, LOWEST_MIDI, HIGHEST_MIDI, midiToFreq);
    forall i | 0 <= i < |results|
      ensures results[i].note == MidiToNoteName(table[i].midi) && results[i].freq == midiToFreq(table[i].midi)
    {
      assert table[i] in table;
    }
  }
}
