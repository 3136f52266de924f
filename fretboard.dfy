/** The theory engine of src/fretboard.ts: pitch classes, triads, inversions and
    their places on a six-string, twelve-fret neck. */
module Fretboard {
  import opened Types
  import opened Wrappers

  /** Open-string pitch classes, indexed by `string - 1`. */
  const StandardTuning: seq<Note> := [E, A, D, G, B, E]

  /** The pitch classes in semitone order above C. */
  const Notes: seq<Note> := [C, Cs, D, Ds, E, F, Fs, G, Gs, A, As, B]

  /** The highest fret of the neck; frets run from 0 (open) to this one. */
  const TopFret: nat := 12

  /** Semitones above C of a pitch class. */
  function Semitone(n: Note): (s: nat)
    ensures s < 12
  {
    match n
    case C => 0
    case Cs => 1
    case D => 2
    case Ds => 3
    case E => 4
    case F => 5
    case Fs => 6
    case G => 7
    case Gs => 8
    case A => 9
    case As => 10
    case B => 11
  }

  /** Every position of the note table holds the pitch class that many semitones above C. */
  lemma NotesSemitones(i: nat)
    requires i < 12
    ensures Semitone(Notes[i]) == i
  {
  }

  /** Each pitch class sits in the note table at its own semitone count. */
  lemma NotesIndex(n: Note)
    ensures Notes[Semitone(n)] == n
  {
    match n
    case C => case Cs => case D => case Ds => case E => case F =>
    case Fs => case G => case Gs => case A => case As => case B =>
  }

  lemma SemitoneInjective(a: Note, b: Note)
    ensures Semitone(a) == Semitone(b) <==> a == b
  {
    NotesIndex(a);
    NotesIndex(b);
  }

  /** The pitch class `semitone` semitones above C, wrapping every octave. */
  function NoteFromSemitone(semitone: nat): (n: Note)
    ensures Semitone(n) == semitone % 12
  {
    NotesSemitones(semitone % 12);
    Notes[semitone % 12]
  }

  /** The upward distance in semitones, 0..11, from pitch class `a` to pitch class `b`. */
  function Above(a: Note, b: Note): nat
  {
    (Semitone(b) - Semitone(a) + 12) % 12
  }

  /** Stepping up `i` semitones from `root` lands `i` semitones above it. */
  lemma AboveShift(root: Note, i: nat)
    requires i < 12
    ensures Above(root, NoteFromSemitone(Semitone(root) + i)) == i
  {
    UpAndBack(Semitone(root), i);
  }

  /** Going up `i` semitones around the octave and measuring back from the start gives `i`. */
  lemma UpAndBack(r: int, i: int)
    requires 0 <= r < 12 && 0 <= i < 12
    ensures ((r + i) % 12 - r + 12) % 12 == i
  {
    if r + i < 12 {
      assert (r + i) % 12 == r + i;
    } else {
      assert (r + i) % 12 == r + i - 12;
    }
  }

  function ThirdInterval(quality: TriadQuality): nat
  {
    match quality
    case Major => 4
    case Minor => 3
    case Diminished => 3
  }

  function FifthInterval(quality: TriadQuality): nat
  {
    match quality
    case Major => 7
    case Minor => 7
    case Diminished => 6
  }

  /** The three notes of the triad on `root` of the given quality. */
  function GetTriadNotes(root: Note, quality: TriadQuality): (t: TriadNotes)
    ensures t.root == root
    ensures Semitone(t.third) == (Semitone(root) + ThirdInterval(quality)) % 12
    ensures Semitone(t.fifth) == (Semitone(root) + FifthInterval(quality)) % 12
  {
    var rootSemitone := Semitone(root);
    TriadNotes(root,
               NoteFromSemitone(rootSemitone + ThirdInterval(quality)),
               NoteFromSemitone(rootSemitone + FifthInterval(quality)))
  }

  /** The triad keeps its root; its third and fifth lie the quality's intervals above it. */
  lemma TriadIntervals(root: Note, quality: TriadQuality)
    ensures var t := GetTriadNotes(root, quality);
      t.root == root &&
      Above(root, t.third) == ThirdInterval(quality) &&
      Above(root, t.fifth) == FifthInterval(quality)
  {
    AboveShift(root, ThirdInterval(quality));
    AboveShift(root, FifthInterval(quality));
  }

  predicate Distinct(t: TriadNotes)
  {
    t.root != t.third && t.third != t.fifth && t.root != t.fifth
  }

  /** Root, third and fifth are three different pitch classes for every root and quality. */
  lemma TriadNotesDistinct(root: Note, quality: TriadQuality)
    ensures Distinct(GetTriadNotes(root, quality))
  {
    var t := GetTriadNotes(root, quality);
    TriadIntervals(root, quality);
    assert Above(root, t.root) == 0;
    assert Above(root, t.third) != Above(root, t.fifth);
  }

  /** The note of a triad that plays the given role. */
  function RoleNote(t: TriadNotes, role: Role): Note
  {
    match role
    case RootRole => t.root
    case ThirdRole => t.third
    case FifthRole => t.fifth
  }

  /** The role a note plays in a triad, trying root, then third, then fifth. */
  function Classify(t: TriadNotes, n: Note): (r: Option<Role>)
    ensures r.Some? ==> RoleNote(t, r.value) == n
    ensures r.None? <==> n != t.root && n != t.third && n != t.fifth
  {
    if n == t.root then Some(RootRole)
    else if n == t.third then Some(ThirdRole)
    else if n == t.fifth then Some(FifthRole)
    else None
  }

  /** In a triad of distinct notes the root-third-fifth test order never hides a role:
      a note is classified with a role exactly when it is that role's note. */
  lemma ClassifyExact(t: TriadNotes, n: Note, role: Role)
    requires Distinct(t)
    ensures Classify(t, n) == Some(role) <==> RoleNote(t, role) == n
  {
  }

  /** The string numbers of a group, read from its tag and reversed. */
  function GroupStrings(g: StringGroup): (strings: seq<nat>)
    ensures |strings| == 3
    ensures 1 <= strings[0] && strings[2] <= 6
    ensures strings[1] == strings[0] + 1 && strings[2] == strings[1] + 1
  {
    Reverse(DigitValues(GroupTag(g)))
  }

  /** A group names three valid strings in strictly ascending order. */
  lemma GroupStringsAscending(g: StringGroup)
    ensures ValidStrings(GroupStrings(g))
    ensures var strings := GroupStrings(g);
      forall i, j :: 0 <= i < j < |strings| ==> strings[i] < strings[j]
  {
    ConsecutiveStrings(GroupStrings(g));
  }

  /** The strings of each group, as visited: the tag's digits reversed. */
  lemma GroupStringsTable(g: StringGroup)
    ensures GroupStrings(g) == match g
      case S654 => [4, 5, 6]
      case S543 => [3, 4, 5]
      case S432 => [2, 3, 4]
      case S321 => [1, 2, 3]
  {
    match g
    case S654 => assert GroupTag(g) == "654";
    case S543 => assert GroupTag(g) == "543";
    case S432 => assert GroupTag(g) == "432";
    case S321 => assert GroupTag(g) == "321";
  }

  lemma ConsecutiveStrings(strings: seq<nat>)
    requires |strings| == 3 && 1 <= strings[0] && strings[2] <= 6
    requires strings[1] == strings[0] + 1 && strings[2] == strings[1] + 1
    ensures ValidStrings(strings)
    ensures forall i, j :: 0 <= i < j < |strings| ==> strings[i] < strings[j]
  {
  }

  function DigitValues(s: string): (ds: seq<nat>)
    requires forall i :: 0 <= i < |s| ==> '0' <= s[i] <= '9'
    ensures |ds| == |s|
    ensures forall i :: 0 <= i < |s| ==> ds[i] as int == (s[i] - '0') as int
  {
    if s == [] then [] else [(s[0] - '0') as nat] + DigitValues(s[1..])
  }

  function Reverse<T>(s: seq<T>): (r: seq<T>)
    ensures |r| == |s|
    ensures forall i :: 0 <= i < |s| ==> r[i] == s[|s| - 1 - i]
  {
    if s == [] then [] else Reverse(s[1..]) + [s[0]]
  }

  predicate ValidString(s: nat)
  {
    1 <= s <= 6
  }

  /** The pitch class of open string `s`: entry `s - 1` of the tuning table, so strings
      1 to 6 are E, A, D, G, B, E. */
  function OpenString(s: nat): Note
    requires ValidString(s)
  {
    if s == 1 then E else if s == 2 then A else if s == 3 then D
    else if s == 4 then G else if s == 5 then B else E
  }

  lemma OpenStringIsTableEntry(s: nat)
    requires ValidString(s)
    ensures OpenString(s) == StandardTuning[s - 1]
  {
  }

  /** The pitch class sounded `fret` frets up a string whose open pitch is `open` semitones above C. */
  function Sound(open: nat, fret: nat): (n: Note)
    ensures Semitone(n) == (open + fret) % 12
  {
    NoteFromSemitone((open + fret) % 12)
  }

  /** The pitch class sounded on string `s` at fret `fret`. */
  function PitchAt(s: nat, fret: nat): (n: Note)
    requires ValidString(s)
    ensures Semitone(n) == (Semitone(OpenString(s)) + fret) % 12
  {
    Sound(Semitone(OpenString(s)), fret)
  }

  /** The fret, 0..11, at which a string open at `open` semitones sounds `n`. */
  function FretAbove(open: nat, n: Note): nat
  {
    (Semitone(n) - open + 12) % 12
  }

  /** The lowest fret, 0..11, at which string `s` sounds pitch class `n`. */
  function FretOf(s: nat, n: Note): nat
    requires ValidString(s)
  {
    FretAbove(Semitone(OpenString(s)), n)
  }

  /** Climbing `fret` semitones from `o` reaches `x` exactly when `fret` is, modulo the
      octave, the upward distance from `o` to `x`. */
  lemma ShiftMod(o: int, fret: nat, x: int)
    requires 0 <= o < 12 && 0 <= x < 12
    ensures (o + fret) % 12 == x <==> fret % 12 == (x - o + 12) % 12
  {
    var y, r := (o + fret) % 12, fret % 12;
    var a, b := (o + fret) / 12, fret / 12;
    assert o + fret == 12 * a + y && fret == 12 * b + r;
    assert a - b == 0 || a - b == 1;
    assert y == if o + r < 12 then o + r else o + r - 12;
    assert (x - o + 12) % 12 == if o <= x then x - o else x - o + 12;
  }

  /** A string sounds `n` at a fret exactly when the fret is `FretAbove(open, n)` modulo the octave. */
  lemma SoundAtFret(open: nat, fret: nat, n: Note)
    requires open < 12
    ensures Sound(open, fret) == n <==> fret % 12 == FretAbove(open, n)
  {
    ShiftMod(open, fret, Semitone(n));
    SemitoneInjective(Sound(open, fret), n);
  }

  /** Below fret 12 a string sounds `n` at exactly one fret. */
  lemma SoundBelowTwelve(open: nat, fret: nat, n: Note)
    requires open < 12 && fret < 12
    ensures Sound(open, fret) == n <==> fret == FretAbove(open, n)
  {
    SoundAtFret(open, fret, n);
  }

  /** On every string, fret `fret` sounds `n` exactly when `fret` is `FretOf(s, n)` modulo the octave. */
  lemma PitchAtFret(s: nat, fret: nat, n: Note)
    requires ValidString(s)
    ensures PitchAt(s, fret) == n <==> fret % 12 == FretOf(s, n)
  {
    SoundAtFret(Semitone(OpenString(s)), fret, n);
  }

  // getAllTriadPositions

  /** Whether `p` is an occurrence of a member of the triad on `root` and `quality`
      on a string of group `g` within frets 0..12, tagged with its role. */
  predicate IsTriadPosition(root: Note, quality: TriadQuality, g: StringGroup, p: FretPosition)
  {
    p.stringNum in GroupStrings(g) && p.fret <= TopFret &&
    p.note == PitchAt(p.stringNum, p.fret) &&
    p.note == RoleNote(GetTriadNotes(root, quality), p.role)
  }

  /** The position emitted, if any, at one fret of string `s`, whose open pitch is `open`. */
  function FretHit(t: TriadNotes, s: nat, open: nat, fret: nat): seq<FretPosition>
  {
    var note := Sound(open, fret);
    match Classify(t, note)
    case None => []
    case Some(role) => [FretPosition(s, fret, note, role)]
  }

  /** The positions emitted on string `s` for frets 0..n-1, in fret order. */
  function FretScan(t: TriadNotes, s: nat, open: nat, n: nat): seq<FretPosition>
  {
    if n == 0 then [] else FretScan(t, s, open, n - 1) + FretHit(t, s, open, n - 1)
  }

  /** The positions emitted on string `s` over the whole neck, frets 0 to 12. */
  function StringScan(t: TriadNotes, s: nat): seq<FretPosition>
    requires ValidString(s)
  {
    FretScan(t, s, Semitone(OpenString(s)), TopFret + 1)
  }

  predicate ValidStrings(strings: seq<nat>)
  {
    forall i :: 0 <= i < |strings| ==> ValidString(strings[i])
  }

  /** The positions emitted for the first k strings visited. */
  function GroupScan(t: TriadNotes, strings: seq<nat>, k: nat): seq<FretPosition>
    requires ValidStrings(strings) && k <= |strings|
  {
    if k == 0 then [] else GroupScan(t, strings, k - 1) + StringScan(t, strings[k - 1])
  }

  /** Every triad note on every string of the group, frets 0 to 12, string by string. */
  function AllTriadPositions(root: Note, quality: TriadQuality, g: StringGroup): seq<FretPosition>
  {
    var strings := GroupStrings(g);
    GroupScan(GetTriadNotes(root, quality), strings, |strings|)
  }

  /** Searches the strings of the group, each over frets 0 to 12, for notes of the triad. */
  method GetAllTriadPositions(root: Note, quality: TriadQuality, stringGroup: StringGroup)
    returns (positions: seq<FretPosition>)
    ensures positions == AllTriadPositions(root, quality, stringGroup)
  {
    var triadNotes := GetTriadNotes(root, quality);
    positions := [];
    var strings := GroupStrings(stringGroup);
    GroupStringsAscending(stringGroup);
    var k := 0;
    while k < |strings|
      invariant 0 <= k <= |strings|
      invariant positions == GroupScan(triadNotes, strings, k)
    {
      positions := ScanString(triadNotes, strings[k], positions);
      k := k + 1;
    }
  }

  /** The per-string callback of the search: appends to `positions` every fret 0..12 of
      string `stringNum` whose note is in the triad, tagged with its role. */
  method ScanString(triadNotes: TriadNotes, stringNum: nat, positions0: seq<FretPosition>)
    returns (positions: seq<FretPosition>)
    requires ValidString(stringNum)
    ensures positions == positions0 + StringScan(triadNotes, stringNum)
  {
    positions := positions0;
    var stringRootSemitone := Semitone(OpenString(stringNum));
    var fret := 0;
    while fret <= TopFret
      invariant 0 <= fret <= TopFret + 1
      invariant positions == positions0 + FretScan(triadNotes, stringNum, stringRootSemitone, fret)
    {
      var currentNote := NoteFromSemitone((stringRootSemitone + fret) % 12);
      ghost var before := positions;
      if currentNote == triadNotes.root {
        positions := positions + [FretPosition(stringNum, fret, currentNote, RootRole)];
      } else if currentNote == triadNotes.third {
        positions := positions + [FretPosition(stringNum, fret, currentNote, ThirdRole)];
      } else if currentNote == triadNotes.fifth {
        positions := positions + [FretPosition(stringNum, fret, currentNote, FifthRole)];
      }
      FretHitChain(triadNotes, stringNum, stringRootSemitone, fret);
      assert positions == before + FretHit(triadNotes, stringNum, stringRootSemitone, fret);
      FretStep(triadNotes, stringNum, stringRootSemitone, fret, positions0, before, positions);
      fret := fret + 1;
    }
  }

  /** The hit at one fret, written as the method's chain of tests on the sounded note. */
  lemma FretHitChain(t: TriadNotes, s: nat, open: nat, fret: nat)
    ensures var note := Sound(open, fret);
      FretHit(t, s, open, fret) ==
        if note == t.root then [FretPosition(s, fret, note, RootRole)]
        else if note == t.third then [FretPosition(s, fret, note, ThirdRole)]
        else if note == t.fifth then [FretPosition(s, fret, note, FifthRole)]
        else []
  {
  }

  lemma FretStep(t: TriadNotes, s: nat, open: nat, fret: nat, done: seq<FretPosition>,
                 before: seq<FretPosition>, after: seq<FretPosition>)
    requires before == done + FretScan(t, s, open, fret)
    requires after == before + FretHit(t, s, open, fret)
    ensures after == done + FretScan(t, s, open, fret + 1)
  {
  }

  lemma {:induction false} FretScanMembers(t: TriadNotes, s: nat, open: nat, n: nat, p: FretPosition)
    ensures p in FretScan(t, s, open, n) <==>
      p.stringNum == s && p.fret < n && p.note == Sound(open, p.fret) && Classify(t, p.note) == Some(p.role)
  {
    if n > 0 {
      FretScanMembers(t, s, open, n - 1, p);
    }
  }

  lemma StringScanMembers(t: TriadNotes, s: nat, p: FretPosition)
    requires ValidString(s)
    ensures p in StringScan(t, s) <==>
      p.stringNum == s && p.fret <= TopFret && p.note == PitchAt(s, p.fret) && Classify(t, p.note) == Some(p.role)
  {
    FretScanMembers(t, s, Semitone(OpenString(s)), TopFret + 1, p);
  }

  lemma {:induction false} GroupScanMembers(t: TriadNotes, strings: seq<nat>, k: nat, p: FretPosition)
    requires ValidStrings(strings) && k <= |strings|
    ensures p in GroupScan(t, strings, k) <==>
      p.stringNum in strings[..k] && p.fret <= TopFret &&
      p.note == PitchAt(p.stringNum, p.fret) && Classify(t, p.note) == Some(p.role)
  {
    if k > 0 {
      var s := strings[k - 1];
      GroupScanMembers(t, strings, k - 1, p);
      StringScanMembers(t, s, p);
      assert strings[..k] == strings[..k - 1] + [s];
    }
  }

  /** Soundness and completeness: a position is emitted exactly when it is on a string of
      the group, within frets 0..12, sounds its note there, and that note plays its role. */
  lemma AllTriadPositionsMembers(root: Note, quality: TriadQuality, g: StringGroup, p: FretPosition)
    ensures p in AllTriadPositions(root, quality, g) <==> IsTriadPosition(root, quality, g, p)
  {
    var t := GetTriadNotes(root, quality);
    var strings := GroupStrings(g);
    GroupStringsAscending(g);
    GroupScanMembers(t, strings, |strings|, p);
    assert strings[..|strings|] == strings;
    TriadNotesDistinct(root, quality);
    ClassifyExact(t, p.note, p.role);
  }

  /** Position `p` comes before `q`: on a lower-numbered string, or on the same string at a lower fret. */
  predicate Precedes(p: FretPosition, q: FretPosition)
  {
    p.stringNum < q.stringNum || (p.stringNum == q.stringNum && p.fret < q.fret)
  }

  predicate StrictlyOrdered(ps: seq<FretPosition>)
  {
    forall i, j :: 0 <= i < j < |ps| ==> Precedes(ps[i], ps[j])
  }

  lemma {:induction false} FretScanOrdered(t: TriadNotes, s: nat, open: nat, n: nat)
    ensures StrictlyOrdered(FretScan(t, s, open, n))
  {
    if n > 0 {
      FretScanOrdered(t, s, open, n - 1);
      var prev := FretScan(t, s, open, n - 1);
      forall i | 0 <= i < |prev| ensures prev[i].stringNum == s && prev[i].fret < n - 1 {
        FretScanOnString(t, s, open, n - 1, prev[i]);
      }
    }
  }

  lemma StringScanOrdered(t: TriadNotes, s: nat)
    requires ValidString(s)
    ensures StrictlyOrdered(StringScan(t, s))
  {
    FretScanOrdered(t, s, Semitone(OpenString(s)), TopFret + 1);
  }

  lemma {:induction false} GroupScanOrdered(t: TriadNotes, strings: seq<nat>, k: nat)
    requires ValidStrings(strings) && k <= |strings|
    requires forall i, j :: 0 <= i < j < |strings| ==> strings[i] < strings[j]
    ensures StrictlyOrdered(GroupScan(t, strings, k))
  {
    if k > 0 {
      var s := strings[k - 1];
      var prev := GroupScan(t, strings, k - 1);
      var last := StringScan(t, s);
      GroupScanOrdered(t, strings, k - 1);
      StringScanOrdered(t, s);
      forall i | 0 <= i < |prev| ensures prev[i].stringNum < s {
        GroupScanBelow(t, strings, k - 1, prev[i]);
      }
      forall j | 0 <= j < |last| ensures last[j].stringNum == s {
        StringScanOnString(t, s, last[j]);
      }
      OrderedConcat(prev, last, s);
    }
  }

  /** The positions of the first k strings lie on strings no higher than the k-th. */
  lemma {:induction false} GroupScanBelow(t: TriadNotes, strings: seq<nat>, k: nat, p: FretPosition)
    requires ValidStrings(strings) && k <= |strings|
    requires forall i, j :: 0 <= i < j < |strings| ==> strings[i] < strings[j]
    ensures p in GroupScan(t, strings, k) ==> 0 < k && p.stringNum <= strings[k - 1]
  {
    if k > 0 {
      GroupScanBelow(t, strings, k - 1, p);
      StringScanOnString(t, strings[k - 1], p);
    }
  }

  /** A string's scan holds positions on that string only, below the fret bound. */
  lemma {:induction false} FretScanOnString(t: TriadNotes, s: nat, open: nat, n: nat, p: FretPosition)
    ensures p in FretScan(t, s, open, n) ==> p.stringNum == s && p.fret < n
  {
    if n > 0 {
      FretScanOnString(t, s, open, n - 1, p);
    }
  }

  lemma StringScanOnString(t: TriadNotes, s: nat, p: FretPosition)
    requires ValidString(s)
    ensures p in StringScan(t, s) ==> p.stringNum == s
  {
    FretScanOnString(t, s, Semitone(OpenString(s)), TopFret + 1, p);
  }

  /** An ordered run below string `s` followed by an ordered run on string `s` stays ordered. */
  lemma OrderedConcat(a: seq<FretPosition>, b: seq<FretPosition>, s: nat)
    requires StrictlyOrdered(a) && StrictlyOrdered(b)
    requires forall i :: 0 <= i < |a| ==> a[i].stringNum < s
    requires forall j :: 0 <= j < |b| ==> b[j].stringNum == s
    ensures StrictlyOrdered(a + b)
  {
  }

  /** The output is grouped by string in ascending string number, with frets ascending on
      each string; so no (string, fret) pair is emitted twice. */
  lemma AllTriadPositionsOrdered(root: Note, quality: TriadQuality, g: StringGroup)
    ensures StrictlyOrdered(AllTriadPositions(root, quality, g))
    ensures var ps := AllTriadPositions(root, quality, g);
      forall i, j :: 0 <= i < j < |ps| ==> ps[i].stringNum != ps[j].stringNum || ps[i].fret != ps[j].fret
  {
    var strings := GroupStrings(g);
    GroupStringsAscending(g);
    GroupScanOrdered(GetTriadNotes(root, quality), strings, |strings|);
  }

  /** The output is the three strings' own scans, one after another, lowest string number first. */
  lemma AllTriadPositionsByString(root: Note, quality: TriadQuality, g: StringGroup)
    ensures var t, strings := GetTriadNotes(root, quality), GroupStrings(g);
      AllTriadPositions(root, quality, g) ==
        StringScan(t, strings[0]) + StringScan(t, strings[1]) + StringScan(t, strings[2])
  {
    var t, strings := GetTriadNotes(root, quality), GroupStrings(g);
    GroupStringsAscending(g);
    assert GroupScan(t, strings, 1) == StringScan(t, strings[0]);
    assert GroupScan(t, strings, 2) == GroupScan(t, strings, 1) + StringScan(t, strings[1]);
  }

  function Count(b: bool): nat
  {
    if b then 1 else 0
  }

  /** Below fret `n` (at most 12) a string yields one position for each triad note whose
      lowest fret lies below `n`. */
  lemma {:induction false} FretScanCount(t: TriadNotes, s: nat, open: nat, n: nat)
    requires open < 12 && n <= 12 && Distinct(t)
    ensures |FretScan(t, s, open, n)| ==
      Count(FretAbove(open, t.root) < n) + Count(FretAbove(open, t.third) < n) +
      Count(FretAbove(open, t.fifth) < n)
  {
    if n > 0 {
      FretScanCount(t, s, open, n - 1);
      FretHitCount(t, s, open, n - 1);
    }
  }

  /** Below fret 12, a fret yields one position exactly when it is the lowest fret of a triad note. */
  lemma FretHitCount(t: TriadNotes, s: nat, open: nat, fret: nat)
    requires open < 12 && fret < 12 && Distinct(t)
    ensures |FretHit(t, s, open, fret)| ==
      Count(FretAbove(open, t.root) == fret) + Count(FretAbove(open, t.third) == fret) +
      Count(FretAbove(open, t.fifth) == fret)
  {
    SoundBelowTwelve(open, fret, t.root);
    SoundBelowTwelve(open, fret, t.third);
    SoundBelowTwelve(open, fret, t.fifth);
  }

  /** Fret 0 sounds the open string's own pitch class. */
  lemma SoundOpen(n: Note)
    ensures Sound(Semitone(n), 0) == n
  {
    NotesIndex(n);
  }

  /** Fret 12 sounds the same pitch class as the open string, an octave up. */
  lemma SoundOctave(open: nat)
    ensures Sound(open, 12) == Sound(open, 0)
  {
    assert (open + 12) % 12 == open % 12;
  }

  /** Frets 0..11 hold exactly one position per triad note. */
  lemma FretScanOctaveCount(t: TriadNotes, s: nat, open: nat)
    requires open < 12 && Distinct(t)
    ensures |FretScan(t, s, open, TopFret)| == 3
  {
    FretScanCount(t, s, open, TopFret);
  }

  /** Each string contributes three positions below fret 12, plus a fourth at fret 12
      exactly when the open string is a triad note; fret 12 repeats fret 0. */
  lemma StringScanShape(root: Note, quality: TriadQuality, s: nat)
    requires ValidString(s)
    ensures var t := GetTriadNotes(root, quality);
      var ps := StringScan(t, s);
      (|ps| == 3 || |ps| == 4) &&
      (|ps| == 4 <==> Classify(t, OpenString(s)).Some?) &&
      (forall note, role :: FretPosition(s, 0, note, role) in ps <==> FretPosition(s, 12, note, role) in ps)
  {
    var t := GetTriadNotes(root, quality);
    var open := Semitone(OpenString(s));
    var top := TopFret;
    TriadNotesDistinct(root, quality);
    FretScanOctaveCount(t, s, open);
    SoundOpen(OpenString(s));
    SoundOctave(open);
    var ps := StringScan(t, s);
    assert ps == FretScan(t, s, open, top) + FretHit(t, s, open, top);
    forall note, role
      ensures FretPosition(s, 0, note, role) in ps <==> FretPosition(s, 12, note, role) in ps
    {
      FretScanMembers(t, s, open, top + 1, FretPosition(s, 0, note, role));
      FretScanMembers(t, s, open, top + 1, FretPosition(s, top, note, role));
    }
  }

  /** An open string that sounds a triad note yields that note at fret 0 and again at
      fret 12, in its role; e.g. the open sixth string (E) is the root of E major. */
  lemma OpenStringPositions(root: Note, quality: TriadQuality, g: StringGroup, s: nat, role: Role)
    requires s in GroupStrings(g) && ValidString(s)
    ensures Classify(GetTriadNotes(root, quality), OpenString(s)) == Some(role) ==>
      FretPosition(s, 0, OpenString(s), role) in AllTriadPositions(root, quality, g) &&
      FretPosition(s, 12, OpenString(s), role) in AllTriadPositions(root, quality, g)
  {
    GroupStringsAscending(g);
    SoundOpen(OpenString(s));
    SoundOctave(Semitone(OpenString(s)));
    var t := GetTriadNotes(root, quality);
    TriadNotesDistinct(root, quality);
    ClassifyExact(t, OpenString(s), role);
    AllTriadPositionsMembers(root, quality, g, FretPosition(s, 0, OpenString(s), role));
    AllTriadPositionsMembers(root, quality, g, FretPosition(s, 12, OpenString(s), role));
  }

  // getInversionOrder and getTriadPositions

  datatype NoteRole = NoteRole(note: Note, role: Role)

  /** The role of the lowest note of a voicing in the given inversion. */
  function BassRole(inversion: Inversion): Role
  {
    match inversion
    case RootPosition => RootRole
    case FirstInversion => ThirdRole
    case SecondInversion => FifthRole
  }

  /** The next role upwards in close position: root, third, fifth, root again. */
  function NextRole(role: Role): Role
  {
    match role
    case RootRole => ThirdRole
    case ThirdRole => FifthRole
    case FifthRole => RootRole
  }

  /** The triad's notes from the lowest string upwards for the given inversion. */
  function GetInversionOrder(t: TriadNotes, inversion: Inversion): (order: seq<NoteRole>)
    ensures |order| == 3
    ensures order[0].role == BassRole(inversion)
    ensures forall i :: 0 <= i < 2 ==> order[i + 1].role == NextRole(order[i].role)
    ensures forall i :: 0 <= i < 3 ==> order[i].note == RoleNote(t, order[i].role)
  {
    var base := [NoteRole(t.root, RootRole), NoteRole(t.third, ThirdRole), NoteRole(t.fifth, FifthRole)];
    match inversion
    case RootPosition => base
    case FirstInversion => [base[1], base[2], base[0]]
    case SecondInversion => [base[2], base[0], base[1]]
  }

  /** Each role appears exactly once in an inversion order. */
  lemma InversionOrderRoles(t: TriadNotes, inversion: Inversion)
    ensures var order := GetInversionOrder(t, inversion);
      multiset{order[0].role, order[1].role, order[2].role} == multiset{RootRole, ThirdRole, FifthRole}
  {
    var order := GetInversionOrder(t, inversion);
    match inversion
    case RootPosition =>
    case FirstInversion =>
      assert order[0].role == ThirdRole && order[1].role == FifthRole && order[2].role == RootRole;
    case SecondInversion =>
      assert order[0].role == FifthRole && order[1].role == RootRole && order[2].role == ThirdRole;
  }

  /** The position of a note on string `s`: the lowest fret that sounds it. */
  function Place(s: nat, nr: NoteRole): FretPosition
    requires ValidString(s)
  {
    FretPosition(s, FretOf(s, nr.note), nr.note, nr.role)
  }

  /** What the string visited at `index` contributes: the note of `order` at that index,
      at its lowest fret, when the order has one. */
  function PlaceAt(s: nat, index: nat, order: seq<NoteRole>): seq<FretPosition>
    requires ValidString(s)
  {
    if index < |order| then [Place(s, order[index])] else []
  }

  /** The positions placed for the first k strings: the i-th string visited takes the
      i-th note of `order`, while the order has one. */
  function Placed(strings: seq<nat>, order: seq<NoteRole>, k: nat): seq<FretPosition>
    requires ValidStrings(strings) && k <= |strings|
  {
    if k == 0 then [] else Placed(strings, order, k - 1) + PlaceAt(strings[k - 1], k - 1, order)
  }

  /** One position per string of the group: the i-th string takes the i-th note of the
      inversion order, at the lowest fret that sounds it. */
  function TriadPositions(root: Note, quality: TriadQuality, inversion: Inversion, g: StringGroup)
    : seq<FretPosition>
  {
    var strings := GroupStrings(g);
    GroupStringsAscending(g);
    Placed(strings, GetInversionOrder(GetTriadNotes(root, quality), inversion), |strings|)
  }

  /** Assigns the inversion-ordered triad notes to the strings of the group, one fret each. */
  method GetTriadPositions(root: Note, quality: TriadQuality, inversion: Inversion, stringGroup: StringGroup)
    returns (positions: seq<FretPosition>)
    ensures positions == TriadPositions(root, quality, inversion, stringGroup)
  {
    var triadNotes := GetTriadNotes(root, quality);
    positions := [];
    var strings := GroupStrings(stringGroup);
    GroupStringsAscending(stringGroup);
    var noteOrder := GetInversionOrder(triadNotes, inversion);
    var index := 0;
    while index < |strings|
      invariant 0 <= index <= |strings|
      invariant positions == Placed(strings, noteOrder, index)
    {
      positions := PlaceString(strings[index], index, noteOrder, positions);
      index := index + 1;
    }
  }

  /** The per-string callback of the placement: appends the note of `noteOrder` at `index`
      on string `stringNum`, at the lowest fret that sounds it, when the order has one. */
  method PlaceString(stringNum: nat, index: nat, noteOrder: seq<NoteRole>, positions0: seq<FretPosition>)
    returns (positions: seq<FretPosition>)
    requires ValidString(stringNum)
    ensures positions == positions0 + PlaceAt(stringNum, index, noteOrder)
  {
    positions := positions0;
    if index < |noteOrder| {
      var targetNote := noteOrder[index].note;
      var stringRootSemitone := Semitone(OpenString(stringNum));
      var targetSemitone: int := Semitone(targetNote);
      var fret: int := (targetSemitone - stringRootSemitone + 12) % 12;
      if fret > 12 {
        fret := fret - 12;
      }
      positions := positions + [FretPosition(stringNum, fret, targetNote, noteOrder[index].role)];
    }
  }

  lemma {:induction false} PlacedEntries(strings: seq<nat>, order: seq<NoteRole>, k: nat)
    requires ValidStrings(strings) && k <= |strings| && k <= |order|
    ensures |Placed(strings, order, k)| == k
    ensures forall i :: 0 <= i < k ==> Placed(strings, order, k)[i] == Place(strings[i], order[i])
  {
    if k > 0 {
      PlacedEntries(strings, order, k - 1);
    }
  }

  /** `FretAbove(open, n)` is the lowest fret at which a string open at `open` sounds `n`. */
  lemma FretAboveLowest(open: nat, n: Note)
    requires open < 12
    ensures FretAbove(open, n) < 12 && Sound(open, FretAbove(open, n)) == n
    ensures forall f :: 0 <= f < FretAbove(open, n) ==> Sound(open, f) != n
  {
    SoundBelowTwelve(open, FretAbove(open, n), n);
    forall f | 0 <= f < FretAbove(open, n) ensures Sound(open, f) != n {
      SoundBelowTwelve(open, f, n);
    }
  }

  /** A placed note sits below fret 12, sounds there, and no lower fret on its string sounds it. */
  lemma PlaceLowest(s: nat, nr: NoteRole)
    requires ValidString(s)
    ensures var p := Place(s, nr);
      p.fret < TopFret && PitchAt(s, p.fret) == nr.note &&
      forall f :: 0 <= f < p.fret ==> PitchAt(s, f) != nr.note
  {
    FretAboveLowest(Semitone(OpenString(s)), nr.note);
  }

  /** The i-th position is the i-th note and role of the inversion order placed on the
      i-th string of the group (see PlaceLowest for what a placement is); each position is
      also one that the full search emits. */
  lemma TriadPositionsCorrect(root: Note, quality: TriadQuality, inversion: Inversion, g: StringGroup)
    ensures var ps, strings := TriadPositions(root, quality, inversion, g), GroupStrings(g);
      var order := GetInversionOrder(GetTriadNotes(root, quality), inversion);
      |ps| == 3 &&
      forall i :: 0 <= i < 3 ==>
        ps[i] == Place(strings[i], order[i]) && ps[i] in AllTriadPositions(root, quality, g)
  {
    var ps := TriadPositions(root, quality, inversion, g);
    var strings := GroupStrings(g);
    var order := GetInversionOrder(GetTriadNotes(root, quality), inversion);
    GroupStringsAscending(g);
    PlacedEntries(strings, order, 3);
    forall i | 0 <= i < 3
      ensures ps[i] in AllTriadPositions(root, quality, g)
    {
      PlaceSearched(root, quality, g, strings[i], order[i]);
    }
  }

  /** Placing a triad note on a string of the group gives a position the full search emits. */
  lemma PlaceSearched(root: Note, quality: TriadQuality, g: StringGroup, s: nat, nr: NoteRole)
    requires s in GroupStrings(g) && ValidString(s)
    requires nr.note == RoleNote(GetTriadNotes(root, quality), nr.role)
    ensures Place(s, nr) in AllTriadPositions(root, quality, g)
  {
    PlaceLowest(s, nr);
    AllTriadPositionsMembers(root, quality, g, Place(s, nr));
  }

  /** C major in root position on strings 3, 2, 1 under the table as indexed. */
  lemma CMajorRootPositionTopStrings()
    ensures TriadPositions(C, Major, RootPosition, S321) ==
      [FretPosition(1, 8, C, RootRole), FretPosition(2, 7, E, ThirdRole), FretPosition(3, 5, G, FifthRole)]
  {
  }

  /** The worked triads C major, A minor and B diminished. */
  lemma TriadExamples()
    ensures GetTriadNotes(C, Major) == TriadNotes(C, E, G)
    ensures GetTriadNotes(A, Minor) == TriadNotes(A, C, E)
    ensures GetTriadNotes(B, Diminished) == TriadNotes(B, D, F)
  {
  }
}
