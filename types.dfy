/** The value types of src/types.ts. */
module Types {
  /** The twelve pitch classes, spelled with sharps (`Cs` is C#). */
  datatype Note = C | Cs | D | Ds | E | F | Fs | G | Gs | A | As | B

  datatype TriadQuality = Major | Minor | Diminished

  datatype Inversion = RootPosition | FirstInversion | SecondInversion

  /** The four three-string groups, named by their tags '654', '543', '432', '321'. */
  datatype StringGroup = S654 | S543 | S432 | S321

  /** The harmonic role a note plays in a triad. */
  datatype Role = RootRole | ThirdRole | FifthRole

  datatype TriadNotes = TriadNotes(root: Note, third: Note, fifth: Note)

  /** One place to press: string number, fret number, the note sounded and its role. */
  datatype FretPosition = FretPosition(stringNum: nat, fret: nat, note: Note, role: Role)

  datatype TriadExercise = TriadExercise(
    root: Note, quality: TriadQuality, inversion: Inversion, stringGroup: StringGroup)

  datatype ExerciseSettings = ExerciseSettings(
    roots: seq<Note>,
    qualities: seq<TriadQuality>,
    inversions: seq<Inversion>,
    stringGroups: seq<StringGroup>)

  /** The string tag of a group, as the source spells it. */
  function GroupTag(g: StringGroup): (tag: string)
    ensures |tag| == 3
    ensures forall i :: 0 <= i < 3 ==> '1' <= tag[i] <= '6'
  {
    match g
    case S654 => "654"
    case S543 => "543"
    case S432 => "432"
    case S321 => "321"
  }
}
