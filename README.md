# Triads: a Dafny model of the guitar-triad trainer's core

The triad trainer quizzes a guitarist on three-note chords (triads) across a six-string
neck. This project models its core in Dafny and proves properties of that model:

- **Music theory engine** (`src/fretboard.ts`, module `Fretboard` in `fretboard.dfy`).
  This covers the pitch-class table and the tuning table. It covers triad construction
  (`getTriadNotes`) and the full search for triad notes over frets 0 to 12 of a string
  group (`getAllTriadPositions`). It also covers the inversion order (`getInversionOrder`)
  and the one-note-per-string voicing (`getTriadPositions`).
  - The two searching functions are imperative `method`s with loops. Their per-string
    callbacks are methods of their own. Each is proved equal to a recursive specification
    function.
  - The lemmas state what the source promises, in terms of those functions. The search
    is sound and complete. Its output is ordered by string and then by fret. Each string
    yields three or four positions, with fret 12 repeating fret 0. Each placed note sits
    at the lowest fret that sounds it, and is one of the positions the search finds.
- **Exercise store** (`src/store.ts`, module `Store` in `store.dfy`).
  - The zustand store is the class `AppStore`. Its fields are `settings`,
    `currentExercise` and `showAnswer`.
  - Its actions are `UpdateSettings`, a shallow merge; `GenerateNewExercise`, which
    draws one item per settings list; and `ToggleAnswer`.
  - `Math.random()` is a caller-supplied real in [0, 1).
- **Settings checkbox handler** (`handleCheckboxChange` in
  `src/components/SettingsPanel.tsx`, module `SettingsPanel` in `settings_panel.dfy`).
  A click removes the value from its list when present, or appends it when absent. The
  new list goes to the store as a one-field update.
- **Release script, pure parts** (`scripts/release.js`, module `Release` in
  `release.dfy`).
  - The release-type argument defaults to `minor` and is validated.
  - The `major.minor.patch` version is split, parsed and bumped following items 6 to 8
    of Semantic Versioning 2.0.0.
  - The new version's heading is inserted under the first `## [Unreleased]` of the
    changelog text.

`types.dfy` holds the value types of `src/types.ts`. `wrappers.dfy` holds `Option` and
`Result`.

The tuning is modelled as the code indexes it. String `n` takes entry `n - 1` of
`STANDARD_TUNING` (`['E', 'A', 'D', 'G', 'B', 'E']`), so strings 1 to 6 are tuned E, A,
D, G, B, E. The comment at `src/fretboard.ts:3` reads the table from
the sixth string to the first. That reading would make string 1 the high E
and string 6 the low E. The model follows the code: every fret and every example here
(such as `CMajorRootPositionTopStrings`) uses the table as indexed.

## Model

| member | source | states |
|---|---|---|
| Types.GroupTag | src/types.ts:4 | each string-group tag is three digits, each naming a string 1 to 6 |
| Fretboard.Semitone | src/fretboard.ts:7-10 | every pitch class lies 0 to 11 semitones above C |
| Fretboard.NotesSemitones | src/fretboard.ts:7-12 | entry i of the note list is the pitch class i semitones above C, so the list and the semitone map agree |
| Fretboard.NotesIndex | src/fretboard.ts:7-12 | every pitch class sits in the note list at the index of its own semitone count |
| Fretboard.SemitoneInjective | src/fretboard.ts:7-10 | two pitch classes have the same semitone count exactly when they are equal |
| Fretboard.NoteFromSemitone | src/fretboard.ts:14-16 | the result's semitone count is the argument modulo 12 (octave wrap-around) |
| Fretboard.AboveShift | src/fretboard.ts:14-16 | going up i semitones (i < 12) from a root lands on the note i semitones above it |
| Fretboard.GetTriadNotes | src/fretboard.ts:18-43 | the root is kept; the third and fifth lie the quality's interval in semitones above the root, modulo the octave |
| Fretboard.TriadIntervals | src/fretboard.ts:18-43 | the triad keeps its root; the third is 4 (major) or 3 (minor, diminished) semitones above it, and the fifth 7 (major, minor) or 6 (diminished) |
| Fretboard.TriadNotesDistinct | src/fretboard.ts:18-43 | root, third and fifth are three different pitch classes for every root and quality |
| Fretboard.TriadExamples | src/fretboard.ts:18-43 | C major is C E G, A minor is A C E, B diminished is B D F |
| Fretboard.Classify | src/fretboard.ts:67-88 | a note given a role is that role's note; a note gets no role exactly when it is none of root, third and fifth |
| Fretboard.ClassifyExact | src/fretboard.ts:67-88 | in a triad of distinct notes, the root-then-third-then-fifth test gives a note a role exactly when the note is that role's note |
| Fretboard.GroupStrings | src/fretboard.ts:54 | a group's reversed tag digits are three consecutive strings, ascending, within 1 to 6 |
| Fretboard.GroupStringsAscending | src/fretboard.ts:54 | a group's strings are valid string numbers in strictly ascending order |
| Fretboard.GroupStringsTable | src/fretboard.ts:54 | the groups 654, 543, 432 and 321 visit strings [4,5,6], [3,4,5], [2,3,4] and [1,2,3] |
| Fretboard.OpenStringIsTableEntry | src/fretboard.ts:58-59 | the open pitch of string n is entry n - 1 of the tuning table |
| Fretboard.Sound | src/fretboard.ts:63-64 | the note at a fret lies `open + fret` semitones above C, modulo the octave |
| Fretboard.PitchAt | src/fretboard.ts:58-64 | the note at a fret of string s lies `fret` semitones above the string's open pitch (entry s - 1 of the tuning table, by `OpenStringIsTableEntry`), modulo the octave |
| Fretboard.SoundAtFret | src/fretboard.ts:63-64 | a string sounds note n at a fret exactly when the fret is, modulo 12, the upward distance from the open pitch to n |
| Fretboard.PitchAtFret | src/fretboard.ts:58-64 | on each string, fret f sounds n exactly when f modulo 12 is that string's lowest fret for n |
| Fretboard.ScanString | src/fretboard.ts:57-90 | the per-string callback appends exactly that string's scan of frets 0 to 12, in fret order |
| Fretboard.GetAllTriadPositions | src/fretboard.ts:45-93 | the loop over the group's strings returns `AllTriadPositions`, the search of all the group's strings over frets 0 to 12 |
| Fretboard.AllTriadPositionsMembers | src/fretboard.ts:45-93 | a position is returned exactly when it is on a group string, at fret 0 to 12, sounds its note there, and that note plays its role in the triad (sound and complete) |
| Fretboard.AllTriadPositionsOrdered | src/fretboard.ts:57-90 | positions come by ascending string, then ascending fret, so no (string, fret) pair appears twice |
| Fretboard.AllTriadPositionsByString | src/fretboard.ts:54-90 | the result is the scans of the three strings concatenated, lowest string number first |
| Fretboard.FretScanCount | src/fretboard.ts:62-89 | below fret n (n at most 12), a string yields one position for each triad note whose lowest fret is below n |
| Fretboard.StringScanShape | src/fretboard.ts:62-89 | each string yields 3 or 4 positions; 4 exactly when the open string is a triad note; fret 12 repeats fret 0 |
| Fretboard.OpenStringPositions | src/fretboard.ts:62-89 | an open string that is a triad note appears at fret 0 and at fret 12 in that role, for example the open E string as root of E major |
| Fretboard.GetInversionOrder | src/fretboard.ts:136-151 | the order has three notes; its first role is the inversion's bass (root, third or fifth); each next role is the next one up in close position; each note is its role's note |
| Fretboard.InversionOrderRoles | src/fretboard.ts:136-151 | each inversion order is a permutation of root, third and fifth |
| Fretboard.PlaceString | src/fretboard.ts:113-131 | the callback appends the note at this index, on this string, at the fret the source computes (the dead `fret > 12` branch included), when the order has such a note |
| Fretboard.GetTriadPositions | src/fretboard.ts:95-134 | the loop over the group's strings returns `TriadPositions`, the one-note-per-string placement |
| Fretboard.PlacedEntries | src/fretboard.ts:113-131 | with k strings and notes, the placement has k positions; the i-th is note i of the order placed on string i |
| Fretboard.FretAboveLowest | src/fretboard.ts:121 | `(target - open + 12) % 12` is below 12, sounds the target, and no lower fret does |
| Fretboard.PlaceLowest | src/fretboard.ts:120-122 | a placed note lies below fret 12, sounds on its string there, and no lower fret on that string sounds it |
| Fretboard.TriadPositionsCorrect | src/fretboard.ts:95-134 | the voicing has three positions; the i-th is note i of the inversion order on string i of the group; each is also a position the full search returns |
| Fretboard.PlaceSearched | src/fretboard.ts:95-134 | placing a triad note on a string of the group gives a position the full search returns |
| Fretboard.CMajorRootPositionTopStrings | src/fretboard.ts:95-134 | C major, root position, group 321 is C at string 1 fret 8, E at string 2 fret 7, G at string 3 fret 5 |
| Store.DefaultSettingsContents | src/store.ts:13-18 | the defaults hold the seven natural roots, major and minor only, every inversion and every group, so an exercise can be drawn |
| Store.MergeSettings | src/store.ts:29-32 | each field named in the update replaces the current one; every field it leaves out is kept |
| Store.MergeEmpty | src/store.ts:29-32 | an empty update changes nothing |
| Store.MergeIdempotent | src/store.ts:29-32 | applying the same update twice equals applying it once |
| Store.MergeSequence | src/store.ts:29-32 | two updates in a row equal one update by the combined patch, the later one winning |
| Store.RandomIndex | src/store.ts:20-22 | `floor(r * len)` for r in [0, 1) is a valid index, and it is the floor |
| Store.RandomIndexReaches | src/store.ts:20-22 | every index is drawn by some r in [0, 1) |
| Store.GetRandomItem | src/store.ts:20-22 | an empty list yields no item (undefined); otherwise the item is a member of the list |
| Store.GetRandomItemReaches | src/store.ts:20-22 | every member of a list can be drawn |
| Store.DrawExercise | src/store.ts:34-43 | every field of the drawn exercise is in the matching settings list |
| Store.DrawExerciseReaches | src/store.ts:34-43 | every exercise whose fields are in the settings lists can be drawn |
| Store.AppStore.constructor | src/store.ts:24-27 | a fresh store has the default settings, no exercise and the answer hidden |
| Store.AppStore.UpdateSettings | src/store.ts:29-32 | settings become the merge of the old settings and the update; exercise and answer flag are unchanged |
| Store.AppStore.GenerateNewExercise | src/store.ts:34-43 | the exercise becomes the draw from the current settings; settings and answer flag are unchanged |
| Store.AppStore.ToggleAnswer | src/store.ts:45 | the answer flag flips; settings and exercise are unchanged |
| Store.ToggleAnswerTwice | src/store.ts:45 | toggling twice restores the whole store |
| Store.GenerateFromSettings | src/store.ts:34-43 | after generating, the store holds an exercise whose fields are in its settings lists |
| SettingsPanel.Without | src/components/SettingsPanel.tsx:21 | the filter drops every occurrence of the value and keeps every other value's count |
| SettingsPanel.WithoutAppend | src/components/SettingsPanel.tsx:21 | filtering distributes over concatenation, so the kept values stay in order |
| SettingsPanel.WithoutAbsent | src/components/SettingsPanel.tsx:21 | filtering out an absent value changes nothing |
| SettingsPanel.Toggle | src/components/SettingsPanel.tsx:20-22 | the value is in the new list exactly when it was not in the old one; every other value's membership is kept |
| SettingsPanel.ToggleShape | src/components/SettingsPanel.tsx:20-22 | unticking removes all occurrences and shortens the list by their number; ticking appends the value at the end |
| SettingsPanel.ToggleTwiceAbsent | src/components/SettingsPanel.tsx:20-22 | ticking then unticking an absent value restores the list |
| SettingsPanel.CheckboxPatch | src/components/SettingsPanel.tsx:24 | the update names the clicked category and no other |
| SettingsPanel.RootCheckboxUpdate | src/components/SettingsPanel.tsx:15-25 | a root click flips that root's membership, keeps every other root's, and leaves the other three lists unchanged |
| SettingsPanel.QualityCheckboxUpdate | src/components/SettingsPanel.tsx:15-25 | the same for a quality click |
| SettingsPanel.InversionCheckboxUpdate | src/components/SettingsPanel.tsx:15-25 | the same for an inversion click |
| SettingsPanel.StringGroupCheckboxUpdate | src/components/SettingsPanel.tsx:15-25 | the same for a string-group click |
| SettingsPanel.UntickLastRoot | src/components/SettingsPanel.tsx:15-25 | nothing prevents unticking the last root, after which no exercise can be drawn |
| SettingsPanel.HandleCheckboxChange | src/components/SettingsPanel.tsx:15-25 | the store's settings become the merge with the one-field update; exercise and answer flag are unchanged |
| Release.ParseReleaseType | scripts/release.js:6-11 | a missing or empty argument means minor; otherwise it succeeds exactly for patch, minor and major, naming that type, and fails with the script's message |
| Release.ParseReleaseName | scripts/release.js:8 | each release type is accepted under its own name |
| Release.Split | scripts/release.js:21 | splitting yields at least one piece, no piece contains the separator, and joining the pieces with it gives back the text |
| Release.ParseNat | scripts/release.js:21 | `Number` of a run of k digits is below 10^k |
| Release.ParseNatLeadingZero | scripts/release.js:21 | leading zeros do not change the value, as with `Number("01")` |
| Release.NatToString | scripts/release.js:26-32 | a number prints as a non-empty run of digits that starts with 0 only when the number is zero |
| Release.ParseNatToString | scripts/release.js:21-32 | reading back a printed number gives that number |
| Release.ParseVersion | scripts/release.js:21 | a version is read exactly when the text has at least three dot-separated pieces and the first three are digit runs |
| Release.FormatVersion | scripts/release.js:26-32 | the printed version splits at dots into exactly the three printed numbers |
| Release.ParseFormatVersion | scripts/release.js:21-34 | a printed version reads back as itself |
| Release.Bump | scripts/release.js:24-34 | major: major + 1 and the rest 0; minor: minor + 1 and patch 0; patch: patch + 1 (Semantic Versioning 2.0.0, items 6 to 8) |
| Release.BumpIncreases | scripts/release.js:24-34 | every bump gives a strictly greater version |
| Release.BumpIsNext | scripts/release.js:24-34 | the bump is the least greater version among those with the fields of its kind reset to zero |
| Release.NextVersion | scripts/release.js:21-34 | the new version text is exactly the bumped version's three numbers, dot-separated and without leading zeros, and reads back as that version |
| Release.PrepareVersion | scripts/release.js:6-34 | the script fails exactly when the argument is not a release type, with the script's message, whatever the version text; otherwise it yields the bumped version's exact text |
| Release.IndexFrom | scripts/release.js:58-61 | the result is the first occurrence of the pattern at or after the start, or none when there is none |
| Release.ReplaceFirst | scripts/release.js:58-61 | text without the pattern is returned unchanged; otherwise only the first occurrence is replaced, the text around it kept |
| Release.ChangelogWithRelease | scripts/release.js:58-61 | a changelog without `## [Unreleased]` is left unchanged; one with it grows by exactly one heading |
| Release.ChangelogFirstMarker | scripts/release.js:58-61 | the new heading goes right after the first marker only; the text before it and everything after, later markers included, is kept |
| Release.ReplaceKeepingPattern | scripts/release.js:58-61 | replacing the first occurrence of a pattern by the pattern plus extra text inserts that text right after the occurrence |

## Left out

- The React components' rendering (`App.tsx`, `SimpleApp.tsx`, the fretboard and exercise
  views, `RootSelectorWheel`, `StringGroupSlider`) and the rest of `SettingsPanel.tsx`.
  They display the state and trigger the store's own actions, which `AppStore` models:
  `App.tsx` and `SimpleApp.tsx` call `generateNewExercise` on load when there is no
  exercise, `SimpleApp.tsx` also from its "New Exercise" button, and both call
  `toggleAnswer`. Of the component code in use, only the checkbox handler computes a new
  settings value itself. `RootHistoryPane.tsx` (imported nowhere) reads and sets
  `sessionHistory`, `allowRepeatRoots` and `clearHistory`, which `src/store.ts` does not
  define; it is not part of this model.
- The zustand `create`, `set` and `get` plumbing and subscriber notification. The store
  is a plain class whose methods assign the fields that `set` would merge.
- `Math.random()` is not modelled as a source of randomness. Each draw is a parameter
  `r` with `0 <= r < 1`.
- Store.AppStore.GenerateNewExercise: requires every settings list to be non-empty. With
  an empty list the source stores `undefined` in that field of the exercise; the model
  has no such value. `GetRandomItem` itself handles the empty list (it yields `None`), and
  `UntickLastRoot` shows that the settings panel can empty a list.
- Fretboard.NoteFromSemitone: takes a non-negative semitone count. Every call in the
  source passes one; JavaScript's `%` on a negative number would index the note list out
  of range.
- Release.ParseVersion: reads only dot-separated digit runs. JavaScript's `Number`
  reads every JavaScript numeric literal: empty text (0), surrounding spaces, signs,
  fractions and exponents, `0x`/`0o`/`0b` prefixes (`Number("0x10")` is 16, so "0x1.2.3"
  bumps to "2.0.0" on a major release) and `Infinity`; it gives `NaN` only for text that
  is not such a literal; a missing third piece is `undefined`. The script still runs on such
  versions. A bad piece that the bump does not print is harmless there: "1.2.3-beta" or
  "1.2" give "2.0.0" on a major release and "1.3.0" on a minor one; only a patch bump
  prints `NaN`. These inputs are valid in the source and outside the model: `NextVersion`
  requires a readable version, and so does `PrepareVersion` once the argument is accepted.
- Release.NatToString: prints every number in decimal with unbounded integers.
  JavaScript numbers are doubles: `Number` loses integer precision above 2^53
  (`Number("9007199254740993")` is 9007199254740992, and 2^53 + 1 equals 2^53), so
  `BumpIncreases` does not hold of the script for such pieces; printing also switches to
  exponent notation at 10^21.
- Release.ChangelogWithRelease: treats the replacement text literally. JavaScript's
  `replace` would interpret `$` patterns in it; the replacement built from a version and
  an ISO date contains none.
- The version rewrite in `src/App.tsx` (a regular-expression replace) is not modelled,
  nor the progress messages.
- Reading and writing `package.json`, `src/App.tsx` and `CHANGELOG.md`, the existence
  checks, `process.exit` and the console are not modelled. The command-line argument,
  the current version text, the changelog text and today's date are parameters.
