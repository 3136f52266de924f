/** The exercise state holder of src/store.ts: the settings, the current exercise and
    whether the answer is shown, with the actions that change them. */
module Store {
  import opened Types
  import opened Wrappers

  /** The settings a fresh store starts with. */
  const DefaultSettings: ExerciseSettings := ExerciseSettings(
    [C, D, E, F, G, A, B],
    [Major, Minor],
    [RootPosition, FirstInversion, SecondInversion],
    [S654, S543, S432, S321])

  /** The default settings hold the seven natural roots, major and minor, every inversion
      and every string group, so every list can be drawn from. */
  lemma DefaultSettingsContents()
    ensures CanDraw(DefaultSettings)
    ensures forall n :: n in DefaultSettings.roots <==> n in {C, D, E, F, G, A, B}
    ensures forall q :: q in DefaultSettings.qualities <==> q != Diminished
    ensures forall i :: i in DefaultSettings.inversions
    ensures forall g :: g in DefaultSettings.stringGroups
  {
    forall q ensures q in DefaultSettings.qualities <==> q != Diminished {
      assert DefaultSettings.qualities == [Major, Minor];
    }
    forall i ensures i in DefaultSettings.inversions {
      match i
      case RootPosition => assert DefaultSettings.inversions[0] == i;
      case FirstInversion => assert DefaultSettings.inversions[1] == i;
      case SecondInversion => assert DefaultSettings.inversions[2] == i;
    }
    forall g ensures g in DefaultSettings.stringGroups {
      match g
      case S654 => assert DefaultSettings.stringGroups[0] == g;
      case S543 => assert DefaultSettings.stringGroups[1] == g;
      case S432 => assert DefaultSettings.stringGroups[2] == g;
      case S321 => assert DefaultSettings.stringGroups[3] == g;
    }
  }

  // updateSettings

  /** A partial settings object: `None` where the update leaves a field out. */
  datatype SettingsPatch = SettingsPatch(
    roots: Option<seq<Note>>,
    qualities: Option<seq<TriadQuality>>,
    inversions: Option<seq<Inversion>>,
    stringGroups: Option<seq<StringGroup>>)

  const EmptyPatch: SettingsPatch := SettingsPatch(None, None, None, None)

  /** The field as the spread leaves it: the update's value when it has one. */
  function Pick<T>(current: T, update: Option<T>): T
  {
    match update
    case Some(v) => v
    case None => current
  }

  /** `{ ...settings, ...patch }`: every field present in the patch replaces the current one. */
  function MergeSettings(settings: ExerciseSettings, patch: SettingsPatch): (r: ExerciseSettings)
    ensures patch.roots.Some? ==> r.roots == patch.roots.value
    ensures patch.roots.None? ==> r.roots == settings.roots
    ensures patch.qualities.Some? ==> r.qualities == patch.qualities.value
    ensures patch.qualities.None? ==> r.qualities == settings.qualities
    ensures patch.inversions.Some? ==> r.inversions == patch.inversions.value
    ensures patch.inversions.None? ==> r.inversions == settings.inversions
    ensures patch.stringGroups.Some? ==> r.stringGroups == patch.stringGroups.value
    ensures patch.stringGroups.None? ==> r.stringGroups == settings.stringGroups
  {
    ExerciseSettings(
      Pick(settings.roots, patch.roots),
      Pick(settings.qualities, patch.qualities),
      Pick(settings.inversions, patch.inversions),
      Pick(settings.stringGroups, patch.stringGroups))
  }

  /** `{ ...p, ...q }`: the later patch wins where both have a field. */
  function CombinePatches(p: SettingsPatch, q: SettingsPatch): SettingsPatch
  {
    SettingsPatch(
      if q.roots.Some? then q.roots else p.roots,
      if q.qualities.Some? then q.qualities else p.qualities,
      if q.inversions.Some? then q.inversions else p.inversions,
      if q.stringGroups.Some? then q.stringGroups else p.stringGroups)
  }

  /** An empty update changes nothing. */
  lemma MergeEmpty(settings: ExerciseSettings)
    ensures MergeSettings(settings, EmptyPatch) == settings
  {
  }

  /** Applying the same update twice is the same as applying it once. */
  lemma MergeIdempotent(settings: ExerciseSettings, patch: SettingsPatch)
    ensures MergeSettings(MergeSettings(settings, patch), patch) == MergeSettings(settings, patch)
  {
  }

  /** Two updates in a row are one update by the combined patch. */
  lemma MergeSequence(settings: ExerciseSettings, p: SettingsPatch, q: SettingsPatch)
    ensures MergeSettings(MergeSettings(settings, p), q) == MergeSettings(settings, CombinePatches(p, q))
  {
  }

  // getRandomItem

  /** `Math.floor(r * len)` for a draw `r` of `Math.random`, which lies in [0, 1). */
  function RandomIndex(len: nat, r: real): (i: nat)
    requires 0 < len && 0.0 <= r < 1.0
    ensures i < len
    ensures i as real <= r * len as real < (i + 1) as real
  {
    FloorBelow(len, r);
    (r * len as real).Floor
  }

  lemma FloorBelow(len: nat, r: real)
    requires 0 < len && 0.0 <= r < 1.0
    ensures 0.0 <= r * len as real < len as real
  {
    assert r * len as real <= 1.0 * len as real - (1.0 - r) * len as real;
  }

  /** Every index can be drawn: the draw `i / len` picks index `i`. */
  lemma RandomIndexReaches(len: nat, i: nat)
    requires i < len
    ensures var r := i as real / len as real;
      0.0 <= r < 1.0 && RandomIndex(len, r) == i
  {
    var r := i as real / len as real;
    assert r * len as real == i as real;
    assert r < 1.0 by {
      assert r * len as real < len as real;
    }
  }

  /** `array[Math.floor(Math.random() * array.length)]`; an empty array yields `undefined`. */
  function GetRandomItem<T>(items: seq<T>, r: real): (x: Option<T>)
    requires 0.0 <= r < 1.0
    ensures x.None? <==> |items| == 0
    ensures x.Some? ==> x.value in items
  {
    if |items| == 0 then None else Some(items[RandomIndex(|items|, r)])
  }

  /** Every item of a non-empty list can be drawn. */
  lemma GetRandomItemReaches<T>(items: seq<T>, x: T)
    requires x in items
    ensures exists r: real :: 0.0 <= r < 1.0 && GetRandomItem(items, r) == Some(x)
  {
    var i :| 0 <= i < |items| && items[i] == x;
    RandomIndexReaches(|items|, i);
    var r := i as real / |items| as real;
    assert GetRandomItem(items, r) == Some(x);
  }

  // generateNewExercise

  /** Whether every settings list has an item to draw. */
  predicate CanDraw(settings: ExerciseSettings)
  {
    |settings.roots| > 0 && |settings.qualities| > 0 &&
    |settings.inversions| > 0 && |settings.stringGroups| > 0
  }

  predicate IsDraw(r: real)
  {
    0.0 <= r < 1.0
  }

  /** The exercise drawn from the settings, one `Math.random` draw per field. */
  function DrawExercise(settings: ExerciseSettings, rRoot: real, rQuality: real, rInversion: real, rGroup: real)
    : (ex: TriadExercise)
    requires CanDraw(settings)
    requires IsDraw(rRoot) && IsDraw(rQuality) && IsDraw(rInversion) && IsDraw(rGroup)
    ensures ex.root in settings.roots && ex.quality in settings.qualities
    ensures ex.inversion in settings.inversions && ex.stringGroup in settings.stringGroups
  {
    TriadExercise(
      GetRandomItem(settings.roots, rRoot).value,
      GetRandomItem(settings.qualities, rQuality).value,
      GetRandomItem(settings.inversions, rInversion).value,
      GetRandomItem(settings.stringGroups, rGroup).value)
  }

  /** Every exercise whose four fields are in the settings lists can be drawn. */
  lemma DrawExerciseReaches(settings: ExerciseSettings, ex: TriadExercise)
    requires ex.root in settings.roots && ex.quality in settings.qualities
    requires ex.inversion in settings.inversions && ex.stringGroup in settings.stringGroups
    ensures exists rRoot: real, rQuality: real, rInversion: real, rGroup: real ::
      IsDraw(rRoot) && IsDraw(rQuality) && IsDraw(rInversion) && IsDraw(rGroup) &&
      DrawExercise(settings, rRoot, rQuality, rInversion, rGroup) == ex
  {
    GetRandomItemReaches(settings.roots, ex.root);
    var rRoot: real :| 0.0 <= rRoot < 1.0 && GetRandomItem(settings.roots, rRoot) == Some(ex.root);
    GetRandomItemReaches(settings.qualities, ex.quality);
    var rQuality: real :| 0.0 <= rQuality < 1.0 && GetRandomItem(settings.qualities, rQuality) == Some(ex.quality);
    GetRandomItemReaches(settings.inversions, ex.inversion);
    var rInversion: real :| 0.0 <= rInversion < 1.0 && GetRandomItem(settings.inversions, rInversion) == Some(ex.inversion);
    GetRandomItemReaches(settings.stringGroups, ex.stringGroup);
    var rGroup: real :| 0.0 <= rGroup < 1.0 && GetRandomItem(settings.stringGroups, rGroup) == Some(ex.stringGroup);
    assert DrawExercise(settings, rRoot, rQuality, rInversion, rGroup) == ex;
  }

  /** The store: its three fields and the three actions that overwrite them. */
  class AppStore {
    var settings: ExerciseSettings
    var currentExercise: Option<TriadExercise>
    var showAnswer: bool

    constructor ()
      ensures settings == DefaultSettings
      ensures currentExercise == None
      ensures !showAnswer
    {
      settings := DefaultSettings;
      currentExercise := None;
      showAnswer := false;
    }

    /** Merges a partial settings object into the settings; nothing else changes. */
    method UpdateSettings(newSettings: SettingsPatch)
      modifies this
      ensures settings == MergeSettings(old(settings), newSettings)
      ensures currentExercise == old(currentExercise) && showAnswer == old(showAnswer)
    {
      settings := MergeSettings(settings, newSettings);
    }

    /** Draws a new exercise from the current settings; only the exercise changes. */
    method GenerateNewExercise(rRoot: real, rQuality: real, rInversion: real, rGroup: real)
      requires CanDraw(settings)
      requires IsDraw(rRoot) && IsDraw(rQuality) && IsDraw(rInversion) && IsDraw(rGroup)
      modifies this
      ensures settings == old(settings) && showAnswer == old(showAnswer)
      ensures currentExercise == Some(DrawExercise(settings, rRoot, rQuality, rInversion, rGroup))
    {
      var exercise := TriadExercise(
        GetRandomItem(settings.roots, rRoot).value,
        GetRandomItem(settings.qualities, rQuality).value,
        GetRandomItem(settings.inversions, rInversion).value,
        GetRandomItem(settings.stringGroups, rGroup).value);
      currentExercise := Some(exercise);
    }

    /** Flips whether the answer is shown; nothing else changes. */
    method ToggleAnswer()
      modifies this
      ensures showAnswer == !old(showAnswer)
      ensures settings == old(settings) && currentExercise == old(currentExercise)
    {
      showAnswer := !showAnswer;
    }
  }

  /** Toggling the answer twice restores the whole store. */
  method ToggleAnswerTwice(store: AppStore)
    modifies store
    ensures store.showAnswer == old(store.showAnswer)
    ensures store.settings == old(store.settings)
    ensures store.currentExercise == old(store.currentExercise)
  {
    store.ToggleAnswer();
    store.ToggleAnswer();
  }

  /** After a new exercise is drawn, each of its fields is in the matching settings list. */
  method GenerateFromSettings(store: AppStore, rRoot: real, rQuality: real, rInversion: real, rGroup: real)
    requires CanDraw(store.settings)
    requires IsDraw(rRoot) && IsDraw(rQuality) && IsDraw(rInversion) && IsDraw(rGroup)
    modifies store
    ensures store.currentExercise.Some?
    ensures var ex := store.currentExercise.value;
      ex.root in store.settings.roots && ex.quality in store.settings.qualities &&
      ex.inversion in store.settings.inversions && ex.stringGroup in store.settings.stringGroups
  {
    store.GenerateNewExercise(rRoot, rQuality, rInversion, rGroup);
  }
}
