/** The checkbox handler of src/components/SettingsPanel.tsx: ticking or unticking one
    value of one settings list, handed to the store as a one-field update. */
module SettingsPanel {
  import opened Types
  import opened Wrappers
  import opened Store

  /** `values.filter(v => v !== value)`: every occurrence of `value` dropped, order kept. */
  function Without<T(==,!new)>(values: seq<T>, value: T): (r: seq<T>)
    ensures value !in r
    ensures forall x :: x != value ==> multiset(r)[x] == multiset(values)[x]
  {
    if values == [] then []
    else
      assert values == [values[0]] + values[1..];
      (if values[0] == value then [] else [values[0]]) + Without(values[1..], value)
  }

  /** Filtering distributes over concatenation, so the kept values stay in their order. */
  lemma {:induction false} WithoutAppend<T(!new)>(a: seq<T>, b: seq<T>, value: T)
    ensures Without(a + b, value) == Without(a, value) + Without(b, value)
  {
    if a == [] {
      assert a + b == b;
    } else {
      assert (a + b)[1..] == a[1..] + b;
      WithoutAppend(a[1..], b, value);
    }
  }

  /** Filtering out a value that is not there changes nothing. */
  lemma {:induction false} WithoutAbsent<T(!new)>(values: seq<T>, value: T)
    requires value !in values
    ensures Without(values, value) == values
  {
    if values != [] {
      WithoutAbsent(values[1..], value);
      assert values == [values[0]] + values[1..];
    }
  }

  /** The new list for a checkbox click: drop the value when present, else append it. */
  function Toggle<T(==,!new)>(currentValues: seq<T>, value: T): (r: seq<T>)
    ensures value in r <==> value !in currentValues
    ensures forall x :: x != value ==> (x in r <==> x in currentValues)
  {
    if value in currentValues then
      var r := Without(currentValues, value);
      assert forall x :: x != value ==> (x in r <==> x in multiset(currentValues));
      r
    else currentValues + [value]
  }

  /** Unticking removes every occurrence and keeps the rest in order; ticking appends at the end. */
  lemma ToggleShape<T(!new)>(currentValues: seq<T>, value: T)
    ensures value in currentValues ==>
      Toggle(currentValues, value) == Without(currentValues, value) &&
      |Toggle(currentValues, value)| == |currentValues| - multiset(currentValues)[value]
    ensures value !in currentValues ==> Toggle(currentValues, value) == currentValues + [value]
  {
    if value in currentValues {
      var r := Without(currentValues, value);
      var m := multiset(currentValues);
      assert multiset(r) == m[value := 0] by {
        forall x ensures multiset(r)[x] == m[value := 0][x] { }
      }
      assert |multiset(r)| == |m| - m[value];
    }
  }

  /** Ticking an unticked value and then unticking it again gives back the original list. */
  lemma ToggleTwiceAbsent<T(!new)>(currentValues: seq<T>, value: T)
    requires value !in currentValues
    ensures Toggle(Toggle(currentValues, value), value) == currentValues
  {
    WithoutAppend(currentValues, [value], value);
    WithoutAbsent(currentValues, value);
    assert Without([value], value) == [];
  }

  /** One checkbox click: the category clicked, the value and the category's current list. */
  datatype CheckboxChange =
    | RootChange(root: Note, currentRoots: seq<Note>)
    | QualityChange(quality: TriadQuality, currentQualities: seq<TriadQuality>)
    | InversionChange(inversion: Inversion, currentInversions: seq<Inversion>)
    | StringGroupChange(stringGroup: StringGroup, currentStringGroups: seq<StringGroup>)

  /** `{ [category]: newValues }`: an update naming the clicked category only. */
  function CheckboxPatch(change: CheckboxChange): (patch: SettingsPatch)
    ensures change.RootChange? <==> patch.roots.Some?
    ensures change.QualityChange? <==> patch.qualities.Some?
    ensures change.InversionChange? <==> patch.inversions.Some?
    ensures change.StringGroupChange? <==> patch.stringGroups.Some?
  {
    match change
    case RootChange(v, current) => SettingsPatch(Some(Toggle(current, v)), None, None, None)
    case QualityChange(v, current) => SettingsPatch(None, Some(Toggle(current, v)), None, None)
    case InversionChange(v, current) => SettingsPatch(None, None, Some(Toggle(current, v)), None)
    case StringGroupChange(v, current) => SettingsPatch(None, None, None, Some(Toggle(current, v)))
  }

  /** Clicking a root checkbox, with the store's own root list as the current list, flips
      that root's membership, keeps every other root's, and leaves the other lists alone. */
  lemma RootCheckboxUpdate(settings: ExerciseSettings, root: Note)
    ensures var r := MergeSettings(settings, CheckboxPatch(RootChange(root, settings.roots)));
      (root in r.roots <==> root !in settings.roots) &&
      (forall n :: n != root ==> (n in r.roots <==> n in settings.roots)) &&
      r.qualities == settings.qualities && r.inversions == settings.inversions &&
      r.stringGroups == settings.stringGroups
  {
  }

  /** The same for a quality checkbox. */
  lemma QualityCheckboxUpdate(settings: ExerciseSettings, quality: TriadQuality)
    ensures var r := MergeSettings(settings, CheckboxPatch(QualityChange(quality, settings.qualities)));
      (quality in r.qualities <==> quality !in settings.qualities) &&
      (forall q :: q != quality ==> (q in r.qualities <==> q in settings.qualities)) &&
      r.roots == settings.roots && r.inversions == settings.inversions &&
      r.stringGroups == settings.stringGroups
  {
  }

  /** The same for an inversion checkbox. */
  lemma InversionCheckboxUpdate(settings: ExerciseSettings, inversion: Inversion)
    ensures var r := MergeSettings(settings, CheckboxPatch(InversionChange(inversion, settings.inversions)));
      (inversion in r.inversions <==> inversion !in settings.inversions) &&
      (forall i :: i != inversion ==> (i in r.inversions <==> i in settings.inversions)) &&
      r.roots == settings.roots && r.qualities == settings.qualities &&
      r.stringGroups == settings.stringGroups
  {
  }

  /** The same for a string-group checkbox. */
  lemma StringGroupCheckboxUpdate(settings: ExerciseSettings, g: StringGroup)
    ensures var r := MergeSettings(settings, CheckboxPatch(StringGroupChange(g, settings.stringGroups)));
      (g in r.stringGroups <==> g !in settings.stringGroups) &&
      (forall h :: h != g ==> (h in r.stringGroups <==> h in settings.stringGroups)) &&
      r.roots == settings.roots && r.qualities == settings.qualities &&
      r.inversions == settings.inversions
  {
  }

  /** Nothing stops the last root from being unticked, after which no exercise can be drawn. */
  lemma UntickLastRoot(settings: ExerciseSettings, root: Note)
    requires settings.roots == [root]
    ensures var r := MergeSettings(settings, CheckboxPatch(RootChange(root, settings.roots)));
      r.roots == [] && !CanDraw(r)
  {
    assert Without([root], root) == [];
  }

  /** The handler: computes the toggled list and hands the one-field update to the store. */
  method HandleCheckboxChange(store: AppStore, change: CheckboxChange)
    modifies store
    ensures store.settings == MergeSettings(old(store.settings), CheckboxPatch(change))
    ensures store.currentExercise == old(store.currentExercise)
    ensures store.showAnswer == old(store.showAnswer)
  {
    store.UpdateSettings(CheckboxPatch(change));
  }
}
