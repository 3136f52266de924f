/** The pure computations of scripts/release.js: choosing the release type, bumping the
    version string, and inserting the new version's heading into the changelog text. */
module Release {
  import opened Wrappers

  // Release type (scripts/release.js:6-11)

  datatype ReleaseType = Patch | Minor | Major

  function ReleaseName(t: ReleaseType): string
  {
    match t
    case Patch => "patch"
    case Minor => "minor"
    case Major => "major"
  }

  const InvalidReleaseType: string := "❌ Invalid release type. Use: patch, minor, or major"

  /** `process.argv[2] || 'minor'`, then the check against the three names: a missing or
      empty argument means a minor release, and any other word is refused. */
  function ParseReleaseType(arg: Option<string>): (r: Result<ReleaseType, string>)
    ensures (arg.None? || arg.value == "") ==> r == Success(Minor)
    ensures arg.Some? && arg.value != "" ==>
      (r.Success? <==> arg.value in {"patch", "minor", "major"})
    ensures r.Success? && arg.Some? && arg.value != "" ==> ReleaseName(r.value) == arg.value
    ensures r.Failure? ==> r.error == InvalidReleaseType
  {
    var name := if arg.None? || arg.value == "" then "minor" else arg.value;
    if name == "patch" then Success(Patch)
    else if name == "minor" then Success(Minor)
    else if name == "major" then Success(Major)
    else Failure(InvalidReleaseType)
  }

  /** Each release type is selected by its own name. */
  lemma ParseReleaseName(t: ReleaseType)
    ensures ParseReleaseType(Some(ReleaseName(t))) == Success(t)
  {
  }

  // Version parse and bump (scripts/release.js:21-34)

  datatype Version = Version(major: nat, minor: nat, patch: nat)

  /** `s.split(sep)`: the pieces between separators, empty pieces included. */
  function Split(s: string, sep: char): (parts: seq<string>)
    ensures |parts| >= 1
    ensures forall i :: 0 <= i < |parts| ==> sep !in parts[i]
    ensures Join(parts, sep) == s
  {
    if s == [] then [""]
    else
      var rest := Split(s[1..], sep);
      if s[0] == sep then
        JoinCons("", rest, sep);
        [""] + rest
      else if |rest| == 1 then
        [[s[0]] + rest[0]]
      else
        JoinCons([s[0]] + rest[0], rest[1..], sep);
        JoinHead(rest, sep);
        [[s[0]] + rest[0]] + rest[1..]
  }

  /** The pieces joined back with the separator between them. */
  function Join(parts: seq<string>, sep: char): string
    requires |parts| >= 1
  {
    if |parts| == 1 then parts[0] else parts[0] + [sep] + Join(parts[1..], sep)
  }

  lemma JoinCons(head: string, tail: seq<string>, sep: char)
    requires |tail| >= 1
    ensures Join([head] + tail, sep) == head + [sep] + Join(tail, sep)
  {
    assert ([head] + tail)[1..] == tail;
  }

  lemma JoinHead(parts: seq<string>, sep: char)
    requires |parts| >= 1
    ensures |parts| == 1 ==> Join(parts, sep) == parts[0]
    ensures |parts| > 1 ==> Join(parts, sep) == parts[0] + [sep] + Join(parts[1..], sep)
  {
  }

  /** Splitting text that starts with a separator-free piece and a separator yields that
      piece first. */
  lemma {:induction false} SplitAfterPiece(a: string, b: string, sep: char)
    requires sep !in a
    ensures Split(a + [sep] + b, sep) == [a] + Split(b, sep)
  {
    if a == [] {
      assert a + [sep] + b == [sep] + b;
      assert ([sep] + b)[1..] == b;
    } else {
      assert (a + [sep] + b)[1..] == a[1..] + [sep] + b;
      SplitAfterPiece(a[1..], b, sep);
      assert [a[0]] + a[1..] == a;
    }
  }

  /** Splitting a separator-free piece yields that piece alone. */
  lemma {:induction false} SplitPiece(a: string, sep: char)
    requires sep !in a
    ensures Split(a, sep) == [a]
  {
    if a != [] {
      SplitPiece(a[1..], sep);
      assert [a[0]] + a[1..] == a;
    }
  }

  predicate IsDigit(c: char)
  {
    '0' <= c <= '9'
  }

  /** A non-empty run of decimal digits. */
  predicate IsDigits(s: string)
  {
    |s| > 0 && forall i :: 0 <= i < |s| ==> IsDigit(s[i])
  }

  function DigitValue(c: char): nat
    requires IsDigit(c)
  {
    (c as int - '0' as int) as nat
  }

  function DigitChar(d: nat): (c: char)
    requires d < 10
    ensures IsDigit(c) && DigitValue(c) == d
  {
    ('0' as int + d) as char
  }

  function Pow10(k: nat): (p: nat)
    ensures p >= 1
  {
    if k == 0 then 1 else 10 * Pow10(k - 1)
  }

  /** `Number(s)` on a run of decimal digits: its value, leading zeros allowed; k digits
      denote a number below 10^k. */
  function ParseNat(s: string): (n: nat)
    requires forall i :: 0 <= i < |s| ==> IsDigit(s[i])
    ensures n < Pow10(|s|)
  {
    if |s| == 0 then 0
    else
      var high := ParseNat(s[..|s| - 1]);
      assert high * 10 + DigitValue(s[|s| - 1]) < Pow10(|s|) by {
        assert high + 1 <= Pow10(|s| - 1);
        assert (high + 1) * 10 <= Pow10(|s| - 1) * 10;
      }
      high * 10 + DigitValue(s[|s| - 1])
  }

  /** Leading zeros do not change the value, as with `Number("01")`. */
  lemma {:induction false} ParseNatLeadingZero(s: string)
    requires forall i :: 0 <= i < |s| ==> IsDigit(s[i])
    ensures ParseNat(['0'] + s) == ParseNat(s)
  {
    var z := ['0'] + s;
    if |s| > 0 {
      assert z[..|z| - 1] == ['0'] + s[..|s| - 1];
      ParseNatLeadingZero(s[..|s| - 1]);
    } else {
      assert z[..|z| - 1] == [];
    }
  }

  /** A number in a template literal: its decimal digits, without leading zeros. */
  function NatToString(n: nat): (s: string)
    ensures IsDigits(s)
    ensures s[0] == '0' <==> n == 0
  {
    if n < 10 then [DigitChar(n)] else NatToString(n / 10) + [DigitChar(n % 10)]
  }

  /** Reading back a printed number gives the number. */
  lemma {:induction false} ParseNatToString(n: nat)
    ensures ParseNat(NatToString(n)) == n
  {
    var s := NatToString(n);
    if n >= 10 {
      ParseNatToString(n / 10);
      assert s[..|s| - 1] == NatToString(n / 10);
    }
  }

  /** `currentVersion.split('.').map(Number)` destructured into its first three numbers;
      `None` when one of them is not a run of decimal digits, a case the model leaves out. */
  function ParseVersion(s: string): (v: Option<Version>)
    ensures v.Some? <==> var parts := Split(s, '.');
      |parts| >= 3 && IsDigits(parts[0]) && IsDigits(parts[1]) && IsDigits(parts[2])
  {
    var parts := Split(s, '.');
    if |parts| >= 3 && IsDigits(parts[0]) && IsDigits(parts[1]) && IsDigits(parts[2]) then
      Some(Version(ParseNat(parts[0]), ParseNat(parts[1]), ParseNat(parts[2])))
    else None
  }

  /** `${major}.${minor}.${patch}`: exactly three pieces, each a number's digits. */
  function FormatVersion(v: Version): (text: string)
    ensures Split(text, '.') == [NatToString(v.major), NatToString(v.minor), NatToString(v.patch)]
  {
    var a, b, c := NatToString(v.major), NatToString(v.minor), NatToString(v.patch);
    assert '.' !in a && '.' !in b && '.' !in c;
    var text := a + "." + b + "." + c;
    assert text == a + ['.'] + (b + ['.'] + c);
    SplitAfterPiece(a, b + ['.'] + c, '.');
    SplitAfterPiece(b, c, '.');
    SplitPiece(c, '.');
    text
  }

  /** A printed version reads back as itself. */
  lemma ParseFormatVersion(v: Version)
    ensures ParseVersion(FormatVersion(v)) == Some(v)
  {
    ParseNatToString(v.major);
    ParseNatToString(v.minor);
    ParseNatToString(v.patch);
  }

  /** The `switch (releaseType)`: items 6 to 8 of Semantic Versioning 2.0.0. */
  function Bump(v: Version, t: ReleaseType): (w: Version)
    ensures t == Major ==> w.major == v.major + 1 && w.minor == 0 && w.patch == 0
    ensures t == Minor ==> w.major == v.major && w.minor == v.minor + 1 && w.patch == 0
    ensures t == Patch ==> w.major == v.major && w.minor == v.minor && w.patch == v.patch + 1
  {
    match t
    case Major => Version(v.major + 1, 0, 0)
    case Minor => Version(v.major, v.minor + 1, 0)
    case Patch => Version(v.major, v.minor, v.patch + 1)
  }

  /** Version precedence on (major, minor, patch), compared left to right. */
  predicate Less(a: Version, b: Version)
  {
    a.major < b.major ||
    (a.major == b.major && a.minor < b.minor) ||
    (a.major == b.major && a.minor == b.minor && a.patch < b.patch)
  }

  /** The fields a release of this type resets to zero are zero. */
  predicate ResetFor(t: ReleaseType, w: Version)
  {
    match t
    case Patch => true
    case Minor => w.patch == 0
    case Major => w.minor == 0 && w.patch == 0
  }

  /** Every bump moves strictly forward. */
  lemma BumpIncreases(v: Version, t: ReleaseType)
    ensures Less(v, Bump(v, t))
  {
  }

  /** The bump is the least version above the current one among those that reset the
      fields of its kind: no such version lies strictly between the two. */
  lemma BumpIsNext(v: Version, t: ReleaseType, w: Version)
    requires Less(v, w) && ResetFor(t, w)
    ensures w == Bump(v, t) || Less(Bump(v, t), w)
  {
  }

  /** The version text after the release: the bumped version of the current one, printed
      as exactly three dot-separated numbers without leading zeros. */
  function NextVersion(t: ReleaseType, currentVersion: string): (r: string)
    requires ParseVersion(currentVersion).Some?
    ensures var w := Bump(ParseVersion(currentVersion).value, t);
      Split(r, '.') == [NatToString(w.major), NatToString(w.minor), NatToString(w.patch)] &&
      ParseVersion(r) == Some(w)
  {
    var w := Bump(ParseVersion(currentVersion).value, t);
    ParseFormatVersion(w);
    FormatVersion(w)
  }

  /** The release-type check first, then the new version: an argument that is not a
      release type stops the script before any version is read. */
  function PrepareVersion(arg: Option<string>, currentVersion: string): (r: Result<string, string>)
    requires ParseReleaseType(arg).Success? ==> ParseVersion(currentVersion).Some?
    ensures r.Failure? <==> ParseReleaseType(arg).Failure?
    ensures r.Failure? ==> r.error == InvalidReleaseType
    ensures r.Success? ==>
      var w := Bump(ParseVersion(currentVersion).value, ParseReleaseType(arg).value);
      Split(r.value, '.') == [NatToString(w.major), NatToString(w.minor), NatToString(w.patch)] &&
      ParseVersion(r.value) == Some(w)
  {
    match ParseReleaseType(arg)
    case Failure(e) => Failure(e)
    case Success(t) => Success(NextVersion(t, currentVersion))
  }

  // Changelog insertion (scripts/release.js:57-61)

  const UnreleasedMarker: string := "## [Unreleased]"

  /** Whether `pattern` occurs in `text` starting at index `i`. */
  predicate OccursAt(text: string, pattern: string, i: nat)
  {
    i + |pattern| <= |text| && text[i..i + |pattern|] == pattern
  }

  /** `pattern` occurs at `i` and nowhere before it. */
  predicate FirstAt(text: string, pattern: string, i: nat)
  {
    OccursAt(text, pattern, i) && forall j :: 0 <= j < i ==> !OccursAt(text, pattern, j)
  }

  /** `pattern` occurs nowhere in `text`. */
  predicate Absent(text: string, pattern: string)
  {
    forall j :: 0 <= j <= |text| ==> !OccursAt(text, pattern, j)
  }

  /** The first index at or after `from` where `pattern` occurs, if any. */
  function IndexFrom(text: string, pattern: string, from: nat): (r: Option<nat>)
    requires from <= |text|
    ensures r.Some? ==> from <= r.value && OccursAt(text, pattern, r.value)
    ensures r.Some? ==> forall j :: from <= j < r.value ==> !OccursAt(text, pattern, j)
    ensures r.None? ==> forall j :: from <= j <= |text| ==> !OccursAt(text, pattern, j)
    decreases |text| - from
  {
    if OccursAt(text, pattern, from) then Some(from)
    else if from == |text| then None
    else IndexFrom(text, pattern, from + 1)
  }

  /** `String.prototype.replace` with a string pattern: only the first occurrence is
      replaced; text without the pattern is returned as it is. */
  function ReplaceFirst(text: string, pattern: string, replacement: string): (r: string)
    ensures Absent(text, pattern) ==> r == text
    ensures forall i: nat :: FirstAt(text, pattern, i) ==>
      i + |pattern| <= |text| && r == text[..i] + replacement + text[i + |pattern|..]
  {
    match IndexFrom(text, pattern, 0)
    case None => text
    case Some(i) => text[..i] + replacement + text[i + |pattern|..]
  }

  /** The changelog after the release: the marker kept, with the new version's heading
      and the date under it. */
  function ChangelogWithRelease(changelog: string, newVersion: string, today: string): (r: string)
    ensures Absent(changelog, UnreleasedMarker) ==> r == changelog
    ensures (exists i: nat :: OccursAt(changelog, UnreleasedMarker, i)) ==>
      |r| == |changelog| + |"\n\n## [" + newVersion + "] - " + today|
  {
    ReplaceFirst(changelog, UnreleasedMarker,
      UnreleasedMarker + "\n\n## [" + newVersion + "] - " + today)
  }

  /** With the first marker at `i`, the heading is inserted right after it: the text before
      the marker and everything after it, later markers included, are untouched. */
  lemma ChangelogFirstMarker(changelog: string, newVersion: string, today: string, i: nat)
    requires FirstAt(changelog, UnreleasedMarker, i)
    ensures var heading := "\n\n## [" + newVersion + "] - " + today;
      var m := i + |UnreleasedMarker|;
      ChangelogWithRelease(changelog, newVersion, today) == changelog[..m] + heading + changelog[m..]
  {
    var heading := "\n\n## [" + newVersion + "] - " + today;
    assert UnreleasedMarker + "\n\n## [" + newVersion + "] - " + today == UnreleasedMarker + heading;
    ReplaceKeepingPattern(changelog, UnreleasedMarker, heading, i);
  }

  /** Replacing the first occurrence of a pattern by the pattern followed by `extra`
      inserts `extra` right after that occurrence. */
  lemma ReplaceKeepingPattern(text: string, pattern: string, extra: string, i: nat)
    requires FirstAt(text, pattern, i)
    ensures var m := i + |pattern|;
      ReplaceFirst(text, pattern, pattern + extra) == text[..m] + extra + text[m..]
  {
    var m := i + |pattern|;
    var r := ReplaceFirst(text, pattern, pattern + extra);
    assert r == text[..i] + (pattern + extra) + text[m..];
    assert text[..m] == text[..i] + pattern;
  }
}
