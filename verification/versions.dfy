/**
 * The version comparator: dotted versions become integer tuples, tuples are
 * compared the way Python compares tuples, a window [min, max) admits a
 * version, and the version of a binary is the first `\d+\.\d+\.\d+` triple
 * found in what it prints for `--version`.
 */
module Versions {
  import opened Wrappers
  import opened Text
  import opened Errors

  /** A version as Python's tuple(int(c) for c in text.split(".")). */
  type Version = seq<nat>

  // ---------------------------------------------------------------------------
  // Parsing and printing

  predicate ValidComponent(part: string) {
    part != "" && AllDigits(part)
  }

  function ParseComponent(part: string): Result<nat, Error> {
    if ValidComponent(part) then Ok(DigitsValue(part)) else Err(ValueError(part))
  }

  /** int() of every component, left to right; the first malformed one raises. */
  function ParseComponents(parts: seq<string>): (r: Result<Version, Error>)
    ensures r.Ok? <==> forall k :: 0 <= k < |parts| ==> ValidComponent(parts[k])
    ensures r.Ok? ==> |r.value| == |parts|
    ensures r.Ok? ==> forall k :: 0 <= k < |parts| ==> r.value[k] == DigitsValue(parts[k])
    ensures r.Err? ==> r.error.ValueError? && r.error.literal in parts && !ValidComponent(r.error.literal)
  {
    if parts == [] then Ok([])
    else
      var n :- ParseComponent(parts[0]);
      var rest :- ParseComponents(parts[1..]);
      assert forall k :: 1 <= k < |parts| ==> parts[k] == parts[1..][k - 1];
      Ok([n] + rest)
  }

  /**
   * The component ParseComponents reports is the first malformed one:
   * every component before it is valid.
   */
  lemma {:induction false} FirstBadField(parts: seq<string>)
    requires ParseComponents(parts).Err?
    ensures exists k :: (0 <= k < |parts| && ParseComponents(parts).error == ValueError(parts[k])
                         && !ValidComponent(parts[k]) && forall j :: 0 <= j < k ==> ValidComponent(parts[j]))
  {
    if ValidComponent(parts[0]) {
      var tail := parts[1..];
      FirstBadField(tail);
      var k :| 0 <= k < |tail| && ParseComponents(tail).error == ValueError(tail[k])
        && !ValidComponent(tail[k]) && forall j :: 0 <= j < k ==> ValidComponent(tail[j]);
      assert parts[k + 1] == tail[k];
      forall j | 0 <= j < k + 1 ensures ValidComponent(parts[j]) {
        if j > 0 {
          assert parts[j] == tail[j - 1];
        }
      }
    } else {
      assert ParseComponents(parts).error == ValueError(parts[0]);
    }
  }

  /** tuple(int(c) for c in text.split(".")). */
  function ParseVersion(text: string): (r: Result<Version, Error>)
    ensures r.Ok? ==> forall k :: 0 <= k < |Split(text, '.')| ==> ValidComponent(Split(text, '.')[k])
    ensures (forall k :: 0 <= k < |Split(text, '.')| ==> ValidComponent(Split(text, '.')[k])) ==> r.Ok?
    ensures r.Ok? ==> |r.value| == |Split(text, '.')| >= 1
    ensures r.Ok? ==> forall k :: 0 <= k < |r.value| ==> r.value[k] == DigitsValue(Split(text, '.')[k])
  {
    ParseComponents(Split(text, '.'))
  }

  /** The dotted text of a version, components printed in decimal. */
  function RenderVersion(v: Version): string
    requires |v| >= 1
  {
    Join(seq(|v|, k requires 0 <= k < |v| => NatToDecimal(v[k])), '.')
  }

  /** Parsing a printed version gives the version back. */
  lemma RenderParses(v: Version)
    requires |v| >= 1
    ensures ParseVersion(RenderVersion(v)) == Ok(v)
  {
    var parts := seq(|v|, k requires 0 <= k < |v| => NatToDecimal(v[k]));
    forall k | 0 <= k < |parts| ensures '.' !in parts[k] && ValidComponent(parts[k]) {
      DigitsHaveNoDot(parts[k]);
    }
    SplitJoin(parts, '.');
    var r := ParseComponents(parts);
    forall k | 0 <= k < |v| ensures r.value[k] == v[k] {
      DecimalRoundTrip(v[k]);
    }
    assert r.value == v;
  }

  // ---------------------------------------------------------------------------
  // Python tuple ordering

  /** Python's `a < b` on tuples: lexicographic, a proper prefix is smaller. */
  predicate Less(a: Version, b: Version)
    decreases |a|
  {
    if a == [] then b != []
    else if b == [] then false
    else a[0] < b[0] || (a[0] == b[0] && Less(a[1..], b[1..]))
  }

  predicate LessEq(a: Version, b: Version) {
    Less(a, b) || a == b
  }

  lemma {:induction false} LessIrreflexive(a: Version)
    ensures !Less(a, a)
    decreases |a|
  {
    if a != [] {
      LessIrreflexive(a[1..]);
    }
  }

  lemma {:induction false} LessAsymmetric(a: Version, b: Version)
    requires Less(a, b)
    ensures !Less(b, a)
    decreases |a|
  {
    if a != [] && b != [] && a[0] == b[0] {
      LessAsymmetric(a[1..], b[1..]);
    }
  }

  lemma {:induction false} LessTransitive(a: Version, b: Version, c: Version)
    requires Less(a, b) && Less(b, c)
    ensures Less(a, c)
    decreases |a|
  {
    if a != [] && a[0] == b[0] && b[0] == c[0] {
      LessTransitive(a[1..], b[1..], c[1..]);
    }
  }

  /** Any two versions are ordered one way or the other, or equal. */
  lemma {:induction false} LessTotal(a: Version, b: Version)
    ensures Less(a, b) || a == b || Less(b, a)
    decreases |a|
  {
    if a != [] && b != [] && a[0] == b[0] {
      LessTotal(a[1..], b[1..]);
      if a[1..] == b[1..] {
        assert a == [a[0]] + a[1..] && b == [b[0]] + b[1..];
      }
    }
  }

  // ---------------------------------------------------------------------------
  // Version windows

  /** `min <= v < max`; a missing max is the source's (math.inf,), above every version. */
  datatype Window = Window(low: Version, high: Option<Version>)

  predicate Admits(w: Window, v: Version) {
    LessEq(w.low, v) && (w.high.None? || Less(v, w.high.value))
  }

  /** Python truthiness of an optional string: None and "" are both false. */
  predicate Truthy(s: Option<string>) {
    s.Some? && s.value != ""
  }

  /** A bound given as text: parsed when given, absent when None or "" (`if max_version:`). */
  function ParseIfGiven(text: Option<string>): Result<Option<Version>, Error> {
    if Truthy(text) then
      var hi :- ParseVersion(text.value);
      Ok(Some(hi))
    else Ok(None)
  }

  function WindowErrorMessage(minText: string, maxText: string): string {
    "lua_ls_min_version is greater or equal to lua_ls_max_version: " + minText + " > " + maxText
  }

  /**
   * The window as the version check builds it: min parsed first, then max,
   * and a max that is not above min is a configuration error naming both.
   */
  function CheckedWindow(minText: string, maxText: Option<string>): (r: Result<Window, Error>)
    ensures r.Ok? ==> ParseVersion(minText) == Ok(r.value.low)
    ensures r.Ok? ==> (r.value.high.Some? <==> Truthy(maxText))
    ensures r.Ok? && r.value.high.Some? ==> ParseVersion(maxText.value) == Ok(r.value.high.value)
    ensures r.Ok? && r.value.high.Some? ==> Less(r.value.low, r.value.high.value)
    ensures r.Err? && r.error.VhsError? ==>
              Truthy(maxText) && r.error.message == WindowErrorMessage(minText, maxText.value)
    ensures r.Err? && r.error.VhsError? ==>
              ParseVersion(minText).Ok? && ParseVersion(maxText.value).Ok?
              && LessEq(ParseVersion(maxText.value).value, ParseVersion(minText).value)
    ensures ParseVersion(minText).Ok? && ParseIfGiven(maxText).Ok? && r.Err? ==> r.error.VhsError?
  {
    var lo :- ParseVersion(minText);
    var hi :- ParseIfGiven(maxText);
    if hi.Some? && LessEq(hi.value, lo) then
      Err(VhsError(WindowErrorMessage(minText, maxText.value)))
    else
      LessTotal(lo, hi.GetOr(lo));
      Ok(Window(lo, hi))
  }

  /** A version strictly below v2 is refused by the window "v2 or newer", and v2 passes "v1 or newer". */
  lemma MinimumSeparates(v1: Version, v2: Version)
    requires Less(v1, v2)
    ensures !Admits(Window(v2, None), v1)
    ensures Admits(Window(v1, None), v2)
  {
    LessAsymmetric(v1, v2);
    LessIrreflexive(v1);
  }

  /** A window whose max is not above its min admits no version at all. */
  lemma EmptyWindow(w: Window, v: Version)
    requires w.high.Some? && LessEq(w.high.value, w.low)
    ensures !Admits(w, v)
  {
    if Admits(w, v) {
      if Less(w.low, v) {
        LessTransitive(w.low, v, w.high.value);
        if Less(w.high.value, w.low) {
          LessTransitive(w.low, w.high.value, w.low);
        }
        LessIrreflexive(w.low);
      } else {
        LessIrreflexive(w.low);
        if Less(w.high.value, w.low) {
          LessAsymmetric(w.low, w.high.value);
        }
      }
    }
  }

  /** `_make_version_message`: the window in words, naming both bounds. */
  function VersionMessage(minText: string, maxText: Option<string>): (r: string)
    ensures Contains(r, minText)
    ensures Truthy(maxText) ==> Contains(r, maxText.value)
    ensures Truthy(maxText) <==> StartsWith(r, "a version between ")
    ensures Truthy(maxText) ==>
              |r| == 23 + |minText| + |maxText.value| && OccursAt(r, minText, 18)
              && OccursAt(r, " and ", 18 + |minText|) && EndsWith(r, maxText.value)
    ensures !Truthy(maxText) ==>
              |r| == 17 + |minText| && StartsWith(r, "version ") && OccursAt(r, minText, 8)
              && EndsWith(r, " or newer")
  {
    if Truthy(maxText) then
      var r := "a version between " + minText + " and " + maxText.value;
      assert OccursAt(r, minText, 18);
      assert OccursAt(r, " and ", 18 + |minText|);
      assert OccursAt(r, maxText.value, 23 + |minText|);
      r
    else
      var r := "version " + minText + " or newer";
      assert StartsWith(r, "version ");
      assert OccursAt(r, minText, 8);
      assert EndsWith(r, " or newer");
      assert r[0] == 'v';
      r
  }

  // ---------------------------------------------------------------------------
  // re.search(r"(\d+\.\d+\.\d+)", text)

  /** Length of the run of digits starting at i (what a greedy \d* takes). */
  function DigitRun(s: string, i: nat): (n: nat)
    requires i <= |s|
    ensures i + n <= |s|
    decreases |s| - i
  {
    if i < |s| && IsDigit(s[i]) then 1 + DigitRun(s, i + 1) else 0
  }

  /** The run is all digits and is followed by a non-digit or the end: it is maximal. */
  lemma {:induction false} DigitRunSpan(s: string, i: nat)
    requires i <= |s|
    ensures var n := DigitRun(s, i);
      AllDigits(s[i..i + n]) && (i + n == |s| || !IsDigit(s[i + n]))
    decreases |s| - i
  {
    if i < |s| && IsDigit(s[i]) {
      DigitRunSpan(s, i + 1);
      var n := DigitRun(s, i);
      assert s[i..i + n] == [s[i]] + s[i + 1..i + n];
    }
  }

  /** A match: the span [start, end) of the searched text. */
  datatype VersionMatch = VersionMatch(start: nat, end: nat)

  /**
   * The regex anchored at i. Each \d+ is greedy and is always followed by a
   * '.' or by the end of the pattern, so backtracking never helps: the
   * match, if any, takes the maximal digit runs.
   */
  function MatchAt(s: string, i: nat): (m: Option<VersionMatch>)
    requires i <= |s|
    ensures m.Some? ==> m.value.start == i && i < m.value.end <= |s|
  {
    var a := DigitRun(s, i);
    if a == 0 || i + a == |s| || s[i + a] != '.' then None
    else
      var j := i + a + 1;
      var b := DigitRun(s, j);
      if b == 0 || j + b == |s| || s[j + b] != '.' then None
      else
        var k := j + b + 1;
        var c := DigitRun(s, k);
        if c == 0 then None
        else Some(VersionMatch(i, k + c))
  }

  function SearchFrom(s: string, from: nat): (m: Option<VersionMatch>)
    requires from <= |s|
    ensures m.Some? ==> from <= m.value.start <= |s| && MatchAt(s, m.value.start) == m
    ensures m.Some? ==> forall i :: from <= i < m.value.start ==> MatchAt(s, i).None?
    ensures m.None? ==> forall i :: from <= i <= |s| ==> MatchAt(s, i).None?
    decreases |s| - from
  {
    match MatchAt(s, from)
    case Some(m) => Some(m)
    case None => if from == |s| then None else SearchFrom(s, from + 1)
  }

  /** The leftmost match, as re.search finds it. */
  function FindVersion(s: string): (m: Option<VersionMatch>)
    ensures m.Some? ==> m.value.start <= |s| && MatchAt(s, m.value.start) == m
    ensures m.Some? ==> forall i :: 0 <= i < m.value.start ==> MatchAt(s, i).None?
    ensures m.None? ==> forall i :: 0 <= i <= |s| ==> MatchAt(s, i).None?
  {
    SearchFrom(s, 0)
  }

  /** Text that the pattern `\d+\.\d+\.\d+` matches in full. */
  predicate VersionShape(t: string) {
    var p := Split(t, '.');
    |p| == 3 && ValidComponent(p[0]) && ValidComponent(p[1]) && ValidComponent(p[2])
  }

  lemma DigitsHaveNoDot(d: string)
    requires AllDigits(d)
    ensures '.' !in d
  {
    forall j | 0 <= j < |d| ensures d[j] != '.' {
      assert IsDigit(d[j]);
    }
  }

  lemma JoinThree(x: string, y: string, z: string)
    ensures Join([x, y, z], '.') == x + "." + y + "." + z
  {
    assert [x, y, z][1..] == [y, z];
    assert [y, z][1..] == [z];
    assert Join([y, z], '.') == y + "." + z;
    assert x + "." + y + "." + z == x + "." + (y + "." + z);
  }

  /** A text that splits into three fields is those fields with two dots between. */
  lemma SplitThree(t: string)
    requires |Split(t, '.')| == 3
    ensures var p := Split(t, '.'); t == p[0] + "." + p[1] + "." + p[2]
  {
    var p := Split(t, '.');
    JoinSplit(t, '.');
    assert p == [p[0], p[1], p[2]];
    JoinThree(p[0], p[1], p[2]);
  }

  lemma SliceFive(s: string, i: nat, a: nat, b: nat, c: nat)
    requires i + a + b + c + 2 <= |s|
    ensures s[i..i + a + b + c + 2]
         == s[i..i + a] + [s[i + a]] + s[i + a + 1..i + a + 1 + b] + [s[i + a + 1 + b]] + s[i + a + b + 2..i + a + b + 2 + c]
  {
  }

  /** The three runs MatchAt reads, when they are there. */
  lemma MatchAtRuns(s: string, i: nat, a: nat, b: nat, c: nat)
    requires i + a + b + c + 2 <= |s|
    requires DigitRun(s, i) == a > 0 && s[i + a] == '.'
    requires DigitRun(s, i + a + 1) == b > 0 && s[i + a + 1 + b] == '.'
    requires DigitRun(s, i + a + b + 2) == c > 0
    ensures MatchAt(s, i) == Some(VersionMatch(i, i + a + b + c + 2))
  {
  }

  /**
   * What MatchAt finds is a whole `\d+\.\d+\.\d+`, not followed by another
   * digit, so int() of its dotted components cannot fail and gives three numbers.
   */
  lemma MatchIsVersion(s: string, i: nat)
    requires i <= |s| && MatchAt(s, i).Some?
    ensures var m := MatchAt(s, i).value;
      VersionShape(s[i..m.end])
      && (m.end == |s| || !IsDigit(s[m.end]))
      && ParseVersion(s[i..m.end]).Ok? && |ParseVersion(s[i..m.end]).value| == 3
  {
    var a := DigitRun(s, i);
    var b := DigitRun(s, i + a + 1);
    var c := DigitRun(s, i + a + b + 2);
    MatchAtRuns(s, i, a, b, c);
    DigitRunSpan(s, i);
    DigitRunSpan(s, i + a + 1);
    DigitRunSpan(s, i + a + b + 2);
    var x, y, z := s[i..i + a], s[i + a + 1..i + a + 1 + b], s[i + a + b + 2..i + a + b + 2 + c];
    DigitsHaveNoDot(x);
    DigitsHaveNoDot(y);
    DigitsHaveNoDot(z);
    SliceFive(s, i, a, b, c);
    JoinThree(x, y, z);
    SplitJoin([x, y, z], '.');
  }

  /** DigitRun measures exactly a digit run that a non-digit ends. */
  lemma {:induction false} DigitRunExact(s: string, i: nat, n: nat)
    requires i + n <= |s| && AllDigits(s[i..i + n])
    requires i + n == |s| || !IsDigit(s[i + n])
    ensures DigitRun(s, i) == n
    decreases n
  {
    if n > 0 {
      assert IsDigit(s[i..i + n][0]);
      assert s[i + 1..i + n] == s[i..i + n][1..];
      DigitRunExact(s, i + 1, n - 1);
    }
  }

  /** Where the fields and the dots of `x.y.z` sit. */
  lemma ThreeFields(t: string, x: string, y: string, z: string)
    requires t == x + "." + y + "." + z
    ensures t[..|x|] == x && t[|x|] == '.'
    ensures t[|x| + 1..|x| + 1 + |y|] == y && t[|x| + 1 + |y|] == '.'
    ensures t[|x| + |y| + 2..] == z
  {
    var u := x + "." + y + ".";
    assert t == u + z;
    assert t[..|u|] == u && t[|u|..] == z;
    assert t[..|x|] == u[..|x|] == x;
    assert t[|x| + 1..|x| + 1 + |y|] == u[|x| + 1..|x| + 1 + |y|] == y;
  }

  /** A slice of a slice is a slice of the original. */
  lemma SubSlice(s: string, i: nat, e: nat, lo: nat, hi: nat)
    requires i <= e <= |s| && lo <= hi <= e - i
    ensures s[i..e][lo..hi] == s[i + lo..i + hi]
  {
    forall k | 0 <= k < hi - lo ensures s[i..e][lo..hi][k] == s[i + lo..i + hi][k] {
      assert s[i..e][lo..hi][k] == s[i..e][lo + k] == s[i + lo + k];
    }
  }

  /** A field of `t == s[i..e]` that is followed by a dot is exactly the digit run at its position in s. */
  lemma FieldRun(s: string, i: nat, e: nat, off: nat, x: string)
    requires i <= e <= |s| && off + |x| < e - i
    requires s[i..e][off..off + |x|] == x && ValidComponent(x) && s[i..e][off + |x|] == '.'
    ensures DigitRun(s, i + off) == |x| && s[i + off + |x|] == '.'
  {
    SubSlice(s, i, e, off, off + |x|);
    DigitRunExact(s, i + off, |x|);
  }

  /** If some text starting at i has the shape of a version, the pattern matches at i. */
  lemma MatchComplete(s: string, i: nat, e: nat)
    requires i <= e <= |s| && VersionShape(s[i..e])
    ensures MatchAt(s, i).Some?
  {
    var t := s[i..e];
    var p := Split(t, '.');
    SplitThree(t);
    var x, y, z := p[0], p[1], p[2];
    var a, b := |x|, |y|;
    ThreeFields(t, x, y, z);
    FieldRun(s, i, e, 0, x);
    FieldRun(s, i, e, a + 1, y);
    assert IsDigit(s[i + a + b + 2]) by {
      assert t[a + b + 2..][0] == z[0];
      assert s[i + a + b + 2] == t[a + b + 2] == z[0];
    }
    MatchAtRuns(s, i, a, b, DigitRun(s, i + a + b + 2));
  }

  /** No match anywhere means no substring at all has the shape of a version. */
  lemma NoMatchNoVersion(s: string)
    requires FindVersion(s).None?
    ensures forall i, e :: 0 <= i <= e <= |s| ==> !VersionShape(s[i..e])
  {
    forall i, e | 0 <= i <= e <= |s| ensures !VersionShape(s[i..e]) {
      if VersionShape(s[i..e]) {
        MatchComplete(s, i, e);
      }
    }
  }

  // ---------------------------------------------------------------------------
  // _check_version

  /** (can use, version text) as `_check_version` returns it. */
  datatype VersionCheck = VersionCheck(usable: bool, version: Option<string>)

  /** Where no match starts, no substring of the shape of a version starts either. */
  lemma NoMatchAtNoVersion(s: string, i: nat)
    requires i <= |s| && MatchAt(s, i).None?
    ensures forall e :: i <= e <= |s| ==> !VersionShape(s[i..e])
  {
    forall e | i <= e <= |s| ensures !VersionShape(s[i..e]) {
      if VersionShape(s[i..e]) {
        MatchComplete(s, i, e);
      }
    }
  }

  /**
   * The text of the first version triple in `text`, if there is one: it
   * occurs at the leftmost position where any version-shaped text starts,
   * and it is not followed by a further digit (each \d+ is greedy).
   */
  function FirstVersion(text: string): (r: Option<string>)
    ensures r.Some? <==> FindVersion(text).Some?
    ensures r.Some? ==> VersionShape(r.value)
    ensures r.Some? ==> ParseVersion(r.value).Ok? && |ParseVersion(r.value).value| == 3
    ensures r.Some? ==> exists i :: (0 <= i <= |text| - |r.value| && OccursAt(text, r.value, i)
                                    && (i + |r.value| == |text| || !IsDigit(text[i + |r.value|]))
                                    && forall j, e :: 0 <= j < i && j <= e <= |text| ==> !VersionShape(text[j..e]))
    ensures r.None? ==> forall i, e :: 0 <= i <= e <= |text| ==> !VersionShape(text[i..e])
  {
    match FindVersion(text)
    case None =>
      NoMatchNoVersion(text);
      None
    case Some(m) =>
      MatchIsVersion(text, m.start);
      forall j, e | 0 <= j < m.start && j <= e <= |text| ensures !VersionShape(text[j..e]) {
        NoMatchAtNoVersion(text, j);
      }
      assert OccursAt(text, text[m.start..m.end], m.start);
      Some(text[m.start..m.end])
  }

  /**
   * `_check_version` with the binary's `--version` output as an input:
   * None when running it failed (or its output did not decode).
   */
  function CheckVersion(minText: string, maxText: Option<string>, output: Option<string>): (r: Result<VersionCheck, Error>)
    ensures CheckedWindow(minText, maxText).Err? <==> r.Err?
    ensures r.Err? ==> r.error == CheckedWindow(minText, maxText).error
    ensures r.Ok? && output.None? ==> r.value == VersionCheck(false, None)
    ensures r.Ok? && output.Some? && FirstVersion(Strip(output.value)).None? ==>
              r.value == VersionCheck(false, Some(Strip(output.value)))
    ensures r.Ok? && output.Some? && FirstVersion(Strip(output.value)).Some? ==>
              r.value.version == FirstVersion(Strip(output.value))
  {
    var w :- CheckedWindow(minText, maxText);
    if output.None? then Ok(VersionCheck(false, None))
    else
      var text := Strip(output.value);
      match FirstVersion(text)
      case None => Ok(VersionCheck(false, Some(text)))
      case Some(found) => Ok(VersionCheck(Admits(w, ParseVersion(found).value), Some(found)))
  }

  /**
   * A binary is accepted exactly when its output holds a version triple and
   * the first one parses to a version with min <= v, and v < max when max
   * is given.
   */
  lemma UsableIffInWindow(minText: string, maxText: Option<string>, output: Option<string>)
    requires CheckVersion(minText, maxText, output).Ok?
    ensures var c := CheckVersion(minText, maxText, output).value;
      c.usable <==>
        (output.Some? && FirstVersion(Strip(output.value)).Some?
         && var v := ParseVersion(FirstVersion(Strip(output.value)).value).value;
            LessEq(ParseVersion(minText).value, v)
            && (Truthy(maxText) ==> Less(v, ParseVersion(maxText.value).value)))
  {
  }
}
