/**
 * String helpers the rest of the model shares: ASCII digits and decimal
 * numerals, Python's str.split on one separator and its inverse join,
 * str.strip, prefix/suffix/substring tests, and the "dir:rest" search-path
 * prefixing used for PATH and DYLD_LIBRARY_PATH.
 */
module Text {

  // ---------------------------------------------------------------------------
  // Digits and decimal numerals

  predicate IsDigit(c: char) {
    '0' <= c <= '9'
  }

  predicate AllDigits(s: string) {
    forall i :: 0 <= i < |s| ==> IsDigit(s[i])
  }

  /** The number a string of decimal digits denotes (leading zeros allowed, as int() does). */
  function DigitsValue(s: string): nat
    requires AllDigits(s)
  {
    if s == [] then 0 else DigitsValue(s[..|s| - 1]) * 10 + (s[|s| - 1] as int - '0' as int)
  }

  function DigitChar(d: nat): (c: char)
    requires d < 10
    ensures IsDigit(c) && c as int - '0' as int == d
  {
    ('0' as int + d) as char
  }

  /** The decimal numeral of a natural number, as Python's str() of an int prints it. */
  function NatToDecimal(n: nat): (r: string)
    ensures r != [] && AllDigits(r)
    ensures r[0] == '0' ==> r == "0"
    decreases n
  {
    if n < 10 then [DigitChar(n)] else NatToDecimal(n / 10) + [DigitChar(n % 10)]
  }

  /** Reading back a printed numeral gives the number that was printed. */
  lemma {:induction false} DecimalRoundTrip(n: nat)
    ensures DigitsValue(NatToDecimal(n)) == n
  {
    if n >= 10 {
      var s := NatToDecimal(n);
      assert s[..|s| - 1] == NatToDecimal(n / 10);
      DecimalRoundTrip(n / 10);
    }
  }

  /** The decimal numeral of an integer, with a leading '-' when it is negative. */
  function IntToDecimal(i: int): (r: string)
    ensures i >= 0 ==> r != [] && AllDigits(r) && DigitsValue(r) == i && (r[0] == '0' ==> r == "0")
    ensures i < 0 ==> |r| >= 2 && r[0] == '-' && AllDigits(r[1..]) && DigitsValue(r[1..]) == -i && r[1] != '0'
  {
    if i >= 0 then
      DecimalRoundTrip(i);
      NatToDecimal(i)
    else
      var digits := NatToDecimal(-i);
      DecimalRoundTrip(-i);
      assert digits != "0" by {
        assert DigitsValue("0") == 0;
      }
      assert ("-" + digits)[1..] == digits;
      "-" + digits
  }

  // ---------------------------------------------------------------------------
  // str.split(sep) and sep.join(parts)

  /** Python's s.split(sep) for a one-character separator: never empty, empty fields kept. */
  function Split(s: string, sep: char): (parts: seq<string>)
    ensures |parts| >= 1
    ensures forall k :: 0 <= k < |parts| ==> sep !in parts[k]
    decreases |s|
  {
    if s == [] then [[]]
    else
      var rest := Split(s[1..], sep);
      if s[0] == sep then [[]] + rest else [[s[0]] + rest[0]] + rest[1..]
  }

  /** Python's sep.join(parts). */
  function Join(parts: seq<string>, sep: char): string
    requires |parts| >= 1
  {
    if |parts| == 1 then parts[0] else parts[0] + [sep] + Join(parts[1..], sep)
  }

  /** Joining the fields of a split gives back the original string. */
  lemma {:induction false} JoinSplit(s: string, sep: char)
    ensures Join(Split(s, sep), sep) == s
    decreases |s|
  {
    if s != [] {
      var rest := Split(s[1..], sep);
      JoinSplit(s[1..], sep);
      if s[0] == sep {
        calc {
          Join(Split(s, sep), sep);
          == { assert Split(s, sep) == [[]] + rest; assert ([[]] + rest)[1..] == rest; }
          [] + [sep] + Join(rest, sep);
          == [sep] + s[1..];
          == s;
        }
      } else if |rest| == 1 {
        assert Split(s, sep) == [[s[0]] + rest[0]];
        assert rest[0] == Join(rest, sep) == s[1..];
      } else {
        var parts := [[s[0]] + rest[0]] + rest[1..];
        assert Split(s, sep) == parts;
        assert parts[1..] == rest[1..];
        calc {
          Join(parts, sep);
          [s[0]] + rest[0] + [sep] + Join(rest[1..], sep);
          [s[0]] + (rest[0] + [sep] + Join(rest[1..], sep));
          [s[0]] + Join(rest, sep);
          [s[0]] + s[1..];
          s;
        }
      }
    }
  }

  /** A prefix without the separator becomes (the start of) the first field. */
  lemma {:induction false} SplitPlainPrefix(a: string, t: string, sep: char)
    requires sep !in a
    ensures Split(a + t, sep) == [a + Split(t, sep)[0]] + Split(t, sep)[1..]
    decreases |a|
  {
    if a != [] {
      assert (a + t)[0] == a[0];
      assert (a + t)[1..] == a[1..] + t;
      SplitPlainPrefix(a[1..], t, sep);
      assert [a[0]] + (a[1..] + Split(t, sep)[0]) == a + Split(t, sep)[0];
    } else {
      var p := Split(t, sep);
      assert a + t == t && a + p[0] == p[0];
      assert p == [p[0]] + p[1..];
    }
  }

  /** Splitting a join of separator-free fields gives back the fields. */
  lemma {:induction false} SplitJoin(parts: seq<string>, sep: char)
    requires |parts| >= 1
    requires forall k :: 0 <= k < |parts| ==> sep !in parts[k]
    ensures Split(Join(parts, sep), sep) == parts
    decreases |parts|
  {
    if |parts| == 1 {
      SplitPlainPrefix(parts[0], [], sep);
      assert parts[0] + [] == parts[0];
    } else {
      var tail := Join(parts[1..], sep);
      SplitJoin(parts[1..], sep);
      assert Join(parts, sep) == parts[0] + ([sep] + tail);
      SplitPlainPrefix(parts[0], [sep] + tail, sep);
      assert ([sep] + tail)[1..] == tail;
      assert Split([sep] + tail, sep) == [[]] + parts[1..];
      assert parts[0] + [] == parts[0];
    }
  }

  // ---------------------------------------------------------------------------
  // str.strip()

  /** Characters for which Python's str.isspace() holds. */
  predicate IsSpace(c: char) {
    var n := c as int;
    n == 0x20 || 0x09 <= n <= 0x0d || 0x1c <= n <= 0x1f || n == 0x85 || n == 0xa0
    || n == 0x1680 || 0x2000 <= n <= 0x200a || n == 0x2028 || n == 0x2029
    || n == 0x202f || n == 0x205f || n == 0x3000
  }

  predicate AllSpace(s: string) {
    forall i :: 0 <= i < |s| ==> IsSpace(s[i])
  }

  function TrimStart(s: string): (r: string)
    ensures |r| <= |s| && r == s[|s| - |r|..]
    ensures AllSpace(s[..|s| - |r|])
    ensures r == [] || !IsSpace(r[0])
  {
    if s != [] && IsSpace(s[0]) then
      var t := s[1..];
      var r := TrimStart(t);
      assert t[|t| - |r|..] == s[|s| - |r|..];
      var skipped, rest := s[..|s| - |r|], t[..|t| - |r|];
      assert AllSpace(skipped) by {
        forall k | 0 <= k < |skipped| ensures IsSpace(skipped[k]) {
          if k > 0 {
            assert skipped[k] == rest[k - 1];
          }
        }
      }
      r
    else
      assert s[..0] == [];
      s
  }

  function TrimEnd(s: string): (r: string)
    ensures |r| <= |s| && r == s[..|r|]
    ensures AllSpace(s[|r|..])
    ensures r == [] || !IsSpace(r[|r| - 1])
  {
    if s != [] && IsSpace(s[|s| - 1]) then
      var t := s[..|s| - 1];
      var r := TrimEnd(t);
      assert t[..|r|] == s[..|r|];
      var dropped, rest := s[|r|..], t[|r|..];
      assert AllSpace(dropped) by {
        forall k | 0 <= k < |dropped| ensures IsSpace(dropped[k]) {
          if k < |rest| {
            assert dropped[k] == rest[k];
          }
        }
      }
      r
    else
      assert s[|s|..] == [];
      s
  }

  /** r sits in s at offset i, with only whitespace around it. */
  predicate StripsTo(s: string, i: nat, r: string) {
    i + |r| <= |s| && s[i..i + |r|] == r && AllSpace(s[..i]) && AllSpace(s[i + |r|..])
  }

  /** Python's s.strip(): the same text without leading and trailing whitespace. */
  function Strip(s: string): (r: string)
    ensures exists i :: StripsTo(s, i, r)
    ensures r == [] || (!IsSpace(r[0]) && !IsSpace(r[|r| - 1]))
  {
    var t := TrimStart(s);
    var r := TrimEnd(t);
    TrimmedBothEnds(s, t, r);
    r
  }

  /** Trimming a suffix of s whose cut-off prefix is whitespace leaves r stripped out of s. */
  lemma TrimmedBothEnds(s: string, t: string, r: string)
    requires |t| <= |s| && t == s[|s| - |t|..] && AllSpace(s[..|s| - |t|])
    requires |r| <= |t| && r == t[..|r|] && AllSpace(t[|r|..])
    ensures StripsTo(s, |s| - |t|, r)
  {
    assert s[|s| - |t|..][..|r|] == s[|s| - |t|..|s| - |t| + |r|];
    assert s[|s| - |t| + |r|..] == t[|r|..];
  }

  // ---------------------------------------------------------------------------
  // Prefix, suffix and substring tests

  predicate StartsWith(s: string, prefix: string) {
    |prefix| <= |s| && s[..|prefix|] == prefix
  }

  predicate EndsWith(s: string, suffix: string) {
    |suffix| <= |s| && s[|s| - |suffix|..] == suffix
  }

  predicate OccursAt(s: string, t: string, i: int) {
    0 <= i && i + |t| <= |s| && s[i..i + |t|] == t
  }

  /** Python's `t in s` for strings. */
  predicate Contains(s: string, t: string) {
    exists i | 0 <= i <= |s| - |t| :: OccursAt(s, t, i)
  }

  lemma Concat2(a: string, b: string)
    ensures StartsWith(a + b, a) && EndsWith(a + b, b)
  {
    assert (a + b)[..|a|] == a;
    assert (a + b)[|a + b| - |b|..] == b;
  }

  lemma Concat3(a: string, b: string, c: string)
    ensures StartsWith(a + b + c, a) && OccursAt(a + b + c, b, |a|) && EndsWith(a + b + c, c)
  {
    var m := a + b + c;
    assert m[..|a|] == a;
    assert m[|a|..|a| + |b|] == b;
    assert m[|m| - |c|..] == c;
  }

  lemma Concat4(a: string, b: string, c: string, d: string)
    ensures var m := a + b + c + d;
      && StartsWith(m, a) && OccursAt(m, b, |a|) && OccursAt(m, c, |a| + |b|)
      && EndsWith(m, c + d) && EndsWith(m, d) && |m| == |a| + |b| + |c| + |d|
  {
    var m := a + b + c + d;
    assert m[..|a|] == a;
    assert m[|a|..|a| + |b|] == b;
    assert m[|a| + |b|..|a| + |b| + |c|] == c;
    assert m[|m| - |c + d|..] == c + d;
    assert m[|m| - |d|..] == d;
  }

  lemma Concat5(a: string, b: string, c: string, d: string, e: string)
    ensures var m := a + b + c + d + e;
      && StartsWith(m, a) && OccursAt(m, b, |a|) && OccursAt(m, c, |a| + |b|) && OccursAt(m, d, |a| + |b| + |c|)
      && EndsWith(m, e) && |m| == |a| + |b| + |c| + |d| + |e|
  {
    var m := a + b + c + d + e;
    assert m[..|a|] == a;
    assert m[|a|..|a| + |b|] == b;
    assert m[|a| + |b|..|a| + |b| + |c|] == c;
    assert m[|a| + |b| + |c|..|a| + |b| + |c| + |d|] == d;
    assert m[|m| - |e|..] == e;
  }

  /** A text that starts with a + b has b right after a. */
  lemma PrefixOccurs(m: string, a: string, b: string)
    requires StartsWith(m, a + b)
    ensures OccursAt(m, b, |a|)
  {
    assert m[|a|..|a| + |b|] == (a + b)[|a|..] == b;
  }

  /** Where one text occurs, a text differing from it at some position inside both does not. */
  lemma DifferAt(m: string, x: string, y: string, at: int, k: nat)
    requires OccursAt(m, x, at) && k < |x| && k < |y| && x[k] != y[k]
    ensures !OccursAt(m, y, at)
  {
    assert m[at + k] == x[k];
  }

  lemma StartsWithTrans(s: string, p: string, q: string)
    requires StartsWith(s, p) && StartsWith(p, q)
    ensures StartsWith(s, q)
  {
    assert s[..|q|] == s[..|p|][..|q|];
  }

  lemma EndsWithTrans(s: string, p: string, q: string)
    requires EndsWith(s, p) && EndsWith(p, q)
    ensures EndsWith(s, q)
  {
    assert s[|s| - |q|..] == s[|s| - |p|..][|p| - |q|..];
  }

  lemma ContainsPrefix(s: string, t: string)
    requires StartsWith(s, t)
    ensures Contains(s, t)
  {
    assert OccursAt(s, t, 0);
  }

  // ---------------------------------------------------------------------------
  // Search paths

  /**
   * `dir + ":" + list if list else dir`: the search path with `dir` put in
   * front. Both core files build PATH (and DYLD_LIBRARY_PATH) this way.
   */
  function PrependPath(dir: string, list: string): (r: string)
    ensures StartsWith(r, dir)
    ensures list == "" ==> r == dir
    ensures list != "" ==> EndsWith(r, list) && |r| == |dir| + 1 + |list| && r[|dir|] == ':'
  {
    if list != "" then dir + ":" + list else dir
  }

  /**
   * When `dir` holds no ':', it becomes the first entry of the new search
   * path and the entries of the old one follow it unchanged.
   */
  lemma PrependPathEntries(dir: string, list: string)
    requires ':' !in dir
    ensures Split(PrependPath(dir, list), ':') == [dir] + (if list == "" then [] else Split(list, ':'))
  {
    if list == "" {
      SplitPlainPrefix(dir, [], ':');
      assert dir + [] == dir;
    } else {
      assert PrependPath(dir, list) == dir + ([':'] + list);
      SplitPlainPrefix(dir, [':'] + list, ':');
      assert ([':'] + list)[1..] == list;
      assert dir + [] == dir;
    }
  }
}
