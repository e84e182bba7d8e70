/**
 * `DefaultProgressReporter`: each progress report rewrites one terminal
 * line in place (pad to the previous length, then carriage return), and the
 * end of an installation leaves a final line with a newline after it.
 *
 * A small terminal model (rows, a cursor column, carriage return and
 * newline) says what the reader sees.
 */
module Progress {
  import opened Wrappers
  import opened Text

  // ---------------------------------------------------------------------------
  // What is written

  function Spaces(n: nat): (r: string)
    ensures |r| == n && forall i :: 0 <= i < n ==> r[i] == ' '
  {
    if n == 0 then "" else Spaces(n - 1) + " "
  }

  predicate AllBlank(s: string) {
    forall i :: 0 <= i < |s| ==> s[i] == ' '
  }

  /** Python's s.ljust(width): s padded with blanks to at least `width` characters. */
  function LJust(s: string, width: nat): (r: string)
    ensures |r| == (if width > |s| then width else |s|)
    ensures r[..|s|] == s && AllBlank(r[|s|..])
  {
    if width > |s| then
      var r := s + Spaces(width - |s|);
      assert r[|s|..] == Spaces(width - |s|);
      r
    else
      assert s[..|s|] == s;
      s
  }

  /** The text of one report: the description, plus the formatted sizes when a total size is known (non-zero). */
  function ProgressLine(desc: string, totalSize: int, formatted: string): (line: string)
    ensures totalSize == 0 ==> line == desc
    ensures totalSize != 0 ==> StartsWith(line, desc) && EndsWith(line, formatted)
    ensures |line| == |desc| + (if totalSize != 0 then |formatted| else 0)
  {
    if totalSize != 0 then
      var line := desc + formatted;
      assert line[..|desc|] == desc && line[|line| - |formatted|..] == formatted;
      line
    else desc
  }

  /** What one report writes, given the length of the previous one. */
  function ProgressWrite(line: string, prevLen: nat): string {
    LJust(line, prevLen) + "\r"
  }

  const SuccessLine := "vhs installed"

  function FailureLine(error: string): string {
    "vhs installation failed: " + error
  }

  /**
   * What `finish` writes: a failure line on error, a success line if
   * anything was reported before, and nothing otherwise; each line ends
   * with a newline.
   */
  function FinishWrite(error: Option<string>, prevLen: nat): (w: string)
    ensures EndsWith(w, "\n") <==> error.Some? || prevLen > 0
    ensures error.None? && prevLen == 0 ==> w == ""
  {
    if error.Some? then ProgressWrite(FailureLine(error.value), prevLen) + "\n"
    else if prevLen > 0 then ProgressWrite(SuccessLine, prevLen) + "\n"
    else ""
  }

  // ---------------------------------------------------------------------------
  // The reporter

  class DefaultProgressReporter {
    /** Length of the last report (`_prev_len`). */
    var prevLen: nat
    /** Everything written to the stream so far. */
    var written: string

    constructor()
      ensures prevLen == 0 && written == ""
    {
      prevLen := 0;
      written := "";
    }

    /**
     * `progress`: write the report padded to the previous length, then a
     * carriage return; remember its length. `formatted` is what
     * `format_progress` makes of the sizes and the speed.
     */
    method Progress(desc: string, totalSize: int, formatted: string)
      modifies this
      ensures written == old(written) + ProgressWrite(ProgressLine(desc, totalSize, formatted), old(prevLen))
      ensures prevLen == |ProgressLine(desc, totalSize, formatted)|
    {
      var line := desc;
      if totalSize != 0 {
        line := line + formatted;
      }
      written := written + (LJust(line, prevLen) + "\r");
      prevLen := |line|;
    }

    /** `finish`, with the exception's text when the installation raised. */
    method Finish(error: Option<string>)
      modifies this
      ensures written == old(written) + FinishWrite(error, old(prevLen))
      ensures error.Some? ==> prevLen == |FailureLine(error.value)|
      ensures error.None? && old(prevLen) > 0 ==> prevLen == |SuccessLine|
      ensures error.None? && old(prevLen) == 0 ==> prevLen == 0
    {
      if error.Some? {
        Progress(FailureLine(error.value), 0, "");
        written := written + "\n";
      } else if prevLen > 0 {
        Progress(SuccessLine, 0, "");
        written := written + "\n";
      }
    }
  }

  // ---------------------------------------------------------------------------
  // A terminal

  /** Finished rows, the current row, and the cursor column in it. */
  datatype Screen = Screen(done: seq<string>, row: string, col: nat)

  predicate Plain(c: char) {
    c != '\r' && c != '\n'
  }

  predicate PlainText(s: string) {
    forall i :: 0 <= i < |s| ==> Plain(s[i])
  }

  /** One character: a carriage return goes to column 0, a newline starts a new row, others overwrite or extend. */
  function Apply(s: Screen, c: char): Screen
    requires s.col <= |s.row|
  {
    if c == '\r' then s.(col := 0)
    else if c == '\n' then Screen(s.done + [s.row], "", 0)
    else if s.col < |s.row| then s.(row := s.row[s.col := c], col := s.col + 1)
    else s.(row := s.row + [c], col := s.col + 1)
  }

  function ApplyAll(s: Screen, text: string): (r: Screen)
    requires s.col <= |s.row|
    ensures r.col <= |r.row|
    decreases |text|
  {
    if text == [] then s else ApplyAll(Apply(s, text[0]), text[1..])
  }

  /** What a terminal shows after the stream's text. */
  function Render(text: string): Screen {
    ApplyAll(Screen([], "", 0), text)
  }

  lemma {:induction false} ApplyAllConcat(s: Screen, a: string, b: string)
    requires s.col <= |s.row|
    ensures ApplyAll(s, a + b) == ApplyAll(ApplyAll(s, a), b)
    decreases |a|
  {
    if a == [] {
      assert a + b == b;
    } else {
      assert (a + b)[0] == a[0] && (a + b)[1..] == a[1..] + b;
      ApplyAllConcat(Apply(s, a[0]), a[1..], b);
      assert ApplyAll(s, a + b) == ApplyAll(Apply(s, a[0]), a[1..] + b);
      assert ApplyAll(s, a) == ApplyAll(Apply(s, a[0]), a[1..]);
    }
  }

  /** Plain text written at the cursor overwrites the row from there on and extends it if needed. */
  lemma {:induction false} WritePlain(s: Screen, t: string)
    requires s.col <= |s.row| && PlainText(t)
    ensures var r := ApplyAll(s, t);
      && r.done == s.done
      && r.col == s.col + |t|
      && |r.row| == (if s.col + |t| > |s.row| then s.col + |t| else |s.row|)
      && r.row[..s.col] == s.row[..s.col]
      && r.row[s.col..s.col + |t|] == t
      && r.row[s.col + |t|..] == (if s.col + |t| < |s.row| then s.row[s.col + |t|..] else [])
    decreases |t|
  {
    if t != [] {
      var s1 := Apply(s, t[0]);
      assert PlainText(t[1..]) by {
        forall i | 0 <= i < |t[1..]| ensures Plain(t[1..][i]) {
          assert t[1..][i] == t[i + 1];
        }
      }
      assert Plain(t[0]);
      WritePlain(s1, t[1..]);
      var r := ApplyAll(s1, t[1..]);
      assert r.row[..s.col] == s1.row[..s.col] == s.row[..s.col] by {
        assert r.row[..s1.col][..s.col] == r.row[..s.col];
        assert s1.row[..s1.col][..s.col] == s1.row[..s.col];
      }
      assert r.row[s.col] == s1.row[s.col] == t[0] by {
        assert r.row[..s1.col][s.col] == r.row[s.col];
        assert s1.row[..s1.col][s.col] == s1.row[s.col];
      }
      forall j | 0 <= j < |t| ensures r.row[s.col..s.col + |t|][j] == t[j] {
        assert r.row[s.col..s.col + |t|][j] == r.row[s.col + j];
        if j > 0 {
          assert r.row[s1.col..s1.col + |t[1..]|][j - 1] == r.row[s.col + j];
          assert t[1..][j - 1] == t[j];
        }
      }
    }
  }

  /**
   * The screen after reports: the cursor at the start of the current row,
   * and nothing but blanks after the last report's `prevLen` characters.
   */
  predicate Tidy(s: Screen, prevLen: nat) {
    s.col == 0 && prevLen <= |s.row| && AllBlank(s.row[prevLen..])
  }

  /**
   * A report of plain text leaves the row showing exactly that text
   * followed only by blanks, with no leftover of a longer earlier report.
   */
  lemma ProgressShowsLine(s: Screen, prevLen: nat, line: string)
    requires Tidy(s, prevLen) && PlainText(line)
    ensures var r := ApplyAll(s, ProgressWrite(line, prevLen));
      Tidy(r, |line|) && r.row[..|line|] == line && r.done == s.done
  {
    var padded := LJust(line, prevLen);
    assert PlainText(padded) by {
      forall i | 0 <= i < |padded| ensures Plain(padded[i]) {
        if i < |line| {
          assert padded[..|line|][i] == padded[i];
        } else {
          assert padded[|line|..][i - |line|] == padded[i];
        }
      }
    }
    ApplyAllConcat(s, padded, "\r");
    WritePlain(s, padded);
    var w := ApplyAll(s, padded);
    assert w.row[..|padded|] == padded;
    var r := ApplyAll(w, "\r");
    assert r == w.(col := 0);
    assert r.row[..|line|] == padded[..|line|] == line by {
      assert r.row[..|padded|][..|line|] == r.row[..|line|];
    }
    forall i | |line| <= i < |r.row| ensures r.row[i] == ' ' {
      if i < |padded| {
        assert r.row[..|padded|][i] == padded[i] == padded[|line|..][i - |line|];
      } else {
        assert |padded| < |s.row| && r.row[|padded|..] == s.row[|padded|..];
        assert r.row[i] == r.row[|padded|..][i - |padded|] == s.row[|padded|..][i - |padded|] == s.row[i];
        assert s.row[i] == s.row[prevLen..][i - prevLen];
      }
    }
  }

  /** The reporter's screen is tidy from the start. */
  lemma StartIsTidy()
    ensures Tidy(Render(""), 0)
  {
  }

  /**
   * Closing an installation that reported something (or failed) ends the
   * final line with a newline: the message stays on its own finished row,
   * followed only by blanks, and the cursor sits on a fresh empty row.
   */
  lemma FinishLeavesFinalLine(s: Screen, prevLen: nat, error: Option<string>)
    requires Tidy(s, prevLen)
    requires error.Some? ==> PlainText(FailureLine(error.value))
    requires error.Some? || prevLen > 0
    ensures var r := ApplyAll(s, FinishWrite(error, prevLen));
      var msg := if error.Some? then FailureLine(error.value) else SuccessLine;
      && r.row == "" && r.col == 0 && |r.done| == |s.done| + 1
      && |msg| <= |r.done[|s.done|]|
      && r.done[|s.done|][..|msg|] == msg && AllBlank(r.done[|s.done|][|msg|..])
  {
    var msg := if error.Some? then FailureLine(error.value) else SuccessLine;
    assert PlainText(SuccessLine) by {
      forall i | 0 <= i < |SuccessLine| ensures Plain(SuccessLine[i]) { }
    }
    ProgressShowsLine(s, prevLen, msg);
    ApplyAllConcat(s, ProgressWrite(msg, prevLen), "\n");
  }
}
