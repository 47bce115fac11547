/** The text helpers of ui/model.go: minInt, maxInt, truncate and wordWrap.
    Lengths count characters where Go's len counts bytes. */
module UiText {
  import opened Strings

  function MinInt(a: int, b: int): (r: int)
    ensures r <= a && r <= b && (r == a || r == b)
  {
    if a < b then a else b
  }

  function MaxInt(a: int, b: int): (r: int)
    ensures r >= a && r >= b && (r == a || r == b)
  {
    if a > b then a else b
  }

  /** truncate(s, n): s itself when it fits, otherwise its first n - 1
      characters and an ellipsis. Go slices s[:n-1], which panics for n == 0
      when s is not empty; the precondition excludes exactly that. */
  function Truncate(s: string, n: int): (r: string)
    requires |s| <= n || n >= 1
    ensures |r| <= n
    ensures |s| <= n ==> r == s
    ensures |s| > n ==> |r| == n && r[..n - 1] == s[..n - 1] && r[n - 1] == '…'
  {
    if |s| <= n then s else s[..n - 1] + "…"
  }

  // ---------------------------------------------------------------------------
  // wordWrap
  // ---------------------------------------------------------------------------

  /** The loop state of wordWrap: the finished lines and the line being built. */
  datatype Acc = Acc(lines: seq<string>, line: string)

  /** One word of the loop. With `eager` (the code as written) the line is
      flushed whenever line.Len() + len(w) + 1 > width, even when it is empty;
      otherwise only a non-empty line is flushed. */
  function WrapStep(a: Acc, w: string, width: int, eager: bool): Acc {
    var flush := |a.line| + |w| + 1 > width && (eager || |a.line| > 0);
    var a1 := if flush then Acc(a.lines + [a.line], "") else a;
    Acc(a1.lines, if |a1.line| > 0 then a1.line + " " + w else w)
  }

  function WrapAll(words: seq<string>, width: int, eager: bool): Acc {
    if |words| == 0 then Acc([], "")
    else WrapStep(WrapAll(words[..|words| - 1], width, eager), words[|words| - 1], width, eager)
  }

  /** The lines after the loop: the last line is kept when it is not empty. */
  function Finish(a: Acc): seq<string> {
    if |a.line| > 0 then a.lines + [a.line] else a.lines
  }

  /** The lines wordWrap joins with newlines. */
  function WrappedLines(s: string, width: int, eager: bool): seq<string> {
    Finish(WrapAll(Fields(s), width, eager))
  }

  /** wordWrap as written. */
  function WrapText(s: string, width: int): string {
    if width <= 0 then s else Join(WrappedLines(s, width, true), "\n")
  }

  /** wordWrap with the evidently intended test: an empty line is never
      flushed, so a word longer than the width goes on a line of its own. */
  function IntendedWrapText(s: string, width: int): string {
    if width <= 0 then s else Join(WrappedLines(s, width, false), "\n")
  }

  /** wordWrap: the loop over the words of s. */
  method WordWrap(s: string, width: int) returns (r: string)
    ensures r == WrapText(s, width)
  {
    if width <= 0 {
      return s;
    }
    var words := Fields(s);
    var lines: seq<string> := [];
    var line: string := "";
    for i := 0 to |words|
      invariant Acc(lines, line) == WrapAll(words[..i], width, true)
    {
      var w := words[i];
      assert words[..i + 1][..i] == words[..i];
      if |line| + |w| + 1 > width {
        lines := lines + [line];
        line := "";
      }
      if |line| > 0 {
        line := line + " ";
      }
      line := line + w;
    }
    assert words[..|words|] == words;
    if |line| > 0 {
      lines := lines + [line];
    }
    r := Join(lines, "\n");
  }

  // ---------------------------------------------------------------------------
  // The words survive wrapping
  // ---------------------------------------------------------------------------

  /** The fields of each part, in order. */
  function FlatFields(parts: seq<string>): seq<string> {
    if |parts| == 0 then [] else Fields(parts[0]) + FlatFields(parts[1..])
  }

  lemma {:induction false} FlatFieldsAppend(parts: seq<string>, x: string)
    ensures FlatFields(parts + [x]) == FlatFields(parts) + Fields(x)
  {
    if |parts| == 0 {
      assert [x][1..] == [];
    } else {
      assert (parts + [x])[1..] == parts[1..] + [x];
      FlatFieldsAppend(parts[1..], x);
    }
  }

  /** Joining with a whitespace character keeps every part's fields. */
  lemma {:induction false} FieldsOfJoin(parts: seq<string>, c: char)
    requires IsSpace(c)
    ensures Fields(Join(parts, [c])) == FlatFields(parts)
  {
    if |parts| == 1 {
      assert parts[1..] == [];
    } else if |parts| > 1 {
      FieldsOfJoin(parts[1..], c);
      FieldsAroundSpace(parts[0], c, Join(parts[1..], [c]));
    }
  }

  /** Appending a word after a space appends it to the fields. */
  lemma WordAfterLine(line: string, w: string)
    requires IsWord(w)
    ensures Fields(if |line| > 0 then line + " " + w else w) == Fields(line) + [w]
  {
    FieldsOfWord(w);
    if |line| > 0 {
      FieldsAroundSpace(line, ' ', w);
    }
  }

  lemma WrapStepWords(a: Acc, w: string, width: int, eager: bool)
    requires IsWord(w)
    ensures var b := WrapStep(a, w, width, eager);
      FlatFields(b.lines) + Fields(b.line) == FlatFields(a.lines) + Fields(a.line) + [w]
  {
    var flush := |a.line| + |w| + 1 > width && (eager || |a.line| > 0);
    if flush {
      FlatFieldsAppend(a.lines, a.line);
      WordAfterLine("", w);
    } else {
      WordAfterLine(a.line, w);
    }
  }

  lemma {:induction false} WrapAllWords(words: seq<string>, width: int, eager: bool)
    requires forall k :: 0 <= k < |words| ==> IsWord(words[k])
    ensures var a := WrapAll(words, width, eager); FlatFields(a.lines) + Fields(a.line) == words
  {
    if |words| > 0 {
      var init := words[..|words| - 1];
      WrapAllWords(init, width, eager);
      WrapStepWords(WrapAll(init, width, eager), words[|words| - 1], width, eager);
      assert init + [words[|words| - 1]] == words;
    }
  }

  /** Wrapping keeps the words of the text, in order, either way. */
  lemma WrappedKeepsWords(s: string, width: int, eager: bool)
    requires width > 0
    ensures Fields(Join(WrappedLines(s, width, eager), "\n")) == Fields(s)
  {
    var a := WrapAll(Fields(s), width, eager);
    WrapAllWords(Fields(s), width, eager);
    FieldsOfJoin(Finish(a), '\n');
    if |a.line| > 0 {
      FlatFieldsAppend(a.lines, a.line);
    }
  }

  /** wordWrap returns its input for a width of 0 or less, and otherwise
      text with the same words in the same order. */
  lemma WrapTextKeepsWords(s: string, width: int)
    ensures width <= 0 ==> WrapText(s, width) == s
    ensures Fields(WrapText(s, width)) == Fields(s)
  {
    if width > 0 {
      WrappedKeepsWords(s, width, true);
    }
  }

  // ---------------------------------------------------------------------------
  // Line widths
  // ---------------------------------------------------------------------------

  /** Every line, finished or not, fits the width and holds no newline. */
  predicate AccFits(a: Acc, width: int) {
    && (forall k :: 0 <= k < |a.lines| ==> |a.lines[k]| <= width && '\n' !in a.lines[k])
    && |a.line| <= width && '\n' !in a.line
  }

  lemma WrapStepFits(a: Acc, w: string, width: int, eager: bool)
    requires AccFits(a, width) && IsWord(w)
    requires if eager then |w| < width else |w| <= width
    ensures AccFits(WrapStep(a, w, width, eager), width)
  {
  }

  lemma {:induction false} WrapAllFits(words: seq<string>, width: int, eager: bool)
    requires width > 0
    requires forall k :: 0 <= k < |words| ==> IsWord(words[k]) && (if eager then |words[k]| < width else |words[k]| <= width)
    ensures AccFits(WrapAll(words, width, eager), width)
  {
    if |words| > 0 {
      WrapAllFits(words[..|words| - 1], width, eager);
      WrapStepFits(WrapAll(words[..|words| - 1], width, eager), words[|words| - 1], width, eager);
    }
  }

  /** The output lines are the wrapped lines, each within the width. */
  lemma LinesOfOutput(lines: seq<string>, width: int)
    requires forall k :: 0 <= k < |lines| ==> |lines[k]| <= width && '\n' !in lines[k]
    requires width >= 0
    ensures forall l | l in Split(Join(lines, "\n"), '\n') :: |l| <= width
  {
    if |lines| == 0 {
      assert Split("", '\n') == [""];
    } else {
      SplitJoin(lines, '\n');
    }
  }

  /** When every word is shorter than the width, every line of wordWrap's
      output fits the width. */
  lemma WrapTextFits(s: string, width: int)
    requires width > 0
    requires forall w | w in Fields(s) :: |w| < width
    ensures forall l | l in Split(WrapText(s, width), '\n') :: |l| <= width
  {
    WrapAllFits(Fields(s), width, true);
    LinesOfOutput(WrappedLines(s, width, true), width);
  }

  // ---------------------------------------------------------------------------
  // The blank line of the code as written
  // ---------------------------------------------------------------------------

  /** As written, the first line flushed is the empty one when the first word
      is at least as long as the width, and a word always ends the last line. */
  lemma {:induction false} EagerFlushesEmptyFirst(words: seq<string>, width: int)
    requires |words| > 0 && |words[0]| >= width
    requires forall k :: 0 <= k < |words| ==> IsWord(words[k])
    ensures var a := WrapAll(words, width, true); |a.lines| > 0 && a.lines[0] == "" && a.line != ""
  {
    var init := words[..|words| - 1];
    if |words| > 1 {
      assert init[0] == words[0];
      EagerFlushesEmptyFirst(init, width);
    } else {
      assert init == [];
    }
  }

  /** As written, any text whose first word is at least as long as the width
      wraps to text that opens with an empty line. */
  lemma LongFirstWordGivesBlankLine(s: string, width: int)
    requires width > 0 && |Fields(s)| > 0 && |Fields(s)[0]| >= width
    ensures |WrapText(s, width)| > 0 && WrapText(s, width)[0] == '\n'
  {
    var a := WrapAll(Fields(s), width, true);
    EagerFlushesEmptyFirst(Fields(s), width);
    var f := Finish(a);
    assert |f| >= 2 && f[0] == "";
    assert Join(f, "\n") == "" + "\n" + Join(f[1..], "\n");
  }

  /** The one-word instance: wordWrap("abcde", 5) is "\nabcde". */
  lemma LongWordAloneGivesBlankLine(w: string, width: int)
    requires IsWord(w) && 0 < width <= |w|
    ensures WrapText(w, width) == "\n" + w
  {
    FieldsOfWord(w);
    var ws := Fields(w);
    assert ws[..0] == [];
    assert WrapAll(ws, width, true) == Acc([""], w);
    assert Join(["", w], "\n") == "" + "\n" + Join([w], "\n");
  }

  /** The intended wrap emits no empty line. */
  lemma {:induction false} IntendedLinesNotEmpty(words: seq<string>, width: int)
    requires forall k :: 0 <= k < |words| ==> IsWord(words[k])
    ensures forall k :: 0 <= k < |WrapAll(words, width, false).lines| ==> WrapAll(words, width, false).lines[k] != ""
    ensures |words| > 0 ==> WrapAll(words, width, false).line != ""
  {
    if |words| > 0 {
      IntendedLinesNotEmpty(words[..|words| - 1], width);
    }
  }

  /** The corrected wrap keeps the words and emits no empty line. */
  lemma IntendedWrap(s: string, width: int)
    requires width > 0
    ensures Fields(IntendedWrapText(s, width)) == Fields(s)
    ensures forall l | l in WrappedLines(s, width, false) :: l != ""
  {
    WrappedKeepsWords(s, width, false);
    IntendedLinesNotEmpty(Fields(s), width);
  }

  /** The corrected wrap fits every line when no word is longer than the
      width, a word exactly as long as the width included. */
  lemma IntendedWrapFits(s: string, width: int)
    requires width > 0
    requires forall w | w in Fields(s) :: |w| <= width
    ensures forall l | l in Split(IntendedWrapText(s, width), '\n') :: |l| <= width
  {
    WrapAllFits(Fields(s), width, false);
    LinesOfOutput(WrappedLines(s, width, false), width);
  }
}
