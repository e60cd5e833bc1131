/** The string layout of the terminal interface (src/utils/terminal_ui.py):
    centring a line, word-wrapping the text of a box, and the width of the
    box drawn around it. Printing itself is not modelled; a line is the string
    that would be printed. */
module TerminalLayout {
  import opened Common
  import opened Text

  const MinBoxWidth := 60
  const MaxBoxWidth := 80
  const Frame := 4   // the border and one space on each side

  /** `print_box`'s content width: 80% of the terminal, at most 80, less the
      frame. */
  function ContentWidth(terminalWidth: nat): (w: int)
    ensures w <= MaxBoxWidth - Frame
    ensures w + Frame <= terminalWidth
  {
    Min(terminalWidth * 4 / 5, MaxBoxWidth) - Frame
  }

  /** `s * n` in Python. */
  function Repeat(s: string, n: nat): (r: string)
    ensures |r| == n * |s|
    ensures forall k :: 0 <= k < |r| && |s| == 1 ==> r[k] == s[0]
  {
    if n == 0 then "" else Repeat(s, n - 1) + s
  }

  // ---------------------------------------------------------------- centring

  /** `print_centered`'s padding: half the spare width, rounded down, never
      negative. */
  function CenterPadding(width: int, textLen: nat): (p: nat)
    ensures textLen + 2 * p <= width || p == 0
    ensures width - (textLen + 2 * p) <= 1
  {
    if width - textLen < 0 then 0 else (width - textLen) / 2
  }

  /** The line `print_centered` prints: the fill repeated on both sides. */
  function CenteredLine(width: int, text: string, fill: string): (line: string)
    ensures var m := CenterPadding(width, |text|) * |fill|;
      |line| == m + |text| + m && line[m..m + |text|] == text && line[..m] == line[m + |text|..]
    ensures |fill| == 1 ==> forall k :: 0 <= k < |line| ==>
      var m := CenterPadding(width, |text|); (k < m || k >= m + |text|) ==> line[k] == fill[0]
    ensures |fill| == 1 && |text| <= width ==> width - 1 <= |line| <= width
    ensures |text| >= width - 1 ==> line == text
  {
    var p := CenterPadding(width, |text|);
    Repeat(fill, p) + text + Repeat(fill, p)
  }

  // ---------------------------------------------------------------- wrapping

  /** All groups of words in order, one after the other. */
  function Flatten(groups: seq<seq<string>>): seq<string> {
    if groups == [] then [] else Flatten(groups[..|groups| - 1]) + groups[|groups| - 1]
  }

  lemma {:induction false} FlattenAppend(a: seq<seq<string>>, b: seq<seq<string>>)
    ensures Flatten(a + b) == Flatten(a) + Flatten(b)
    decreases |b|
  {
    if b == [] {
      assert a + b == a;
    } else {
      assert (a + b)[..|a + b| - 1] == a + b[..|b| - 1];
      FlattenAppend(a, b[..|b| - 1]);
    }
  }

  /** The group the current line closes with: nothing for an empty line. */
  function Closed(cur: seq<string>): seq<seq<string>> {
    if cur != [] then [cur] else []
  }

  /** The word loop of `print_box` from a state on: `done` are the lines
      already emitted (as groups of words), `cur` the words of
      `current_line`. A word joins the current line when the line, a space and
      the word fit in `width`; otherwise the current line is emitted (when
      non-empty) and the word starts the next one. */
  function WrapFrom(done: seq<seq<string>>, cur: seq<string>, words: seq<string>, width: int): (lines: seq<seq<string>>)
    ensures |done| <= |lines| && lines[..|done|] == done
    decreases |words|
  {
    if words == [] then done + Closed(cur)
    else
      var w := words[0];
      if |Join(" ", cur) + " " + w| <= width then WrapFrom(done, cur + [w], words[1..], width)
      else WrapFrom(done + Closed(cur), [w], words[1..], width)
  }

  /** The wrap loop drops, adds and reorders no word. */
  lemma {:induction false} WrapKeepsWords(done: seq<seq<string>>, cur: seq<string>, words: seq<string>, width: int)
    ensures Flatten(WrapFrom(done, cur, words, width)) == Flatten(done) + cur + words
    decreases |words|
  {
    if words == [] {
      FlattenAppend(done, Closed(cur));
      assert Flatten(Closed(cur)) == cur by {
        if cur != [] { assert [cur][..0] == []; }
      }
    } else {
      var w := words[0];
      assert [w] + words[1..] == words;
      if |Join(" ", cur) + " " + w| <= width {
        WrapKeepsWords(done, cur + [w], words[1..], width);
      } else {
        WrapKeepsWords(done + Closed(cur), [w], words[1..], width);
        FlattenAppend(done, Closed(cur));
        assert Flatten(Closed(cur)) == cur by {
          if cur != [] { assert [cur][..0] == []; }
        }
      }
    }
  }

  /** A line fits, or is a single word. */
  predicate Fits(g: seq<string>, width: int) {
    |Join(" ", g)| <= width || |g| == 1
  }

  /** The wrap loop emits no empty group, and every group fits or is a single
      word. */
  lemma {:induction false} WrapGroupsShape(done: seq<seq<string>>, cur: seq<string>, words: seq<string>, width: int)
    requires forall k :: 0 <= k < |done| ==> done[k] != [] && Fits(done[k], width)
    requires cur == [] || Fits(cur, width)
    ensures forall k :: 0 <= k < |WrapFrom(done, cur, words, width)| ==>
      WrapFrom(done, cur, words, width)[k] != [] && Fits(WrapFrom(done, cur, words, width)[k], width)
    decreases |words|
  {
    if words != [] {
      var w := words[0];
      if |Join(" ", cur) + " " + w| <= width {
        if cur != [] {
          JoinAppend(" ", cur, w);
        } else {
          assert cur + [w] == [w];
        }
        assert Fits(cur + [w], width);
        assert WrapFrom(done, cur, words, width) == WrapFrom(done, cur + [w], words[1..], width);
        WrapGroupsShape(done, cur + [w], words[1..], width);
      } else {
        var done' := done + Closed(cur);
        assert forall k :: 0 <= k < |done'| ==> done'[k] != [] && Fits(done'[k], width) by {
          forall k | 0 <= k < |done'| ensures done'[k] != [] && Fits(done'[k], width) {
            if k < |done| { assert done'[k] == done[k]; } else { assert done'[k] == cur; }
          }
        }
        assert WrapFrom(done, cur, words, width) == WrapFrom(done', [w], words[1..], width);
        WrapGroupsShape(done', [w], words[1..], width);
      }
    } else {
      assert WrapFrom(done, cur, words, width) == done + Closed(cur);
      if cur != [] {
        assert (done + Closed(cur))[|done|] == cur;
      }
    }
  }

  /** A group's words can be read back from its line. */
  lemma ReadBackGroups(groups: seq<seq<string>>)
    requires forall k, j :: 0 <= k < |groups| && 0 <= j < |groups[k]| ==> IsWord(groups[k][j])
    ensures forall k :: 0 <= k < |groups| ==> Words(JoinWords(groups)[k]) == groups[k]
  {
    forall k | 0 <= k < |groups| ensures Words(JoinWords(groups)[k]) == groups[k] {
      WordsOfJoin(groups[k]);
    }
  }

  /** Every word of every group occurs in the flattened sequence. */
  lemma {:induction false} FlattenHolds(groups: seq<seq<string>>, k: nat, j: nat)
    requires k < |groups| && j < |groups[k]|
    ensures groups[k][j] in Flatten(groups)
    decreases |groups|
  {
    var init := groups[..|groups| - 1];
    if k < |groups| - 1 {
      assert groups[k] == init[k];
      FlattenHolds(init, k, j);
    }
  }

  /** The lines of a long paragraph: its words wrapped and rejoined with single
      spaces. A whitespace-only paragraph yields no line. */
  function WrappedLines(paragraph: string, width: int): (lines: seq<string>)
    ensures AllSpace(paragraph) ==> lines == []
  {
    JoinWords(WrapFrom([], [], Words(paragraph), width))
  }

  /** Split back into words, the wrapped lines give exactly the words of the
      paragraph, in order; every line is non-empty and fits the width unless
      it is a single word. */
  lemma WrappedLinesFacts(paragraph: string, width: int)
    ensures var lines := WrappedLines(paragraph, width);
      Flatten(seq(|lines|, k requires 0 <= k < |lines| => Words(lines[k]))) == Words(paragraph)
    ensures forall l :: l in WrappedLines(paragraph, width) ==> l != "" && (|l| <= width || IsWord(l))
  {
    var words := Words(paragraph);
    var groups := WrapFrom([], [], words, width);
    var lines := WrappedLines(paragraph, width);
    WrapKeepsWords([], [], words, width);
    assert Flatten(groups) == words;
    forall k, j | 0 <= k < |groups| && 0 <= j < |groups[k]| ensures IsWord(groups[k][j]) {
      FlattenHolds(groups, k, j);
    }
    ReadBackGroups(groups);
    assert seq(|lines|, k requires 0 <= k < |lines| => Words(lines[k])) == groups;
    WrapGroupsShape([], [], words, width);
    forall l | l in lines ensures l != "" && (|l| <= width || IsWord(l)) {
      var k :| 0 <= k < |lines| && lines[k] == l;
      var g := groups[k];
      assert Words(l) == g;
      if |g| == 1 {
        assert l == g[0];
      }
    }
  }

  /** One paragraph of `print_box`: kept whole when it fits (even when it is
      empty), wrapped otherwise. */
  function ParagraphLines(paragraph: string, width: int): (lines: seq<string>)
    ensures |paragraph| <= width ==> lines == [paragraph]
    ensures |paragraph| > width ==> lines == WrappedLines(paragraph, width)
  {
    if |paragraph| <= width then [paragraph] else WrappedLines(paragraph, width)
  }

  /** The lines of the whole text: its '\n'-separated paragraphs, in order. */
  function LinesOf(paragraphs: seq<string>, width: int): (lines: seq<string>)
    ensures (forall k :: 0 <= k < |paragraphs| ==> |paragraphs[k]| <= width) ==> lines == paragraphs
  {
    if paragraphs == [] then []
    else LinesOf(paragraphs[..|paragraphs| - 1], width) + ParagraphLines(paragraphs[|paragraphs| - 1], width)
  }

  function BoxLines(text: string, width: int): (lines: seq<string>)
    ensures var ps := SplitOn(text, '\n'); (forall k :: 0 <= k < |ps| ==> |ps[k]| <= width) ==> lines == ps
  {
    LinesOf(SplitOn(text, '\n'), width)
  }

  /** Every line of the box fits the content width or is a single word. */
  lemma {:induction false} BoxLinesFit(paragraphs: seq<string>, width: int)
    ensures forall l :: l in LinesOf(paragraphs, width) ==> |l| <= width || IsWord(l)
    decreases |paragraphs|
  {
    if paragraphs != [] {
      var p := paragraphs[|paragraphs| - 1];
      BoxLinesFit(paragraphs[..|paragraphs| - 1], width);
      WrappedLinesFacts(p, width);
    }
  }

  /** The word loop of `print_box` on one paragraph longer than the width. */
  method WrapParagraph(paragraph: string, width: int) returns (lines: seq<string>)
    ensures lines == WrappedLines(paragraph, width)
  {
    var words := Words(paragraph);
    ghost var done: seq<seq<string>> := [];
    ghost var cur: seq<string> := [];
    lines := [];
    var currentLine := "";
    var i := 0;
    while i < |words|
      invariant 0 <= i <= |words|
      invariant WrapFrom(done, cur, words[i..], width) == WrapFrom([], [], words, width)
      invariant lines == JoinWords(done)
      invariant currentLine == Join(" ", cur)
      invariant cur == [] <==> currentLine == ""
    {
      var word := words[i];
      assert words[i..][1..] == words[i + 1..];
      if |currentLine + " " + word| <= width {
        if cur != [] {
          JoinAppend(" ", cur, word);
        }
        currentLine := if currentLine != "" then currentLine + " " + word else word;
        cur := cur + [word];
      } else {
        if currentLine != "" {
          lines := lines + [currentLine];
        }
        done := done + Closed(cur);
        currentLine := word;
        cur := [word];
      }
      i := i + 1;
    }
    if currentLine != "" {
      lines := lines + [currentLine];
    }
    done := done + Closed(cur);
    assert words[i..] == [];
  }

  /** One more paragraph adds its own lines after those before it. */
  lemma LinesOfPrefix(paragraphs: seq<string>, i: nat, width: int)
    requires i < |paragraphs|
    ensures LinesOf(paragraphs[..i + 1], width) == LinesOf(paragraphs[..i], width) + ParagraphLines(paragraphs[i], width)
  {
    assert paragraphs[..i + 1][..i] == paragraphs[..i];
  }

  /** The paragraph loop of `print_box`. */
  method WrapText(text: string, width: int) returns (lines: seq<string>)
    ensures lines == BoxLines(text, width)
  {
    var paragraphs := SplitOn(text, '\n');
    lines := [];
    var i := 0;
    while i < |paragraphs|
      invariant 0 <= i <= |paragraphs|
      invariant lines == LinesOf(paragraphs[..i], width)
    {
      var paragraph := paragraphs[i];
      var more: seq<string>;
      if |paragraph| <= width {
        more := [paragraph];
      } else {
        more := WrapParagraph(paragraph, width);
      }
      LinesOfPrefix(paragraphs, i, width);
      lines := lines + more;
      i := i + 1;
    }
    assert paragraphs[..i] == paragraphs;
  }

  // ---------------------------------------------------------------- the box

  /** `max(len(line) for line in lines) if lines else 0`. */
  function MaxLen(lines: seq<string>): (m: nat)
    ensures forall l :: l in lines ==> |l| <= m
    ensures lines == [] ==> m == 0
    ensures lines != [] ==> exists l :: l in lines && |l| == m
  {
    if lines == [] then 0
    else
      var rest := MaxLen(lines[1..]);
      assert forall l :: l in lines[1..] ==> l in lines;
      if |lines[0]| >= rest then |lines[0]| else rest
  }

  /** The box width: room for the longest line, for the title, and at least
      60. */
  function BoxWidth(lines: seq<string>, title: Option<string>): (w: int)
    ensures w >= MinBoxWidth
    ensures forall l :: l in lines ==> |l| + Frame <= w
    ensures Truthy(title) ==> |title.value| + Frame <= w
    ensures w == MinBoxWidth || (exists l :: l in lines && w == |l| + Frame) ||
      (Truthy(title) && w == |title.value| + Frame)
  {
    Max(Max(MaxLen(lines) + Frame, MinBoxWidth), if Truthy(title) then |title.value| + Frame else MinBoxWidth)
  }

  /** `s.ljust(n)`. */
  function PadRight(s: string, n: int): (r: string)
    ensures |s| >= n ==> r == s
    ensures |s| < n ==> |r| == n && r[..|s|] == s && forall k :: |s| <= k < n ==> r[k] == ' '
  {
    if |s| >= n then s else s + Repeat(" ", n - |s|)
  }

  /** The left margin `str.center` gives a text of length `len` in a field of
      `n` (`len < n`): half the padding, and the odd space goes to the left
      exactly when the field width is odd. */
  function CenterLeft(len: nat, n: int): (left: nat)
    requires len < n
    ensures left <= n - len
    ensures left == n - len - left || left == n - len - left + 1 || left + 1 == n - len - left
  {
    var pad := n - len;
    pad / 2 + (if pad % 2 == 1 && n % 2 == 1 then 1 else 0)
  }

  /** `s.center(n)`: the text at `CenterLeft` with spaces on both sides. */
  function Center(s: string, n: int): (r: string)
    ensures |s| >= n ==> r == s
    ensures |s| < n ==> |r| == n && r[CenterLeft(|s|, n)..CenterLeft(|s|, n) + |s|] == s
    ensures |s| < n ==> forall k :: 0 <= k < n && !(CenterLeft(|s|, n) <= k < CenterLeft(|s|, n) + |s|) ==> r[k] == ' '
  {
    if |s| >= n then s
    else
      var left := CenterLeft(|s|, n);
      Repeat(" ", left) + s + Repeat(" ", n - |s| - left)
  }

  const Left := "│ "
  const Right := " │"

  /** One content row of the box. */
  function BoxRow(line: string, boxWidth: int): (row: string)
    ensures |line| + Frame <= boxWidth ==> |row| == boxWidth
    ensures |row| >= |Left| + |line| + |Right| && row[..|Left|] == Left && row[|Left|..|Left| + |line|] == line
    ensures row[|row| - |Right|..] == Right
  {
    Left + PadRight(line, boxWidth - Frame) + Right
  }

  /** The rows of a box of width w around some lines: top border, the title
      and its rule when there is a title, the content rows, bottom border. */
  function Rows(lines: seq<string>, title: Option<string>, w: int): (rows: seq<string>)
    ensures |rows| == |lines| + (if Truthy(title) then 4 else 2)
  {
    var rule := Repeat("─", if w >= 2 then w - 2 else 0);
    ["┌" + rule + "┐"] +
    (if Truthy(title) then [Left + Center(title.value, w - Frame) + Right, "├" + rule + "┤"] else []) +
    seq(|lines|, k requires 0 <= k < |lines| => BoxRow(lines[k], w)) +
    ["└" + rule + "┘"]
  }

  /** Line k of the content is row k after the top border, or after the top
      border, the title and its rule when there is a title. */
  lemma RowsPlaceLines(lines: seq<string>, title: Option<string>, w: int, k: nat)
    requires k < |lines|
    ensures Rows(lines, title, w)[k + (if Truthy(title) then 3 else 1)] == BoxRow(lines[k], w)
  {
    var rule := Repeat("─", if w >= 2 then w - 2 else 0);
    var head := ["┌" + rule + "┐"] +
      (if Truthy(title) then [Left + Center(title.value, w - Frame) + Right, "├" + rule + "┤"] else []);
    var content := seq(|lines|, k requires 0 <= k < |lines| => BoxRow(lines[k], w));
    assert Rows(lines, title, w) == head + content + ["└" + rule + "┘"];
    assert (head + content + ["└" + rule + "┘"])[|head| + k] == content[k];
  }

  /** The rows `print_box` prints for a text. */
  function BoxRows(text: string, title: Option<string>, contentWidth: int): (rows: seq<string>)
    ensures |rows| == |BoxLines(text, contentWidth)| + (if Truthy(title) then 4 else 2)
  {
    var lines := BoxLines(text, contentWidth);
    Rows(lines, title, BoxWidth(lines, title))
  }

  /** Rows are exactly w wide when the lines and the title leave room for the
      frame. */
  lemma RowsAreRectangular(lines: seq<string>, title: Option<string>, w: int)
    requires w >= Frame
    requires forall l :: l in lines ==> |l| + Frame <= w
    requires Truthy(title) ==> |title.value| + Frame <= w
    ensures forall r :: r in Rows(lines, title, w) ==> |r| == w
  {
    var rule := Repeat("─", w - 2);
    var content := seq(|lines|, k requires 0 <= k < |lines| => BoxRow(lines[k], w));
    forall k | 0 <= k < |lines| ensures |content[k]| == w {
      assert lines[k] in lines;
    }
    var head := ["┌" + rule + "┐"] +
      (if Truthy(title) then [Left + Center(title.value, w - Frame) + Right, "├" + rule + "┤"] else []);
    assert forall r :: r in head ==> |r| == w;
    assert Rows(lines, title, w) == head + content + ["└" + rule + "┘"];
  }

  /** The box `print_box` draws is a rectangle: every row, borders included,
      is exactly as wide as the box. */
  lemma BoxIsRectangular(text: string, title: Option<string>, contentWidth: int)
    ensures var w := BoxWidth(BoxLines(text, contentWidth), title);
      forall r :: r in BoxRows(text, title, contentWidth) ==> |r| == w
  {
    var lines := BoxLines(text, contentWidth);
    RowsAreRectangular(lines, title, BoxWidth(lines, title));
  }
}
