/** The handful of Python string operations the game's bookkeeping relies on:
    `str.strip()`, `str.split(sep)`, `str.split()`, `sep.join(parts)`, ASCII
    `lower()`/`title()` and decimal formatting of non-negative integers. */
module Text {

  /** Python's `str.isspace()` for a single code point. */
  predicate IsSpace(c: char) {
    || c == ' '
    || ('\t' <= c <= '\r')
    || ('\U{1C}' <= c <= '\U{1F}')
    || c == '\U{85}' || c == '\U{A0}' || c == '\U{1680}'
    || ('\U{2000}' <= c <= '\U{200A}')
    || c == '\U{2028}' || c == '\U{2029}' || c == '\U{202F}' || c == '\U{205F}' || c == '\U{3000}'
  }

  predicate AllSpace(s: string) {
    forall i :: 0 <= i < |s| ==> IsSpace(s[i])
  }

  /** A word as `str.split()` yields it: non-empty, without whitespace. */
  predicate IsWord(w: string) {
    w != [] && forall i :: 0 <= i < |w| ==> !IsSpace(w[i])
  }

  // ---------------------------------------------------------------- strip

  /** `s.lstrip()`: the text after its leading whitespace. */
  function StripLeft(s: string): (r: string)
    ensures |r| <= |s| && r == s[|s| - |r|..]
    ensures r == [] || !IsSpace(r[0])
    ensures forall i :: 0 <= i < |s| - |r| ==> IsSpace(s[i])
  {
    s[LeadingSpace(s)..]
  }

  function StripRight(s: string): (r: string)
    ensures |r| <= |s| && r == s[..|r|]
    ensures r == [] || !IsSpace(r[|r| - 1])
    ensures forall i :: |r| <= i < |s| ==> IsSpace(s[i])
  {
    if s != [] && IsSpace(s[|s| - 1]) then StripRight(s[..|s| - 1]) else s
  }

  /** `s.strip()`: the text between the leading and the trailing whitespace. */
  function Strip(s: string): (r: string)
    ensures |r| <= |s|
    ensures r == [] || (!IsSpace(r[0]) && !IsSpace(r[|r| - 1]))
    ensures r == [] <==> AllSpace(s)
    ensures s == [] || (!IsSpace(s[0]) && !IsSpace(s[|s| - 1])) ==> r == s
    ensures forall c :: c in r ==> c in s
  {
    StripEnds(s);
    StripEmpty(s);
    StripKeepsChars(s);
    StripIdentity(s);
    StripRight(StripLeft(s))
  }

  /** Number of leading whitespace characters. */
  function LeadingSpace(s: string): (n: nat)
    ensures n <= |s|
    ensures forall i :: 0 <= i < n ==> IsSpace(s[i])
    ensures n < |s| ==> !IsSpace(s[n])
  {
    SpaceRunFrom(s, 0)
  }

  /** The end of the whitespace run that starts at position i. */
  function SpaceRunFrom(s: string, i: nat): (n: nat)
    requires i <= |s|
    ensures i <= n <= |s|
    ensures forall k :: i <= k < n ==> IsSpace(s[k])
    ensures n < |s| ==> !IsSpace(s[n])
    decreases |s| - i
  {
    if i < |s| && IsSpace(s[i]) then SpaceRunFrom(s, i + 1) else i
  }

  /** `s.strip()` is the slice of `s` after its leading whitespace, and
      only whitespace follows that slice: with the non-space ends `Strip`
      guarantees, this determines the result. */
  lemma StripIsSlice(s: string)
    ensures LeadingSpace(s) + |Strip(s)| <= |s|
    ensures Strip(s) == s[LeadingSpace(s)..LeadingSpace(s) + |Strip(s)|]
    ensures AllSpace(s[LeadingSpace(s) + |Strip(s)|..])
  {
    var n := LeadingSpace(s);
    var l := s[n..];
    var t := StripRight(l);
    assert t == s[n..n + |t|];
    var tail := s[n + |t|..];
    forall k | 0 <= k < |tail| ensures IsSpace(tail[k]) {
      assert tail[k] == l[|t| + k];
    }
    assert AllSpace(tail);
    assert Strip(s) == t;
  }

  /** A text without leading whitespace loses only its trailing whitespace. */
  lemma StripUnindented(s: string)
    requires LeadingSpace(s) == 0
    ensures |Strip(s)| <= |s| && Strip(s) == s[..|Strip(s)|] && AllSpace(s[|Strip(s)|..])
  {
    StripIsSlice(s);
    assert s[0..|Strip(s)|] == s[..|Strip(s)|];
  }

  lemma StripIdentity(s: string)
    ensures |StripRight(StripLeft(s))| <= |s|
    ensures s == [] || (!IsSpace(s[0]) && !IsSpace(s[|s| - 1])) ==> StripRight(StripLeft(s)) == s
  {
    if s != [] && !IsSpace(s[0]) && !IsSpace(s[|s| - 1]) {
      assert StripLeft(s) == s;
    }
  }

  lemma StripEnds(s: string)
    ensures var r := StripRight(StripLeft(s)); r == [] || (!IsSpace(r[0]) && !IsSpace(r[|r| - 1]))
  {
    var l := StripLeft(s);
    var r := StripRight(l);
    if r != [] {
      assert r[0] == l[0];
    }
  }

  lemma StripEmpty(s: string)
    ensures StripRight(StripLeft(s)) == [] <==> AllSpace(s)
  {
    var l := StripLeft(s);
    if StripRight(l) == [] {
      // a non-empty l would start with a non-space that StripRight keeps
      assert l == [];
    }
  }

  lemma StripKeepsChars(s: string)
    ensures forall c :: c in StripRight(StripLeft(s)) ==> c in s
  {
    var l := StripLeft(s);
    var r := StripRight(l);
    assert r == l[..|r|];
    assert l == s[|s| - |l|..];
    forall c | c in r ensures c in s {
      var i :| 0 <= i < |r| && r[i] == c;
      assert s[|s| - |l| + i] == c;
    }
  }

  // ---------------------------------------------------------------- join

  /** `sep.join(parts)`: empty for no parts, and otherwise opening with the
      first part. */
  function Join(sep: string, parts: seq<string>): (r: string)
    ensures parts == [] ==> r == ""
    ensures parts != [] ==> |r| >= |parts[0]| && r[..|parts[0]|] == parts[0]
  {
    if |parts| == 0 then ""
    else if |parts| == 1 then parts[0]
    else
      var rest := sep + Join(sep, parts[1..]);
      assert (parts[0] + rest)[..|parts[0]|] == parts[0];
      parts[0] + rest
  }

  /** Joining one more part adds exactly one separator and that part at the end. */
  lemma {:induction false} JoinAppend(sep: string, parts: seq<string>, p: string)
    requires |parts| >= 1
    ensures Join(sep, parts + [p]) == Join(sep, parts) + sep + p
  {
    if |parts| == 1 {
      assert parts + [p] == [parts[0], p];
    } else {
      assert (parts + [p])[1..] == parts[1..] + [p];
      JoinAppend(sep, parts[1..], p);
    }
  }

  /** A character absent from the separator and from every part is absent
      from the joined string. */
  lemma {:induction false} JoinAvoids(sep: string, parts: seq<string>, c: char)
    requires c !in sep
    requires forall k :: 0 <= k < |parts| ==> c !in parts[k]
    ensures c !in Join(sep, parts)
  {
    if |parts| > 1 {
      JoinAvoids(sep, parts[1..], c);
    }
  }

  /** Python slicing `s[lo:hi]` for non-negative bounds. */
  function Slice<T>(s: seq<T>, lo: nat, hi: nat): (r: seq<T>)
    ensures |r| == (if lo < hi && lo < |s| then (if hi <= |s| then hi else |s|) - lo else 0)
    ensures forall k :: 0 <= k < |r| ==> r[k] == s[lo + k]
  {
    if lo >= |s| || hi <= lo then [] else s[lo..if hi <= |s| then hi else |s|]
  }

  /** The concatenation of a sequence of strings (`"".join(parts)`). */
  function Concat(parts: seq<string>): string {
    if parts == [] then "" else parts[0] + Concat(parts[1..])
  }

  lemma {:induction false} ConcatAppend(parts: seq<string>, p: string)
    ensures Concat(parts + [p]) == Concat(parts) + p
  {
    if parts != [] {
      assert (parts + [p])[1..] == parts[1..] + [p];
      ConcatAppend(parts[1..], p);
    }
  }

  /** Each line followed by a newline, as line-by-line `+=` builds text. */
  function Terminated(lines: seq<string>): (r: seq<string>)
    ensures |r| == |lines|
    ensures forall i :: 0 <= i < |lines| ==> r[i] == lines[i] + "\n"
  {
    seq(|lines|, i requires 0 <= i < |lines| => lines[i] + "\n")
  }

  /** Terminating a first line puts it, with its newline, in front. */
  lemma ConcatTerminatedCons(a: string, rest: seq<string>)
    ensures Concat(Terminated([a] + rest)) == a + "\n" + Concat(Terminated(rest))
  {
    assert Terminated([a] + rest) == [a + "\n"] + Terminated(rest);
  }

  lemma {:induction false} ConcatTerminated(lines: seq<string>)
    ensures Concat(Terminated(lines)) == Join("\n", lines + [""])
  {
    if lines != [] {
      ConcatTerminated(lines[1..]);
      assert Terminated(lines)[1..] == Terminated(lines[1..]);
      assert (lines + [""])[1..] == lines[1..] + [""];
    }
  }

  /** Each group of words joined with single spaces. */
  function JoinWords(groups: seq<seq<string>>): (r: seq<string>)
    ensures |r| == |groups|
    ensures forall k :: 0 <= k < |r| ==> r[k] == Join(" ", groups[k])
  {
    seq(|groups|, k requires 0 <= k < |groups| => Join(" ", groups[k]))
  }

  /** One more group adds its joined string at the end. */
  lemma JoinWordsSnoc(groups: seq<seq<string>>, g: seq<string>)
    ensures JoinWords(groups + [g]) == JoinWords(groups) + [Join(" ", g)]
  {
  }

  function Min(a: int, b: int): int { if a <= b then a else b }

  function Max(a: int, b: int): int { if a >= b then a else b }

  // ---------------------------------------------------------------- split(sep)

  /** `s.split(c)` for a one-character separator: always at least one piece,
      empty pieces kept. */
  function SplitOn(s: string, c: char): (r: seq<string>)
    ensures |r| >= 1
    ensures forall k :: 0 <= k < |r| ==> c !in r[k]
    decreases |s|
  {
    if s == [] then [""]
    else
      var rest := SplitOn(s[1..], c);
      if s[0] == c then [""] + rest else [[s[0]] + rest[0]] + rest[1..]
  }

  lemma JoinCons(sep: string, a: string, r: seq<string>)
    requires r != []
    ensures Join(sep, [a] + r) == a + sep + Join(sep, r)
  {
    assert ([a] + r)[1..] == r;
  }

  /** Splitting and re-joining with the same separator gives back the text. */
  lemma {:induction false} JoinSplitOn(s: string, c: char)
    ensures Join([c], SplitOn(s, c)) == s
    decreases |s|
  {
    if s != [] {
      var rest := SplitOn(s[1..], c);
      JoinSplitOn(s[1..], c);
      assert s == [s[0]] + s[1..];
      if s[0] == c {
        assert SplitOn(s, c) == [""] + rest;
        JoinCons([c], "", rest);
      } else {
        var first := [s[0]] + rest[0];
        assert SplitOn(s, c) == [first] + rest[1..];
        if |rest| == 1 {
          assert Join([c], rest) == rest[0];
        } else {
          assert rest == [rest[0]] + rest[1..];
          JoinCons([c], rest[0], rest[1..]);
          JoinCons([c], first, rest[1..]);
        }
      }
    }
  }

  lemma {:induction false} SplitOnPrefix(p: string, rest: string, c: char)
    requires c !in p
    ensures SplitOn(p + rest, c) == [p + SplitOn(rest, c)[0]] + SplitOn(rest, c)[1..]
    decreases |p|
  {
    if p != [] {
      assert (p + rest)[1..] == p[1..] + rest;
      SplitOnPrefix(p[1..], rest, c);
      assert [p[0]] + (p[1..] + SplitOn(rest, c)[0]) == p + SplitOn(rest, c)[0];
    } else {
      var r := SplitOn(rest, c);
      assert p + rest == rest;
      assert p + r[0] == r[0];
      assert [p + r[0]] + r[1..] == r;
    }
  }

  /** Joining pieces that do not contain the separator and splitting again
      gives back the pieces. */
  lemma {:induction false} SplitOnJoin(parts: seq<string>, c: char)
    requires |parts| >= 1
    requires forall k :: 0 <= k < |parts| ==> c !in parts[k]
    ensures SplitOn(Join([c], parts), c) == parts
  {
    if |parts| == 1 {
      SplitOnPrefix(parts[0], "", c);
      assert parts[0] + "" == parts[0];
    } else {
      var tail := Join([c], parts[1..]);
      SplitOnJoin(parts[1..], c);
      assert Join([c], parts) == parts[0] + ([c] + tail);
      SplitOnPrefix(parts[0], [c] + tail, c);
      assert ([c] + tail)[1..] == tail;
      assert SplitOn([c] + tail, c) == [""] + parts[1..];
      assert parts[0] + "" == parts[0];
      assert parts == [parts[0]] + parts[1..];
    }
  }

  /** Newline-terminated lines that hold no newline themselves split back
      into those lines followed by one empty piece. */
  lemma SplitTerminated(lines: seq<string>)
    requires forall i :: 0 <= i < |lines| ==> '\n' !in lines[i]
    ensures SplitOn(Concat(Terminated(lines)), '\n') == lines + [""]
  {
    ConcatTerminated(lines);
    assert "\n" == ['\n'];
    SplitOnJoin(lines + [""], '\n');
  }

  // ---------------------------------------------------------------- split()

  /** Number of leading non-whitespace characters. */
  function WordLen(s: string): (n: nat)
    ensures n <= |s|
    ensures forall i :: 0 <= i < n ==> !IsSpace(s[i])
    ensures n < |s| ==> IsSpace(s[n])
  {
    if s == [] || IsSpace(s[0]) then 0 else 1 + WordLen(s[1..])
  }

  /** `s.split()`: the maximal runs of non-whitespace, in order. */
  function Words(s: string): (ws: seq<string>)
    ensures forall k :: 0 <= k < |ws| ==> IsWord(ws[k])
    ensures AllSpace(s) <==> ws == []
    decreases |s|
  {
    if s == [] then []
    else if IsSpace(s[0]) then Words(s[1..])
    else
      var n := WordLen(s);
      [s[..n]] + Words(s[n..])
  }

  lemma {:induction false} WordLenOfWord(w: string, rest: string)
    requires IsWord(w)
    requires rest == [] || IsSpace(rest[0])
    ensures WordLen(w + rest) == |w|
    decreases |w|
  {
    if |w| > 1 {
      assert (w + rest)[1..] == w[1..] + rest;
      WordLenOfWord(w[1..], rest);
    } else {
      assert (w + rest)[1..] == rest;
    }
  }

  /** A word followed by whitespace (or nothing) is split off as one word. */
  lemma WordsOfWordThen(w: string, rest: string)
    requires IsWord(w)
    requires rest == [] || IsSpace(rest[0])
    ensures Words(w + rest) == [w] + Words(rest)
  {
    WordLenOfWord(w, rest);
    var s := w + rest;
    assert s[..|w|] == w;
    assert s[|w|..] == rest;
  }

  lemma WordsOfSpaceThen(rest: string)
    ensures Words(" " + rest) == Words(rest)
  {
    assert (" " + rest)[1..] == rest;
  }

  /** Leading whitespace yields no word. */
  lemma {:induction false} WordsOfSpacePrefix(sp: string, rest: string)
    requires AllSpace(sp)
    ensures Words(sp + rest) == Words(rest)
    decreases |sp|
  {
    if sp != [] {
      assert (sp + rest)[1..] == sp[1..] + rest;
      WordsOfSpacePrefix(sp[1..], rest);
    } else {
      assert sp + rest == rest;
    }
  }

  /** A word alone splits into itself. */
  lemma WordsOfWord(w: string)
    requires IsWord(w)
    ensures Words(w) == [w]
  {
    WordsOfWordThen(w, "");
    assert w + "" == w;
  }

  /** A word, then a run of whitespace, then more text: the word comes first
      and the run is dropped. Together with `WordsOfSpacePrefix` and
      `WordsOfWord` this pins `Words` down as the maximal non-space runs in
      order. */
  lemma WordsOfWordSpace(w: string, sp: string, rest: string)
    requires IsWord(w)
    requires sp != [] && AllSpace(sp)
    ensures Words(w + sp + rest) == [w] + Words(rest)
  {
    assert w + sp + rest == w + (sp + rest);
    WordsOfWordThen(w, sp + rest);
    WordsOfSpacePrefix(sp, rest);
  }

  /** Joining words with single spaces and splitting again gives back the words. */
  lemma {:induction false} WordsOfJoin(ws: seq<string>)
    requires forall k :: 0 <= k < |ws| ==> IsWord(ws[k])
    ensures Words(Join(" ", ws)) == ws
  {
    if |ws| == 1 {
      WordsOfWordThen(ws[0], "");
      assert ws[0] + "" == ws[0];
    } else if |ws| > 1 {
      var tail := Join(" ", ws[1..]);
      assert Join(" ", ws) == ws[0] + (" " + tail);
      WordsOfWordThen(ws[0], " " + tail);
      WordsOfSpaceThen(tail);
      WordsOfJoin(ws[1..]);
      assert ws == [ws[0]] + ws[1..];
    }
  }

  // ---------------------------------------------------------------- case

  function LowerChar(c: char): char {
    if 'A' <= c <= 'Z' then (c as int + 32) as char else c
  }

  function UpperChar(c: char): char {
    if 'a' <= c <= 'z' then (c as int - 32) as char else c
  }

  predicate IsLetter(c: char) {
    ('A' <= c <= 'Z') || ('a' <= c <= 'z')
  }

  /** `s.lower()` on ASCII letters. */
  function Lower(s: string): (r: string)
    ensures |r| == |s|
    ensures forall i :: 0 <= i < |s| ==> r[i] == LowerChar(s[i])
  {
    seq(|s|, i requires 0 <= i < |s| => LowerChar(s[i]))
  }

  /** `s.title()` on ASCII letters: a letter is upper-cased when the character
      before it is not a letter and lower-cased otherwise. */
  function TitleCase(s: string): (r: string)
    ensures |r| == |s|
    ensures forall i :: 0 <= i < |s| && !IsLetter(s[i]) ==> r[i] == s[i]
    ensures s != [] ==> r[0] == UpperChar(s[0])
  {
    seq(|s|, i requires 0 <= i < |s| =>
      if !IsLetter(s[i]) then s[i]
      else if i == 0 || !IsLetter(s[i - 1]) then UpperChar(s[i])
      else LowerChar(s[i]))
  }

  // ---------------------------------------------------------------- numbers

  predicate IsDigits(s: string) {
    forall i :: 0 <= i < |s| ==> '0' <= s[i] <= '9'
  }

  /** A string of digits holds no other character. */
  lemma DigitsAvoid(s: string, c: char)
    requires IsDigits(s) && !('0' <= c <= '9')
    ensures c !in s
  {
    forall i | 0 <= i < |s| ensures s[i] != c {
    }
  }

  function DigitChar(d: nat): (c: char)
    requires d < 10
    ensures '0' <= c <= '9' && c as int - '0' as int == d
  {
    ('0' as int + d) as char
  }

  /** `str(n)` for a non-negative integer: decimal digits, no leading zero. */
  function Decimal(n: nat): (r: string)
    ensures |r| >= 1 && IsDigits(r)
    ensures r[0] == '0' ==> n == 0
  {
    if n < 10 then [DigitChar(n)] else Decimal(n / 10) + [DigitChar(n % 10)]
  }

  /** The number a string of decimal digits denotes (leading zeros allowed). */
  function DecimalValue(s: string): nat
    requires IsDigits(s)
  {
    if s == [] then 0 else DecimalValue(s[..|s| - 1]) * 10 + (s[|s| - 1] as int - '0' as int)
  }

  lemma {:induction false} DecimalRoundTrip(n: nat)
    ensures DecimalValue(Decimal(n)) == n
  {
    if n >= 10 {
      var r := Decimal(n);
      assert r[..|r| - 1] == Decimal(n / 10);
      DecimalRoundTrip(n / 10);
    }
  }

  /** `f"{n:0{width}d}"` for a non-negative integer: zero-padded on the left. */
  function ZeroPadded(n: nat, width: nat): (r: string)
    ensures IsDigits(r)
    ensures |r| == if |Decimal(n)| < width then width else |Decimal(n)|
    ensures r[|r| - |Decimal(n)|..] == Decimal(n)
  {
    var d := Decimal(n);
    if |d| < width then Zeros(width - |d|) + d else d
  }

  function Zeros(k: nat): (z: string)
    ensures |z| == k && IsDigits(z)
  {
    seq(k, _ => '0')
  }

  lemma {:induction false} LeadingZeroValue(s: string)
    requires IsDigits(s)
    ensures IsDigits("0" + s) && DecimalValue("0" + s) == DecimalValue(s)
    decreases |s|
  {
    if s != [] {
      var t := "0" + s;
      assert t[..|t| - 1] == "0" + s[..|s| - 1];
      LeadingZeroValue(s[..|s| - 1]);
    }
  }

  lemma {:induction false} ZerosValue(k: nat, s: string)
    requires IsDigits(s)
    ensures IsDigits(Zeros(k) + s) && DecimalValue(Zeros(k) + s) == DecimalValue(s)
  {
    if k > 0 {
      assert Zeros(k) + s == "0" + (Zeros(k - 1) + s);
      ZerosValue(k - 1, s);
      LeadingZeroValue(Zeros(k - 1) + s);
    } else {
      assert Zeros(k) + s == s;
    }
  }

  /** Zero-padded decimals still denote their number, so distinct numbers get
      distinct padded strings. */
  lemma ZeroPaddedValue(n: nat, width: nat)
    ensures DecimalValue(ZeroPadded(n, width)) == n
  {
    ZeroPaddedShape(n, width);
    ZerosValue(PadCount(n, width), Decimal(n));
    DecimalRoundTrip(n);
  }

  function PadCount(n: nat, width: nat): nat {
    if |Decimal(n)| < width then width - |Decimal(n)| else 0
  }

  lemma ZeroPaddedShape(n: nat, width: nat)
    ensures ZeroPadded(n, width) == Zeros(PadCount(n, width)) + Decimal(n)
  {
    if |Decimal(n)| >= width {
      assert Zeros(0) + Decimal(n) == Decimal(n);
    }
  }

  lemma ZeroPaddedInjective(m: nat, n: nat, width: nat)
    requires m != n
    ensures ZeroPadded(m, width) != ZeroPadded(n, width)
  {
    ZeroPaddedValue(m, width);
    ZeroPaddedValue(n, width);
  }
}
