/**
 * Text primitives shared by the four generators.
 *
 * Every generator builds its document from JavaScript's `Array.prototype.join`,
 * `String.prototype.split` on a one-character separator and, in the forms,
 * `String.prototype.trim`. They are defined here once, on `string`
 * (`seq<char>`), together with the facts the generators rely on: split and join
 * are inverse, joining the pieces of a split replaces every separator, and the
 * lines of a document built by joining single lines with "\n" are those lines.
 */
module Text {

  datatype Option<T> = None | Some(value: T)

  /** `xs.join(sep)`: the elements with `sep` between neighbours, "" for no elements. */
  function JoinWith(xs: seq<string>, sep: string): string
    decreases |xs|
  {
    if |xs| == 0 then ""
    else if |xs| == 1 then xs[0]
    else xs[0] + sep + JoinWith(xs[1..], sep)
  }

  /** Number of occurrences of `c` in `s`. */
  function CountChar(s: string, c: char): nat
    decreases |s|
  {
    if |s| == 0 then 0
    else (if s[0] == c then 1 else 0) + CountChar(s[1..], c)
  }

  /** Counting distributes over concatenation. */
  lemma {:induction false} CountCharAppend(a: string, b: string, c: char)
    ensures CountChar(a + b, c) == CountChar(a, c) + CountChar(b, c)
    decreases |a|
  {
    if |a| == 0 {
      assert a + b == b;
    } else {
      assert (a + b)[0] == a[0] && (a + b)[1..] == a[1..] + b;
      CountCharAppend(a[1..], b, c);
      assert CountChar(a + b, c) == (if a[0] == c then 1 else 0) + CountChar(a[1..] + b, c);
    }
  }

  /** A character that does not occur is counted zero times. */
  lemma {:induction false} CountCharOut(s: string, c: char)
    requires c !in s
    ensures CountChar(s, c) == 0
    decreases |s|
  {
    if |s| > 0 {
      CountCharOut(s[1..], c);
    }
  }

  /**
   * `s.split(c)` for a one-character separator: the maximal pieces between
   * occurrences of `c`, empty pieces included ("" splits into [""]).
   */
  function SplitOn(s: string, c: char): (r: seq<string>)
    ensures |r| == CountChar(s, c) + 1
    ensures forall i :: 0 <= i < |r| ==> c !in r[i]
    decreases |s|
  {
    if |s| == 0 then [""]
    else
      var rest := SplitOn(s[1..], c);
      if s[0] == c then [""] + rest
      else [[s[0]] + rest[0]] + rest[1..]
  }

  /** `s` with every occurrence of `c` replaced by the text `t`. */
  function ReplaceChar(s: string, c: char, t: string): string
    decreases |s|
  {
    if |s| == 0 then ""
    else (if s[0] == c then t else [s[0]]) + ReplaceChar(s[1..], c, t)
  }

  /** `code.split('\n')`, the lines a viewer displays. */
  function Lines(s: string): seq<string>
  {
    SplitOn(s, '\n')
  }

  /** A document made of the given lines. */
  function Unlines(ls: seq<string>): string
  {
    JoinWith(ls, "\n")
  }

  /** The line count shown under a preview: `code.split('\n').length`. */
  function LineCount(code: string): (n: nat)
    ensures n == CountChar(code, '\n') + 1
    ensures n >= 1
  {
    |Lines(code)|
  }

  /** No line of `ls` contains a line break. */
  predicate SingleLines(ls: seq<string>)
  {
    forall i :: 0 <= i < |ls| ==> '\n' !in ls[i]
  }

  /** `xs` with `p` put in front of its first element. */
  lemma {:induction false} JoinWithHead(p: string, xs: seq<string>, sep: string)
    requires |xs| >= 1
    ensures JoinWith([p + xs[0]] + xs[1..], sep) == p + JoinWith(xs, sep)
  {
    var ys := [p + xs[0]] + xs[1..];
    assert ys[1..] == xs[1..];
    if |xs| > 1 {
      assert JoinWith(ys, sep) == (p + xs[0]) + sep + JoinWith(xs[1..], sep);
    }
  }

  /** Joining two non-empty lists puts exactly one separator between them. */
  lemma {:induction false} JoinWithAppend(xs: seq<string>, ys: seq<string>, sep: string)
    requires |xs| >= 1 && |ys| >= 1
    ensures JoinWith(xs + ys, sep) == JoinWith(xs, sep) + sep + JoinWith(ys, sep)
    decreases |xs|
  {
    var zs := xs + ys;
    if |xs| == 1 {
      assert zs[1..] == ys;
    } else {
      assert zs[1..] == xs[1..] + ys;
      JoinWithAppend(xs[1..], ys, sep);
    }
  }

  /** Joining the pieces of `s.split(c)` with `sep` replaces every `c` of `s` by `sep`. */
  lemma {:induction false} JoinSplitIsReplace(s: string, c: char, sep: string)
    ensures JoinWith(SplitOn(s, c), sep) == ReplaceChar(s, c, sep)
    decreases |s|
  {
    if |s| > 0 {
      var rest := SplitOn(s[1..], c);
      JoinSplitIsReplace(s[1..], c, sep);
      if s[0] == c {
        var r := [""] + rest;
        assert r[1..] == rest;
        assert JoinWith(r, sep) == "" + sep + JoinWith(rest, sep);
      } else {
        JoinWithHead([s[0]], rest, sep);
      }
    }
  }

  /** Replacing a character by itself changes nothing. */
  lemma {:induction false} ReplaceCharBySelf(s: string, c: char)
    ensures ReplaceChar(s, c, [c]) == s
    decreases |s|
  {
    if |s| > 0 {
      ReplaceCharBySelf(s[1..], c);
      assert s == [s[0]] + s[1..];
    }
  }

  /** `s.split(c).join(c) == s` for every string. */
  lemma JoinSplit(s: string, c: char)
    ensures JoinWith(SplitOn(s, c), [c]) == s
  {
    JoinSplitIsReplace(s, c, [c]);
    ReplaceCharBySelf(s, c);
  }

  /** A string without the separator is one piece. */
  lemma {:induction false} SplitWithoutSeparator(a: string, c: char)
    requires c !in a
    ensures SplitOn(a, c) == [a]
    decreases |a|
  {
    if |a| > 0 {
      assert c !in a[1..] by {
        forall i | 0 <= i < |a[1..]| ensures a[1..][i] != c { assert a[1..][i] == a[i + 1]; }
      }
      SplitWithoutSeparator(a[1..], c);
      assert a == [a[0]] + a[1..];
    }
  }

  /** Splitting at one separator splits both sides independently. */
  lemma {:induction false} SplitAtSeparator(a: string, b: string, c: char)
    ensures SplitOn(a + [c] + b, c) == SplitOn(a, c) + SplitOn(b, c)
    decreases |a|
  {
    var s := a + [c] + b;
    if |a| == 0 {
      assert s[1..] == b;
    } else {
      assert s[1..] == a[1..] + [c] + b;
      SplitAtSeparator(a[1..], b, c);
    }
  }

  /** `xs.join(c).split(c) == xs` when no element contains the separator. */
  lemma {:induction false} SplitJoin(xs: seq<string>, c: char)
    requires |xs| >= 1
    requires forall i :: 0 <= i < |xs| ==> c !in xs[i]
    ensures SplitOn(JoinWith(xs, [c]), c) == xs
    decreases |xs|
  {
    SplitWithoutSeparator(xs[0], c);
    if |xs| > 1 {
      SplitJoin(xs[1..], c);
      SplitAtSeparator(xs[0], JoinWith(xs[1..], [c]), c);
      assert [xs[0]] + xs[1..] == xs;
    }
  }

  /** The lines of a document built from single lines are those lines. */
  lemma LinesOfUnlines(ls: seq<string>)
    requires |ls| >= 1 && SingleLines(ls)
    ensures Lines(Unlines(ls)) == ls
  {
    SplitJoin(ls, '\n');
  }

  /** Two documents concatenated with a line break between them. */
  lemma UnlinesAppend(xs: seq<string>, ys: seq<string>)
    requires |xs| >= 1 && |ys| >= 1
    ensures Unlines(xs + ys) == Unlines(xs) + "\n" + Unlines(ys)
  {
    JoinWithAppend(xs, ys, "\n");
  }

  // ---------------------------------------------------------------------------
  // String.prototype.trim

  /**
   * The characters `String.prototype.trim` removes: ECMAScript WhiteSpace
   * (tab, vertical tab, form feed, space, no-break space, byte order mark and
   * the Unicode space separators) and LineTerminator (LF, CR, U+2028, U+2029).
   */
  predicate IsJsSpace(ch: char)
  {
    || ch == '\t' || ch == '\n' || ch == '\U{000B}' || ch == '\U{000C}' || ch == '\r'
    || ch == ' ' || ch == '\U{00A0}' || ch == '\U{1680}'
    || ('\U{2000}' <= ch <= '\U{200A}')
    || ch == '\U{2028}' || ch == '\U{2029}' || ch == '\U{202F}' || ch == '\U{205F}'
    || ch == '\U{3000}' || ch == '\U{FEFF}'
  }

  /** Neither end of `s` is a space character. */
  predicate IsTrimmed(s: string)
  {
    |s| == 0 || (!IsJsSpace(s[0]) && !IsJsSpace(s[|s| - 1]))
  }

  /** Length of the run of space characters at the start of `s`. */
  function LeadingSpace(s: string): (k: nat)
    ensures k <= |s|
    ensures forall i :: 0 <= i < k ==> IsJsSpace(s[i])
    ensures k < |s| ==> !IsJsSpace(s[k])
    decreases |s|
  {
    if |s| > 0 && IsJsSpace(s[0]) then 1 + LeadingSpace(s[1..]) else 0
  }

  /** Length of the run of space characters at the end of `s`. */
  function TrailingSpace(s: string): (k: nat)
    ensures k <= |s|
    ensures forall i :: |s| - k <= i < |s| ==> IsJsSpace(s[i])
    ensures k < |s| ==> !IsJsSpace(s[|s| - 1 - k])
    decreases |s|
  {
    if |s| > 0 && IsJsSpace(s[|s| - 1]) then 1 + TrailingSpace(s[..|s| - 1]) else 0
  }

  /** `s.trim()`: `s` without its leading and trailing space characters. */
  function Trim(s: string): (r: string)
    ensures IsTrimmed(r)
    ensures IsTrimmed(s) ==> r == s
    ensures forall ch :: ch in r ==> ch in s
    ensures LeadingSpace(s) + |r| <= |s|
    ensures s == s[..LeadingSpace(s)] + r + s[LeadingSpace(s) + |r|..]
    ensures forall i :: 0 <= i < LeadingSpace(s) ==> IsJsSpace(s[i])
    ensures forall i :: LeadingSpace(s) + |r| <= i < |s| ==> IsJsSpace(s[i])
  {
    var k := LeadingSpace(s);
    var t := s[k..];
    var r := t[..|t| - TrailingSpace(t)];
    assert s == s[..k] + r + s[k + |r|..];
    r
  }

  /** A trimmed word after one space trims back to itself. */
  lemma TrimAfterSpace(x: string)
    requires x != "" && IsTrimmed(x)
    ensures Trim(" " + x) == x
  {
    var s := " " + x;
    assert LeadingSpace(s) == 1 by {
      assert IsJsSpace(s[0]) && !IsJsSpace(s[1]);
      assert s[1..] == x;
    }
    assert s[1..] == x;
  }

  // ---------------------------------------------------------------------------
  // Form-level list edits

  /** `xs.filter(t => t !== x)`. */
  function Without(xs: seq<string>, x: string): (r: seq<string>)
    ensures x !in r
    ensures forall y :: y != x ==> multiset(r)[y] == multiset(xs)[y]
    decreases |xs|
  {
    if |xs| == 0 then []
    else
      assert xs == [xs[0]] + xs[1..];
      (if xs[0] == x then [] else [xs[0]]) + Without(xs[1..], x)
  }

  /** Filtering distributes over concatenation, so the others keep their order. */
  lemma {:induction false} WithoutAppend(xs: seq<string>, ys: seq<string>, x: string)
    ensures Without(xs + ys, x) == Without(xs, x) + Without(ys, x)
    decreases |xs|
  {
    if |xs| == 0 {
      assert xs + ys == ys;
    } else {
      var zs := xs + ys;
      assert zs[0] == xs[0] && zs[1..] == xs[1..] + ys;
      WithoutAppend(xs[1..], ys, x);
      assert Without(zs, x) == (if xs[0] == x then [] else [xs[0]]) + Without(xs[1..] + ys, x);
    }
  }

  /** Removing an absent value changes nothing. */
  lemma {:induction false} WithoutAbsent(xs: seq<string>, x: string)
    requires x !in xs
    ensures Without(xs, x) == xs
    decreases |xs|
  {
    if |xs| > 0 {
      assert x !in xs[1..];
      WithoutAbsent(xs[1..], x);
    }
  }

  /** A checkbox change: checking appends the value, unchecking removes every copy. */
  function Toggle(xs: seq<string>, x: string, checked: bool): seq<string>
  {
    if checked then xs + [x] else Without(xs, x)
  }

  /** Checking then unchecking a value that was not in the list restores the list. */
  lemma ToggleOnOff(xs: seq<string>, x: string)
    requires x !in xs
    ensures Toggle(Toggle(xs, x, true), x, false) == xs
  {
    WithoutAppend(xs, [x], x);
    WithoutAbsent(xs, x);
  }

  /** Checking appends at the end; unchecking leaves no copy and the others in order. */
  lemma ToggleEffect(xs: seq<string>, x: string, checked: bool)
    ensures checked ==> |Toggle(xs, x, true)| == |xs| + 1 && Toggle(xs, x, true)[..|xs|] == xs
                        && Toggle(xs, x, true)[|xs|] == x
    ensures !checked ==> x !in Toggle(xs, x, false)
    ensures !checked ==> forall y :: y != x ==> multiset(Toggle(xs, x, false))[y] == multiset(xs)[y]
  {
    assert (xs + [x])[..|xs|] == xs;
  }

  /** A checkbox change keeps every element on one line. */
  lemma ToggleSingleLines(xs: seq<string>, x: string, checked: bool)
    requires SingleLines(xs) && '\n' !in x
    ensures SingleLines(Toggle(xs, x, checked))
  {
    var r := Toggle(xs, x, checked);
    if !checked {
      forall i | 0 <= i < |r| ensures r[i] in xs {
        assert multiset(r)[r[i]] > 0;
      }
    }
  }

  // ---------------------------------------------------------------------------
  // Comma-separated list fields

  /** The non-empty elements of `xs`, in order: `xs.filter(u => u)`. */
  function NonEmpty(xs: seq<string>): (r: seq<string>)
    ensures forall i :: 0 <= i < |r| ==> r[i] != ""
    ensures forall i :: 0 <= i < |r| ==> r[i] in xs
    ensures r == Without(xs, "")
    decreases |xs|
  {
    if |xs| == 0 then []
    else (if xs[0] == "" then [] else [xs[0]]) + NonEmpty(xs[1..])
  }

  /** `xs.map(u => u.trim())`. */
  function TrimAll(xs: seq<string>): (r: seq<string>)
    ensures |r| == |xs|
    ensures forall i :: 0 <= i < |xs| ==> r[i] == Trim(xs[i])
  {
    seq(|xs|, i requires 0 <= i < |xs| => Trim(xs[i]))
  }

  /** A list the forms can display and read back: non-empty, trimmed, comma-free words. */
  predicate IsListWords(xs: seq<string>)
  {
    forall i :: 0 <= i < |xs| ==> xs[i] != "" && IsTrimmed(xs[i]) && ',' !in xs[i]
  }

  /** The comma-list field: `text.split(",").map(u => u.trim()).filter(u => u)`. */
  function ParseCommaList(text: string): (r: seq<string>)
    ensures IsListWords(r)
  {
    var pieces := SplitOn(text, ',');
    var trimmed := TrimAll(pieces);
    assert forall i :: 0 <= i < |trimmed| ==> ',' !in trimmed[i];
    NonEmpty(trimmed)
  }

  /** Text without a comma is one segment: its trimmed text, dropped when that is empty. */
  lemma ParseCommaListSegment(a: string)
    requires ',' !in a
    ensures ParseCommaList(a) == if Trim(a) == "" then [] else [Trim(a)]
  {
    SplitWithoutSeparator(a, ',');
    assert TrimAll([a]) == [Trim(a)];
    assert [Trim(a)][1..] == [];
  }

  /** A comma splits the text into two parts that are read independently, in order. */
  lemma ParseCommaListAtComma(a: string, b: string)
    ensures ParseCommaList(a + "," + b) == ParseCommaList(a) + ParseCommaList(b)
  {
    var x, y := SplitOn(a, ','), SplitOn(b, ',');
    SplitOnComma(a, b);
    TrimAllAppend(x, y);
    WithoutAppend(TrimAll(x), TrimAll(y), "");
    ParseCommaListFiltered(a + "," + b);
    ParseCommaListFiltered(a);
    ParseCommaListFiltered(b);
  }

  lemma SplitOnComma(a: string, b: string)
    ensures SplitOn(a + "," + b, ',') == SplitOn(a, ',') + SplitOn(b, ',')
  {
    assert a + "," + b == a + [','] + b;
    SplitAtSeparator(a, b, ',');
  }

  lemma TrimAllAppend(x: seq<string>, y: seq<string>)
    ensures TrimAll(x + y) == TrimAll(x) + TrimAll(y)
  {
  }

  lemma ParseCommaListFiltered(text: string)
    ensures ParseCommaList(text) == Without(TrimAll(SplitOn(text, ',')), "")
  {
  }

  /** An empty segment between two commas adds nothing. */
  lemma ParseCommaListSkipsEmpty(a: string, b: string)
    ensures ParseCommaList(a + ",," + b) == ParseCommaList(a) + ParseCommaList(b)
  {
    var rest := "," + b;
    assert a + ",," + b == a + "," + rest;
    ParseCommaListAtComma(a, rest);
    LeadingComma(b);
  }

  /** A comma at the front of the text adds nothing. */
  lemma LeadingComma(b: string)
    ensures ParseCommaList("," + b) == ParseCommaList(b)
  {
    var pieces := SplitOn(b, ',');
    SplitLeadingComma(b);
    BlankPieceTrimmed(pieces);
    WithoutAppend([""], TrimAll(pieces), "");
    ParseCommaListFiltered("," + b);
    ParseCommaListFiltered(b);
  }

  lemma SplitLeadingComma(b: string)
    ensures SplitOn("," + b, ',') == [""] + SplitOn(b, ',')
  {
    var s := "," + b;
    assert s[0] == ',' && s[1..] == b;
  }

  lemma BlankPieceTrimmed(pieces: seq<string>)
    ensures TrimAll([""] + pieces) == [""] + TrimAll(pieces)
  {
    assert Trim("") == "";
  }

  /** Non-empty elements are kept as they are. */
  lemma {:induction false} NonEmptyKeeps(xs: seq<string>)
    requires forall i :: 0 <= i < |xs| ==> xs[i] != ""
    ensures NonEmpty(xs) == xs
    decreases |xs|
  {
    if |xs| > 0 {
      NonEmptyKeeps(xs[1..]);
      assert NonEmpty(xs) == [xs[0]] + NonEmpty(xs[1..]);
      assert xs == [xs[0]] + xs[1..];
    }
  }

  /** Joining with ", " is joining with "," after putting a space before every later word. */
  lemma {:induction false} JoinCommaSpace(xs: seq<string>)
    requires |xs| >= 1
    ensures JoinWith(xs, ", ") == JoinWith([xs[0]] + SpaceBefore(xs[1..]), ",")
    decreases |xs|
  {
    if |xs| > 1 {
      var tail := xs[1..];
      JoinCommaSpace(tail);
      var ys := [xs[0]] + SpaceBefore(tail);
      assert ys[1..] == SpaceBefore(tail);
      var zs := [tail[0]] + SpaceBefore(tail[1..]);
      assert SpaceBefore(tail) == [" " + tail[0]] + SpaceBefore(tail[1..]);
      JoinWithHead(" ", zs, ",");
      assert [" " + zs[0]] + zs[1..] == SpaceBefore(tail);
    }
  }

  /** Every element with one space in front. */
  function SpaceBefore(xs: seq<string>): (r: seq<string>)
    ensures |r| == |xs|
    ensures forall i :: 0 <= i < |xs| ==> r[i] == " " + xs[i]
    decreases |xs|
  {
    if |xs| == 0 then [] else [" " + xs[0]] + SpaceBefore(xs[1..])
  }

  /**
   * The display/parse round trip of a comma-list field: a list shown as
   * `xs.join(", ")` and read back gives the same list.
   */
  lemma ParseShownList(xs: seq<string>)
    requires IsListWords(xs)
    ensures ParseCommaList(JoinWith(xs, ", ")) == xs
  {
    if |xs| == 0 {
      assert SplitOn("", ',') == [""];
      assert TrimAll([""]) == [""];
    } else {
      ShownPieces(xs);
      ShownPiecesTrimmed(xs);
      NonEmptyKeeps(xs);
    }
  }

  /** The pieces of a displayed list: the first word, then each later word after a space. */
  lemma ShownPieces(xs: seq<string>)
    requires |xs| >= 1 && IsListWords(xs)
    ensures SplitOn(JoinWith(xs, ", "), ',') == [xs[0]] + SpaceBefore(xs[1..])
  {
    var ys := [xs[0]] + SpaceBefore(xs[1..]);
    JoinCommaSpace(xs);
    assert forall i :: 0 <= i < |ys| ==> ',' !in ys[i] by {
      forall i | 0 <= i < |ys| ensures ',' !in ys[i] {
        if i > 0 { assert ys[i] == " " + xs[i]; }
      }
    }
    SplitJoin(ys, ',');
    assert JoinWith(xs, ", ") == JoinWith(ys, [',']);
  }

  lemma ShownPiecesTrimmed(xs: seq<string>)
    requires |xs| >= 1 && IsListWords(xs)
    ensures TrimAll([xs[0]] + SpaceBefore(xs[1..])) == xs
  {
    var ys := [xs[0]] + SpaceBefore(xs[1..]);
    forall i | 1 <= i < |ys| ensures Trim(ys[i]) == xs[i] {
      assert ys[i] == " " + xs[i];
      TrimAfterSpace(xs[i]);
    }
  }


  /** Every character of a piece of a split is a character of the text. */
  lemma {:induction false} SplitOnChars(s: string, c: char)
    ensures forall i, ch :: 0 <= i < |SplitOn(s, c)| && ch in SplitOn(s, c)[i] ==> ch in s
    decreases |s|
  {
    if |s| > 0 {
      var rest := SplitOn(s[1..], c);
      SplitOnChars(s[1..], c);
      assert s == [s[0]] + s[1..];
      if s[0] != c {
        forall ch | ch in [s[0]] + rest[0] ensures ch in s {
          if ch != s[0] { assert ch in rest[0]; }
        }
      }
    }
  }

  /** A comma list read from one line of text holds single-line words. */
  lemma ParseCommaListSingleLine(text: string)
    requires '\n' !in text
    ensures SingleLines(ParseCommaList(text))
  {
    var pieces := SplitOn(text, ',');
    SplitOnChars(text, ',');
    var trimmed := TrimAll(pieces);
    assert SingleLines(trimmed);
    var r := NonEmpty(trimmed);
    assert r == ParseCommaList(text);
    forall i | 0 <= i < |r| ensures '\n' !in r[i] {
      assert r[i] in trimmed;
    }
  }

  /** Reading a comma-list field back from its own display changes nothing. */
  lemma ParseCommaListStable(text: string)
    ensures ParseCommaList(JoinWith(ParseCommaList(text), ", ")) == ParseCommaList(text)
  {
    ParseShownList(ParseCommaList(text));
  }

  // ---------------------------------------------------------------------------
  // Reading a value back from a generated document

  /** `l` is `prefix`, some text, then `suffix`. */
  predicate HasShape(l: string, prefix: string, suffix: string)
  {
    && |prefix| + |suffix| <= |l|
    // Implied by the next conjunct; stated so that the solver can rule out a
    // line by its first character without comparing whole prefixes.
    && (|prefix| == 0 || l[0] == prefix[0])
    && l[..|prefix|] == prefix
    && l[|l| - |suffix|..] == suffix
  }

  /**
   * The text between `prefix` and `suffix` on the first line of that shape,
   * as a reader of the document would find it.
   */
  function FieldOf(ls: seq<string>, prefix: string, suffix: string): Option<string>
    decreases |ls|
  {
    if |ls| == 0 then None
    else if HasShape(ls[0], prefix, suffix) then Some(ls[0][|prefix|..|ls[0]| - |suffix|])
    else FieldOf(ls[1..], prefix, suffix)
  }

  /** The field is read from line `i` when no earlier line has its shape. */
  lemma {:induction false} FieldOfAt(ls: seq<string>, i: nat, prefix: string, v: string, suffix: string)
    requires i < |ls| && ls[i] == prefix + v + suffix
    requires forall j :: 0 <= j < i ==> !HasShape(ls[j], prefix, suffix)
    ensures FieldOf(ls, prefix, suffix) == Some(v)
    decreases i
  {
    var l := prefix + v + suffix;
    assert l[..|prefix|] == prefix && l[|l| - |suffix|..] == suffix;
    assert l[|prefix|..|l| - |suffix|] == v;
    if i > 0 {
      FieldOfAt(ls[1..], i - 1, prefix, v, suffix);
    }
  }

  /** The first line of the right shape is found in the first part if it is there. */
  lemma {:induction false} FieldOfAppend(a: seq<string>, b: seq<string>, prefix: string, suffix: string)
    ensures FieldOf(a + b, prefix, suffix)
            == if FieldOf(a, prefix, suffix).Some? then FieldOf(a, prefix, suffix) else FieldOf(b, prefix, suffix)
    decreases |a|
  {
    if |a| == 0 {
      assert a + b == b;
    } else {
      assert (a + b)[0] == a[0] && (a + b)[1..] == a[1..] + b;
      FieldOfAppend(a[1..], b, prefix, suffix);
    }
  }

  /** Concatenated blocks are single lines when each block is. */
  lemma SingleLinesAppend(a: seq<string>, b: seq<string>)
    requires SingleLines(a) && SingleLines(b)
    ensures SingleLines(a + b)
  {
    forall i | 0 <= i < |a + b| ensures '\n' !in (a + b)[i] {
      if i >= |a| { assert (a + b)[i] == b[i - |a|]; }
    }
  }

  /** No line of the right shape, no field. */
  lemma {:induction false} FieldOfNone(ls: seq<string>, prefix: string, suffix: string)
    requires forall i :: 0 <= i < |ls| ==> !HasShape(ls[i], prefix, suffix)
    ensures FieldOf(ls, prefix, suffix) == None
    decreases |ls|
  {
    if |ls| > 0 {
      FieldOfNone(ls[1..], prefix, suffix);
    }
  }

  /** A line that differs from `prefix` at position `k` does not have the shape. */
  lemma NotShapedAt(l: string, prefix: string, suffix: string, k: nat)
    requires k < |prefix| && (k >= |l| || l[k] != prefix[k])
    ensures !HasShape(l, prefix, suffix)
  {
  }

  /** No line of `ls` has character `ch` at position `k`. */
  predicate NotAt(ls: seq<string>, k: nat, ch: char)
  {
    forall j :: 0 <= j < |ls| ==> k >= |ls[j]| || ls[j][k] != ch
  }

  lemma NotAtAppend(a: seq<string>, b: seq<string>, k: nat, ch: char)
    requires NotAt(a, k, ch) && NotAt(b, k, ch)
    ensures NotAt(a + b, k, ch)
  {
  }

  /** A line with `ch` at `k` is not among lines that have no `ch` there. */
  lemma NotAtAbsent(ls: seq<string>, x: string, k: nat, ch: char)
    requires NotAt(ls, k, ch) && k < |x| && x[k] == ch
    ensures x !in ls
  {
  }

  /** Every line of `ls` differs from `prefix` at position `k` (or is shorter). */
  predicate DiffersAt(ls: seq<string>, prefix: string, k: nat)
  {
    k < |prefix| && NotAt(ls, k, prefix[k])
  }

  /** Lines that all differ from the prefix hold no field. */
  lemma NoFieldIn(ls: seq<string>, prefix: string, suffix: string, k: nat)
    requires DiffersAt(ls, prefix, k)
    ensures FieldOf(ls, prefix, suffix) == None
  {
    forall j | 0 <= j < |ls| ensures !HasShape(ls[j], prefix, suffix) {
      NotShapedAt(ls[j], prefix, suffix, k);
    }
    FieldOfNone(ls, prefix, suffix);
  }

  /** The field is read from line `i` when every earlier line differs from the prefix at `k`. */
  lemma FieldOfAtDiffering(ls: seq<string>, i: nat, prefix: string, v: string, suffix: string, k: nat)
    requires i < |ls| && ls[i] == prefix + v + suffix
    requires DiffersAt(ls[..i], prefix, k)
    ensures FieldOf(ls, prefix, suffix) == Some(v)
  {
    forall j | 0 <= j < i ensures !HasShape(ls[j], prefix, suffix) {
      assert ls[..i][j] == ls[j];
      NotShapedAt(ls[j], prefix, suffix, k);
    }
    FieldOfAt(ls, i, prefix, v, suffix);
  }

  /** The lines after the first line equal to `marker` ([] when there is none). */
  function After(ls: seq<string>, marker: string): seq<string>
    decreases |ls|
  {
    if |ls| == 0 then []
    else if ls[0] == marker then ls[1..]
    else After(ls[1..], marker)
  }

  /** A marker absent from the first part is looked for in the second. */
  lemma {:induction false} AfterAppend(a: seq<string>, b: seq<string>, marker: string)
    requires marker !in a
    ensures After(a + b, marker) == After(b, marker)
    decreases |a|
  {
    if |a| == 0 {
      assert a + b == b;
    } else {
      assert (a + b)[0] == a[0] && (a + b)[1..] == a[1..] + b;
      AfterAppend(a[1..], b, marker);
    }
  }

  /** The lines after the first copy of a marker line are what follows it. */
  lemma AfterMarkerLine(before: seq<string>, marker: string, rest: seq<string>)
    requires marker !in before
    ensures After(before + [marker] + rest, marker) == rest
  {
    var j := [marker] + rest;
    assert before + [marker] + rest == before + j;
    AfterAppend(before, j, marker);
    assert j[1..] == rest;
  }

  /** Lines that all differ from `x` at position `k` do not include `x`. */
  lemma AbsentWhenDiffers(ls: seq<string>, x: string, k: nat)
    requires DiffersAt(ls, x, k)
    ensures x !in ls
  {
  }

  /** Number of lines of `ls` equal to `x`. */
  function CountLine(ls: seq<string>, x: string): nat
    decreases |ls|
  {
    if |ls| == 0 then 0
    else (if ls[0] == x then 1 else 0) + CountLine(ls[1..], x)
  }

  /** Counting distributes over concatenation. */
  lemma {:induction false} CountLineAppend(a: seq<string>, b: seq<string>, x: string)
    ensures CountLine(a + b, x) == CountLine(a, x) + CountLine(b, x)
    decreases |a|
  {
    if |a| == 0 {
      assert a + b == b;
    } else {
      assert (a + b)[0] == a[0] && (a + b)[1..] == a[1..] + b;
      CountLineAppend(a[1..], b, x);
    }
  }

  /** An absent line is counted zero times. */
  lemma {:induction false} CountLineAbsent(ls: seq<string>, x: string)
    requires x !in ls
    ensures CountLine(ls, x) == 0
    decreases |ls|
  {
    if |ls| > 0 {
      assert x !in ls[1..];
      CountLineAbsent(ls[1..], x);
    }
  }
}
