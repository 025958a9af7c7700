/** Receipt text: the columns characters take, cutting a word to the paper, and wrapping. */
module ReceiptLayout {
  import opened WhiteSpace

  /** Text is a sequence of code points, as `Array.from` splits a string. */
  type Text = seq<nat>

  const BLANK: nat := 0x20

  predicate Space(c: nat) {
    IsWhite(c)
  }

  function CharWidth(c: nat): nat {
    if 0x300 <= c <= 0x36f then 0
    else if c >= 0x1100
         && (c <= 0x115f || c == 0x2329 || c == 0x232a || 0x2e80 <= c <= 0xa4cf || 0xac00 <= c <= 0xd7a3
             || 0xf900 <= c <= 0xfaff || 0xfe10 <= c <= 0xfe19 || 0xfe30 <= c <= 0xfe6f
             || 0xff00 <= c <= 0xff60 || 0xffe0 <= c <= 0xffe6)
      then 2
    else 1
  }

  function Width(s: Text): nat {
    if s == [] then 0 else Width(s[..|s| - 1]) + CharWidth(s[|s| - 1])
  }

  lemma {:induction false} WidthConcat(s: Text, t: Text)
    ensures Width(s + t) == Width(s) + Width(t)
  {
    if t == [] {
      assert s + t == s;
    } else {
      assert (s + t)[..|s + t| - 1] == s + t[..|t| - 1];
      WidthConcat(s, t[..|t| - 1]);
    }
  }

  lemma WidthCut(s: Text, n: nat)
    requires n <= |s|
    ensures Width(s) == Width(s[..n]) + Width(s[n..])
  {
    WidthConcat(s[..n], s[n..]);
    assert s == s[..n] + s[n..];
  }

  lemma WidthOne(c: nat)
    ensures Width([c]) == CharWidth(c)
  {
    assert [c][..0] == [];
  }

  method DisplayWidth(value: Text) returns (width: nat)
    ensures width == Width(value)
  {
    width := 0;
    for i := 0 to |value|
      invariant width == Width(value[..i])
    {
      assert value[..i + 1][..i] == value[..i];
      var codePoint := value[i];
      if 0x300 <= codePoint <= 0x36f { continue; }
      width := width + CharWidth(codePoint);
    }
    assert value[..|value|] == value;
  }

  // ----- cutting

  /** How many leading characters fit into the width. */
  function Fit(s: Text, width: nat): (n: nat)
    ensures n <= |s| && Width(s[..n]) <= width
  {
    if s == [] then 0 else
    var front := s[..|s| - 1];
    var n := Fit(front, width);
    assert front[..n] == s[..n];
    assert s[..|s|] == s;
    if n == |front| && Width(s) <= width then |s| else n
  }

  lemma {:induction false} WidthGrows(s: Text, m: nat, n: nat)
    requires m <= n <= |s|
    ensures Width(s[..m]) <= Width(s[..n])
  {
    if m < n {
      assert s[..n][..n - 1] == s[..n - 1];
      WidthGrows(s, m, n - 1);
    }
  }

  /** The longest prefix that fits, whatever combining marks follow it: one more character does not fit. */
  lemma {:induction false} FitIsLongest(s: Text, width: nat, n: nat)
    requires n <= |s|
    ensures n <= Fit(s, width) <==> Width(s[..n]) <= width
    decreases |s|
  {
    if s != [] {
      var front := s[..|s| - 1];
      if n == |s| {
        assert s[..n] == s;
        FitIsLongest(front, width, |front|);
        assert front[..|front|] == front;
      } else {
        assert s[..n] == front[..n];
        FitIsLongest(front, width, n);
      }
    }
  }

  method TakeColumns(value: Text, width: nat) returns (part: Text, rest: Text)
    ensures part == value[..Fit(value, width)] && rest == value[Fit(value, width)..]
    ensures part + rest == value && Width(part) <= width
    ensures rest != [] ==> Width(part) + CharWidth(rest[0]) > width
  {
    var used, offset := 0, 0;
    while offset < |value|
      invariant offset <= |value| && used == Width(value[..offset]) <= width
    {
      assert value[..offset + 1][..offset] == value[..offset];
      var characterWidth := CharWidth(value[offset]);
      if used + characterWidth > width { break; }
      used, offset := used + characterWidth, offset + 1;
    }
    FitIsLongest(value, width, offset);
    if offset < |value| { FitIsLongest(value, width, offset + 1); }
    part, rest := value[..offset], value[offset..];
  }

  // ----- overlong words

  predicate CharsFit(s: Text, width: nat) {
    forall i :: 0 <= i < |s| ==> CharWidth(s[i]) <= width
  }

  lemma Progress(s: Text, width: nat)
    requires Width(s) > width
    ensures Fit(s, width) < |s|
    ensures CharWidth(s[Fit(s, width)]) > 0
    ensures Width(s[..Fit(s, width)]) + CharWidth(s[Fit(s, width)]) > width
    ensures Fit(s, width) == 0 <==> CharWidth(s[0]) > width
  {
    var n := Fit(s, width);
    assert s[..|s|] == s;
    FitIsLongest(s, width, n + 1);
    assert s[..n + 1][..n] == s[..n];
    FitIsLongest(s, width, 1);
    assert s[..1] == [s[0]];
    WidthOne(s[0]);
  }

  /** What the inner loop has left of a word after `n` rounds. */
  function Left(word: Text, width: nat, n: nat): Text {
    if n == 0 then word else
    var rest := Left(word, width, n - 1);
    if Width(rest) > width then rest[Fit(rest, width)..] else rest
  }

  /** The inner loop ends for a word if and only if every character fits the paper. */
  lemma {:induction false} EndsExactlyWhenCharsFit(word: Text, width: nat)
    ensures (exists n: nat :: Width(Left(word, width, n)) <= width) <==> CharsFit(word, width)
  {
    if CharsFit(word, width) {
      Shrinks(word, width, |word|);
      WidthOfEmpty();
      assert Width(Left(word, width, |word|)) <= width;
    }
    if n: nat :| Width(Left(word, width, n)) <= width {
      LeftFits(word, width, n);
    }
  }

  lemma WidthOfEmpty()
    ensures Width([]) == 0
  {
  }

  lemma {:induction false} Shrinks(word: Text, width: nat, n: nat)
    requires CharsFit(word, width) && n <= |word|
    ensures CharsFit(Left(word, width, n), width)
    ensures Width(Left(word, width, n)) <= width || |Left(word, width, n)| <= |word| - n
  {
    if n > 0 {
      Shrinks(word, width, n - 1);
      var rest := Left(word, width, n - 1);
      if Width(rest) > width { Progress(rest, width); }
    }
  }

  lemma {:induction false} NarrowEnough(s: Text, width: nat)
    requires Width(s) <= width
    ensures CharsFit(s, width)
  {
    forall i | 0 <= i < |s| ensures CharWidth(s[i]) <= width {
      assert s[..i + 1][..i] == s[..i];
      assert s[..|s|] == s;
      WidthGrows(s, i + 1, |s|);
    }
  }

  /** Nothing too wide is ever taken off. */
  lemma {:induction false} LeftFits(word: Text, width: nat, n: nat)
    requires CharsFit(Left(word, width, n), width)|| Width(Left(word, width, n)) <= width
    ensures CharsFit(word, width)
  {
    if Width(Left(word, width, n)) <= width { NarrowEnough(Left(word, width, n), width); }
    if n > 0 {
      var rest := Left(word, width, n - 1);
      if Width(rest) > width {
        var k := Fit(rest, width);
        NarrowEnough(rest[..k], width);
        forall i | 0 <= i < |rest| ensures CharWidth(rest[i]) <= width {
          if i < k { assert rest[i] == rest[..k][i]; } else { assert rest[i] == rest[k..][i - k]; }
        }
      }
      LeftFits(word, width, n - 1);
    }
  }

  /** The lines cut off a word. */
  function Parts(word: Text, width: nat): seq<Text>
    requires CharsFit(word, width)
    decreases |word|
  {
    if Width(word) <= width then [] else
    Progress(word, width);
    [word[..Fit(word, width)]] + Parts(word[Fit(word, width)..], width)
  }

  /** What is left of it for the line after them. */
  function Remainder(word: Text, width: nat): Text
    requires CharsFit(word, width)
    decreases |word|
  {
    if Width(word) <= width then word else
    Progress(word, width);
    Remainder(word[Fit(word, width)..], width)
  }
}
