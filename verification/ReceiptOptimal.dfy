/** `wrapText` uses as few lines as possible. */
module ReceiptOptimal {
  import opened ReceiptLayout
  import opened ReceiptWrap

  /** Pieces of text with one blank between them. */
  function Join(ls: seq<Text>): Text {
    if ls == [] then []
    else if |ls| == 1 then ls[0]
    else Join(ls[..|ls| - 1]) + [BLANK] + ls[|ls| - 1]
  }

  lemma JoinMore(ls: seq<Text>, l: Text)
    requires ls != []
    ensures Join(ls + [l]) == Join(ls) + [BLANK] + l
  {
    assert (ls + [l])[..|ls|] == ls;
  }

  lemma WidthJoined(a: Text, b: Text)
    ensures Width(a + [BLANK] + b) == Width(a) + 1 + Width(b)
  {
    WidthConcat(a, [BLANK]);
    WidthConcat(a + [BLANK], b);
    WidthOne(BLANK);
  }

  // ----- as few lines as possible

  function Concat(groups: seq<seq<Text>>): seq<Text> {
    if groups == [] then [] else Concat(groups[..|groups| - 1]) + groups[|groups| - 1]
  }

  /** A way to break the words into lines that fit. */
  predicate Breaking(groups: seq<seq<Text>>, words: seq<Text>, width: nat) {
    && Concat(groups) == words
    && forall i :: 0 <= i < |groups| ==> groups[i] != [] && Width(Join(groups[i])) <= width
  }

  predicate ShortWords(ws: seq<Text>, width: nat) {
    forall i :: 0 <= i < |ws| ==> Unbroken(ws[i]) && CharsFit(ws[i], width) && Width(ws[i]) <= width
  }

  /** What the last of the lines takes of the paper. */
  function LastWidth(groups: seq<seq<Text>>): nat
    requires groups != []
  {
    Width(Join(groups[|groups| - 1]))
  }

  /** A breaking that ends with a word is a breaking of the words before it, with that word on a
      line of its own or at the end of the last line. */
  lemma TakeLastWord(groups: seq<seq<Text>>, words: seq<Text>, width: nat) returns (rest: seq<seq<Text>>)
    requires Breaking(groups, words, width) && words != []
    ensures groups != []
    ensures Breaking(rest, words[..|words| - 1], width)
    ensures || (|rest| == |groups| - 1 && LastWidth(groups) == Width(words[|words| - 1]))
            || (|rest| == |groups| && LastWidth(groups) == LastWidth(rest) + 1 + Width(words[|words| - 1]))
  {
    var n := |groups| - 1;
    var front, last := groups[..n], groups[n];
    var word := last[|last| - 1];
    assert words[..|words| - 1] == Concat(front) + last[..|last| - 1];
    if |last| == 1 {
      rest := front;
      assert Concat(front) + [] == Concat(front);
    } else {
      var shorter := last[..|last| - 1];
      rest := front + [shorter];
      assert rest[..n] == front;
      assert last == shorter + [word];
      JoinMore(shorter, word);
      WidthJoined(Join(shorter), word);
    }
  }

  /** After any number of words: no breaking has fewer lines, and one with as many fills its last
      line at least as much. */
  lemma {:induction false} GreedyIsBest(words: seq<Text>, width: nat, groups: seq<seq<Text>>)
    requires ShortWords(words, width) && words != [] && Breaking(groups, words, width)
    ensures groups != []
    ensures var st := FeedAll(NOTHING, words, width);
            && st.current != [] && |st.lines| + 1 <= |groups|
            && (|st.lines| + 1 == |groups| ==> Width(st.current) <= LastWidth(groups))
    decreases |words|
  {
    hide Width, Join, Concat;
    var front, word := words[..|words| - 1], words[|words| - 1];
    var rest := TakeLastWord(groups, words, width);
    var before := FeedAll(NOTHING, front, width);
    if front != [] {
      GreedyIsBest(front, width, rest);
      WidthJoined(before.current, word);
    }
  }

  /** When every word fits the paper, no way of breaking the text into lines uses fewer. */
  lemma {:induction false} FewestLines(value: Text, width: nat, groups: seq<seq<Text>>)
    requires Printable(value, width) && Words(value) != [] && AllFit(Words(value), width)
    requires Breaking(groups, Words(value), width)
    ensures |Lines(value, width)| <= |groups|
  {
    hide Words, Breaking, FeedAll;
    WordsAreWords(value, width);
    GreedyIsBest(Words(value), width, groups);
  }
}
