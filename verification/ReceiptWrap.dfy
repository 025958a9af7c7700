/** `wrapText`: what it computes, and that it loses nothing and never exceeds the paper. */
module ReceiptWrap {
  import opened ReceiptLayout

  // ----- words

  /** The maximal runs of characters that are not white space. */
  function Words(s: Text): (ws: seq<Text>)
    ensures s != [] && !Space(s[0]) ==> ws != []
  {
    if s == [] then []
    else if Space(s[0]) then Words(s[1..])
    else if |s| == 1 || Space(s[1]) then [[s[0]]] + Words(s[1..])
    else
      var rest := Words(s[1..]);
      [[s[0]] + rest[0]] + rest[1..]
  }

  predicate Unbroken(s: Text) {
    s != [] && forall i :: 0 <= i < |s| ==> !Space(s[i])
  }

  /** Every character that can take space on paper fits its width. */
  predicate Printable(s: Text, width: nat) {
    forall i :: 0 <= i < |s| && !Space(s[i]) ==> CharWidth(s[i]) <= width
  }

  predicate WordsOk(ws: seq<Text>, width: nat) {
    forall i :: 0 <= i < |ws| ==> Unbroken(ws[i]) && CharsFit(ws[i], width)
  }

  lemma {:induction false} WordsAreWords(s: Text, width: nat)
    requires Printable(s, width)
    ensures WordsOk(Words(s), width)
  {
    if s != [] {
      WordsAreWords(s[1..], width);
      if !Space(s[0]) && |s| > 1 && !Space(s[1]) {
        var rest := Words(s[1..]);
        assert Unbroken(rest[0]) && CharsFit(rest[0], width);
        assert Unbroken([s[0]] + rest[0]) && CharsFit([s[0]] + rest[0], width);
      }
    }
  }

  function Solid(s: Text): Text {
    if s == [] then [] else (if Space(s[0]) then [] else [s[0]]) + Solid(s[1..])
  }

  function Flat(ls: seq<Text>): Text {
    if ls == [] then [] else Flat(ls[..|ls| - 1]) + ls[|ls| - 1]
  }

  lemma {:induction false} SolidConcat(s: Text, t: Text)
    ensures Solid(s + t) == Solid(s) + Solid(t)
  {
    if s == [] {
      assert s + t == t;
    } else {
      assert (s + t)[1..] == s[1..] + t;
      SolidConcat(s[1..], t);
    }
  }

  lemma {:induction false} SolidUnbroken(s: Text)
    requires forall i :: 0 <= i < |s| ==> !Space(s[i])
    ensures Solid(s) == s
  {
    if s != [] { SolidUnbroken(s[1..]); }
  }

  lemma {:induction false} FlatFront(l: Text, ls: seq<Text>)
    ensures Flat([l] + ls) == l + Flat(ls)
  {
    if ls == [] {
      assert [l] + ls == [l] && [l][..0] == [];
    } else {
      assert ([l] + ls)[..|ls|] == [l] + ls[..|ls| - 1];
      FlatFront(l, ls[..|ls| - 1]);
    }
  }

  lemma {:induction false} FlatConcat(ks: seq<Text>, ls: seq<Text>)
    ensures Flat(ks + ls) == Flat(ks) + Flat(ls)
  {
    if ls == [] {
      assert ks + ls == ks;
    } else {
      assert (ks + ls)[..|ks + ls| - 1] == ks + ls[..|ls| - 1];
      FlatConcat(ks, ls[..|ls| - 1]);
    }
  }

  lemma SolidStep(s: Text)
    requires s != []
    ensures Solid(s) == if Space(s[0]) then Solid(s[1..]) else [s[0]] + Solid(s[1..])
  {
  }

  lemma WordsStep(s: Text)
    requires s != []
    ensures Space(s[0]) ==> Words(s) == Words(s[1..])
    ensures !Space(s[0]) && (|s| == 1 || Space(s[1])) ==> Words(s) == [[s[0]]] + Words(s[1..])
    ensures !Space(s[0]) && |s| > 1 && !Space(s[1]) ==>
              Words(s[1..]) != [] && Words(s) == [[s[0]] + Words(s[1..])[0]] + Words(s[1..])[1..]
  {
  }

  lemma NothingFlat()
    ensures Flat([]) == [] && Flat(Words([])) == [] && Solid([]) == []
  {
  }

  /** The words, put together, are the text without its white space. */
  lemma {:induction false} WordsKeepText(s: Text)
    ensures Flat(Words(s)) == Solid(s)
  {
    hide Words, Solid, Flat, Space;
    if s == [] {
      NothingFlat();
    } else {
      WordsStep(s);
      SolidStep(s);
      WordsKeepText(s[1..]);
      var rest := Words(s[1..]);
      if !Space(s[0]) {
        if |s| == 1 || Space(s[1]) {
          FlatFront([s[0]], rest);
        } else {
          assert rest == [rest[0]] + rest[1..];
          FlatFront(rest[0], rest[1..]);
          FlatFront([s[0]] + rest[0], rest[1..]);
        }
      }
    }
  }

  // ----- the loop over the words

  datatype Layout = Layout(lines: seq<Text>, current: Text)

  /** The lines with the one being filled, if it holds anything. */
  function Spread(st: Layout): seq<Text> {
    if st.current == [] then st.lines else st.lines + [st.current]
  }

  function Feed(st: Layout, word: Text, width: nat): Layout
    requires CharsFit(word, width)
  {
    if Width(word) > width then Layout(Spread(st) + Parts(word, width), Remainder(word, width))
    else if st.current == [] then Layout(st.lines, word)
    else if Width(st.current + [BLANK] + word) > width then Layout(Spread(st), word)
    else Layout(st.lines, st.current + [BLANK] + word)
  }

  function FeedAll(st: Layout, ws: seq<Text>, width: nat): Layout
    requires forall i :: 0 <= i < |ws| ==> CharsFit(ws[i], width)
  {
    if ws == [] then st else Feed(FeedAll(st, ws[..|ws| - 1], width), ws[|ws| - 1], width)
  }

  const NOTHING: Layout := Layout([], [])

  function Lines(value: Text, width: nat): seq<Text>
    requires Printable(value, width)
  {
    var words := Words(value);
    WordsAreWords(value, width);
    if words == [] then [[]] else Spread(FeedAll(NOTHING, words, width))
  }

  lemma {:induction false} RemainderFits(word: Text, width: nat)
    requires CharsFit(word, width) && word != []
    ensures Remainder(word, width) != [] && Width(Remainder(word, width)) <= width
    ensures Width(word) > 0 ==> Width(Remainder(word, width)) > 0
    decreases |word|
  {
    if Width(word) > width {
      Progress(word, width);
      var rest := word[Fit(word, width)..];
      FirstCounts(rest);
      RemainderFits(rest, width);
    }
  }

  lemma FirstCounts(s: Text)
    requires s != []
    ensures Width(s) >= CharWidth(s[0])
  {
    WidthCut(s, 1);
    assert s[..1] == [s[0]];
    WidthOne(s[0]);
  }

  lemma OneRound(word: Text, width: nat)
    requires CharsFit(word, width) && Width(word) > width
    ensures var n := Fit(word, width);
            && 0 < n < |word| && CharsFit(word[n..], width)
            && Parts(word, width) == [word[..n]] + Parts(word[n..], width)
            && Remainder(word, width) == Remainder(word[n..], width)
  {
    Progress(word, width);
  }

  lemma LastRound(word: Text, width: nat)
    requires CharsFit(word, width) && Width(word) <= width
    ensures Parts(word, width) == [] && Remainder(word, width) == word
  {
  }

  lemma OneMore(ws: seq<Text>, i: nat, width: nat)
    requires i < |ws| && WordsOk(ws, width)
    ensures FeedAll(NOTHING, ws[..i + 1], width) == Feed(FeedAll(NOTHING, ws[..i], width), ws[i], width)
  {
    assert ws[..i + 1][..i] == ws[..i];
  }

  /** What the rest of the loop makes of a word after its parts were cut off. */
  lemma WordFed(st: Layout, word: Text, start: seq<Text>, current: Text, width: nat)
    requires CharsFit(word, width) && word != []
    requires start == (if Width(word) > width then Spread(st) else st.lines)
    requires current == (if Width(word) > width then [] else st.current)
    ensures var lines, remaining := start + Parts(word, width), Remainder(word, width);
            var next := if current != [] then current + [BLANK] + remaining else remaining;
            Feed(st, word, width) ==
              if Width(next) <= width then Layout(lines, next)
              else Layout(if current != [] then lines + [current] else lines, remaining)
  {
    hide Width, Fit, Parts, Remainder;
    RemainderFits(word, width);
    if Width(word) <= width { LastRound(word, width); }
  }

  method WrapText(value: Text, width: nat) returns (lines: seq<Text>)
    requires Printable(value, width)
    ensures lines == Lines(value, width)
  {
    hide Words, Width, Fit, Parts, Remainder, FeedAll, Feed;
    WordsAreWords(value, width);
    var words := Words(value);
    if |words| == 0 { return [[]]; }
    lines := [];
    var current: Text := [];
    StartsEmpty(words, width);
    for i := 0 to |words|
      invariant Layout(lines, current) == FeedAll(NOTHING, words[..i], width)
    {
      OneMore(words, i, width);
      ghost var before := Layout(lines, current);
      var remaining := words[i];
      var columns := DisplayWidth(remaining);
      if columns > width && current != [] {
        lines := lines + [current];
        current := [];
      }
      ghost var start := lines;
      WordFed(before, words[i], start, current, width);
      while columns > width
        invariant CharsFit(remaining, width) && columns == Width(remaining)
        invariant lines + Parts(remaining, width) == start + Parts(words[i], width)
        invariant Remainder(remaining, width) == Remainder(words[i], width)
        decreases |remaining|
      {
        OneRound(remaining, width);
        var part, rest := TakeColumns(remaining, width);
        lines := lines + [part];
        remaining := rest;
        columns := DisplayWidth(remaining);
      }
      LastRound(remaining, width);
      assert lines + [] == lines;
      var next := if current != [] then current + [BLANK] + remaining else remaining;
      columns := DisplayWidth(next);
      if columns > width {
        if current != [] { lines := lines + [current]; }
        current := remaining;
      } else {
        current := next;
      }
    }
    assert words[..|words|] == words;
    if current != [] { lines := lines + [current]; }
  }

  lemma StartsEmpty(ws: seq<Text>, width: nat)
    requires WordsOk(ws, width)
    ensures FeedAll(NOTHING, ws[..0], width) == NOTHING
  {
  }

  // ----- nothing is wider than the paper

  predicate AllFit(ls: seq<Text>, width: nat) {
    forall i :: 0 <= i < |ls| ==> Width(ls[i]) <= width
  }

  lemma {:induction false} PartsFit(word: Text, width: nat)
    requires CharsFit(word, width)
    ensures AllFit(Parts(word, width), width)
    decreases |word|
  {
    if Width(word) > width {
      Progress(word, width);
      PartsFit(word[Fit(word, width)..], width);
    }
  }

  lemma FeedFits(st: Layout, word: Text, width: nat)
    requires CharsFit(word, width) && word != [] && AllFit(Spread(st), width)
    ensures AllFit(Spread(Feed(st, word, width)), width)
  {
    PartsFit(word, width);
    RemainderFits(word, width);
    assert st.current != [] ==> Spread(st)[|st.lines|] == st.current;
    assert forall i :: 0 <= i < |st.lines| ==> Spread(st)[i] == st.lines[i];
  }

  lemma {:induction false} FeedAllFits(st: Layout, ws: seq<Text>, width: nat)
    requires WordsOk(ws, width) && AllFit(Spread(st), width)
    ensures AllFit(Spread(FeedAll(st, ws, width)), width)
  {
    if ws != [] {
      FeedAllFits(st, ws[..|ws| - 1], width);
      FeedFits(FeedAll(st, ws[..|ws| - 1], width), ws[|ws| - 1], width);
    }
  }

  /** Every line fits the paper. */
  lemma {:induction false} LinesFit(value: Text, width: nat)
    requires Printable(value, width)
    ensures AllFit(Lines(value, width), width)
  {
    WordsAreWords(value, width);
    FeedAllFits(NOTHING, Words(value), width);
    WidthOfEmpty();
  }

  // ----- nothing is lost

  lemma {:induction false} PartsKeepWord(word: Text, width: nat)
    requires CharsFit(word, width)
    ensures Flat(Parts(word, width)) + Remainder(word, width) == word
    decreases |word|
  {
    hide Width, Fit, Parts, Remainder;
    if Width(word) <= width {
      LastRound(word, width);
    } else {
      OneRound(word, width);
      var n := Fit(word, width);
      PartsKeepWord(word[n..], width);
      FlatFront(word[..n], Parts(word[n..], width));
      hide Flat;
      Regroup(word[..n], Flat(Parts(word[n..], width)), Remainder(word[n..], width));
      assert word == word[..n] + word[n..];
    }
  }

  lemma Regroup(a: Text, b: Text, c: Text)
    ensures (a + b) + c == a + (b + c)
  {
  }

  lemma FlatSpread(st: Layout)
    ensures Flat(Spread(st)) == Flat(st.lines) + st.current
  {
    if st.current != [] {
      assert (st.lines + [st.current])[..|st.lines|] == st.lines;
    }
  }

  /** One word adds itself to the characters laid out, with at most a blank before it. */
  lemma FeedAdds(st: Layout, word: Text, width: nat)
    requires CharsFit(word, width) && word != []
    ensures var before, after := Flat(Spread(st)), Flat(Spread(Feed(st, word, width)));
            after == before + word || after == before + ([BLANK] + word)
  {
    hide Width, Fit, Parts, Remainder, Flat, CharsFit;
    var next := Feed(st, word, width);
    FlatSpread(st);
    FlatSpread(next);
    if Width(word) > width {
      PartsKeepWord(word, width);
      FlatConcat(Spread(st), Parts(word, width));
      Regroup(Flat(Spread(st)), Flat(Parts(word, width)), Remainder(word, width));
    } else if st.current != [] {
      Regroup(st.current, [BLANK], word);
      Regroup(Flat(st.lines), st.current, [BLANK] + word);
    }
  }

  lemma FeedKeeps(st: Layout, word: Text, width: nat)
    requires CharsFit(word, width) && Unbroken(word)
    ensures Solid(Flat(Spread(Feed(st, word, width)))) == Solid(Flat(Spread(st))) + word
  {
    hide Flat, Feed, Spread, Solid;
    var before := Flat(Spread(st));
    FeedAdds(st, word, width);
    SolidUnbroken(word);
    SolidConcat(before, word);
    SolidConcat(before, [BLANK] + word);
    SolidConcat([BLANK], word);
    SolidBlank();
    assert [] + word == word;
  }

  lemma SolidBlank()
    ensures Solid([BLANK]) == []
  {
  }

  lemma {:induction false} FeedAllKeeps(ws: seq<Text>, width: nat)
    requires WordsOk(ws, width)
    ensures Solid(Flat(Spread(FeedAll(NOTHING, ws, width)))) == Flat(ws)
  {
    if ws != [] {
      FeedAllKeeps(ws[..|ws| - 1], width);
      FeedKeeps(FeedAll(NOTHING, ws[..|ws| - 1], width), ws[|ws| - 1], width);
    }
  }

  /** The lines hold the text's characters other than white space, in order, and no others. */
  lemma {:induction false} ContentKept(value: Text, width: nat)
    requires Printable(value, width)
    ensures Solid(Flat(Lines(value, width))) == Solid(value)
  {
    WordsAreWords(value, width);
    WordsKeepText(value);
    FeedAllKeeps(Words(value), width);
    assert Flat([[]]) == [];
  }

  // ----- every text, on every paper

  /** The loops end for every text exactly when the paper has two columns. */
  lemma {:induction false} PrintableExactlyWhen(width: nat)
    ensures (forall s: Text :: Printable(s, width)) <==> width >= 2
  {
    if width < 2 {
      var wide: Text := [0x1100];
      assert !Space(wide[0]) && CharWidth(wide[0]) > width;
      assert !Printable(wide, width);
    }
  }

  /** `columnsFor`, by the paper's millimetres. */
  function ColumnsFor(paper: nat): nat {
    if paper == 58 then 32 else 48
  }

  /** On the papers there are, every text is wrapped, no line is too wide, and nothing is lost. */
  lemma {:induction false} PapersTakeEverything(value: Text, paper: nat)
    ensures var width := ColumnsFor(paper);
            && Printable(value, width)
            && AllFit(Lines(value, width), width) && Solid(Flat(Lines(value, width))) == Solid(value)
  {
    hide Printable, Lines, AllFit;
    var width := ColumnsFor(paper);
    PrintableExactlyWhen(width);
    LinesFit(value, width);
    ContentKept(value, width);
  }
}
