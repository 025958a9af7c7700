/** Wrapping the lines of `wrapText` again, joined by blanks. */
module ReceiptAgain {
  import opened ReceiptLayout
  import opened ReceiptWrap
  import opened ReceiptOptimal

  // ----- pieces of words

  /** The pieces a word ends up in. */
  function Pieces(word: Text, width: nat): seq<Text>
    requires CharsFit(word, width)
  {
    Parts(word, width) + [Remainder(word, width)]
  }

  function AllPieces(ws: seq<Text>, width: nat): seq<Text>
    requires WordsOk(ws, width)
  {
    if ws == [] then [] else AllPieces(ws[..|ws| - 1], width) + Pieces(ws[|ws| - 1], width)
  }

  lemma {:induction false} PiecesAreShort(word: Text, width: nat)
    requires CharsFit(word, width) && Unbroken(word)
    ensures ShortWords(Pieces(word, width), width)
    decreases |word|
  {
    hide Width, Fit, Parts, Remainder;
    if Width(word) <= width {
      LastRound(word, width);
    } else {
      OneRound(word, width);
      var n := Fit(word, width);
      NarrowEnough(word[..n], width);
      PiecesAreShort(word[n..], width);
      assert Pieces(word, width) == [word[..n]] + Pieces(word[n..], width);
    }
  }

  lemma {:induction false} AllPiecesAreShort(ws: seq<Text>, width: nat)
    requires WordsOk(ws, width)
    ensures ShortWords(AllPieces(ws, width), width)
  {
    if ws != [] {
      AllPiecesAreShort(ws[..|ws| - 1], width);
      PiecesAreShort(ws[|ws| - 1], width);
      hide Width, Pieces;
    }
  }

  lemma SomePieces(ws: seq<Text>, width: nat)
    requires WordsOk(ws, width) && ws != []
    ensures AllPieces(ws, width) != []
  {
  }

  // ----- the joined lines have the pieces as words

  lemma {:induction false} WordsAtBlank(s: Text, t: Text)
    ensures Words(s + [BLANK] + t) == Words(s) + Words(t)
  {
    var all := s + [BLANK] + t;
    if s == [] {
      assert all == [BLANK] + t;
      assert all[1..] == t;
    } else {
      assert all[1..] == s[1..] + [BLANK] + t;
      assert all[0] == s[0] && |all| > 1 && all[1] == (if |s| > 1 then s[1] else BLANK);
      WordsAtBlank(s[1..], t);
      if |s| == 1 { assert s[1..] == []; }
    }
  }

  lemma {:induction false} WordItself(s: Text)
    requires Unbroken(s)
    ensures Words(s) == [s]
  {
    if |s| > 1 {
      WordItself(s[1..]);
      assert [s[0]] + s[1..] == s;
    } else {
      assert s == [s[0]];
    }
  }

  lemma NoWords()
    ensures Words([]) == []
  {
  }

  lemma JoinOne(l: Text)
    ensures Join([l]) == l && Join([]) == []
  {
  }

  lemma JoinLonger(ls: seq<Text>, l: Text, word: Text)
    ensures Join(ls + [l + [BLANK] + word]) == Join(ls + [l]) + [BLANK] + word
  {
    hide Join;
    JoinOne(l);
    JoinOne(l + [BLANK] + word);
    if ls == [] {
      assert ls + [l] == [l] && ls + [l + [BLANK] + word] == [l + [BLANK] + word];
    } else {
      JoinMore(ls, l);
      JoinMore(ls, l + [BLANK] + word);
      assert Join(ls) + [BLANK] + (l + [BLANK] + word) == Join(ls) + [BLANK] + l + [BLANK] + word;
    }
  }

  lemma {:induction false} JoinConcat(a: seq<Text>, b: seq<Text>)
    requires a != [] && b != []
    ensures Join(a + b) == Join(a) + [BLANK] + Join(b)
  {
    var front, last := b[..|b| - 1], b[|b| - 1];
    if front == [] {
      assert b == [last];
      JoinOne(last);
      JoinMore(a, last);
    } else {
      JoinConcat(a, front);
      assert a + b == (a + front) + [last] && b == front + [last];
      JoinMore(a + front, last);
      JoinMore(front, last);
    }
  }

  lemma {:induction false} WordsOfJoin(ps: seq<Text>)
    requires forall i :: 0 <= i < |ps| ==> Unbroken(ps[i])
    ensures Words(Join(ps)) == ps
  {
    hide Words, Join;
    if ps == [] {
      JoinOne([]);
      NoWords();
    } else if |ps| == 1 {
      JoinOne(ps[0]);
      WordItself(ps[0]);
      assert ps == [ps[0]];
    } else {
      var front, last := ps[..|ps| - 1], ps[|ps| - 1];
      assert ps == front + [last];
      JoinMore(front, last);
      WordsOfJoin(front);
      WordItself(last);
      WordsAtBlank(Join(front), last);
    }
  }

  /** A word appears, in its pieces, after a blank in the joined lines. */
  lemma FeedJoins(st: Layout, word: Text, width: nat)
    requires CharsFit(word, width) && word != [] && (st.current == [] ==> st.lines == [])
    ensures var next := Feed(st, word, width);
            && next.current != []
            && Join(Spread(next)) ==
                 if Spread(st) == [] then Join(Pieces(word, width))
                   else Join(Spread(st)) + [BLANK] + Join(Pieces(word, width))
  {
    hide Width, Join, Fit, Parts, Remainder;
    var next := Feed(st, word, width);
    RemainderFits(word, width);
    if Width(word) > width {
      assert Spread(next) == Spread(st) + Pieces(word, width);
      if Spread(st) != [] {
        JoinConcat(Spread(st), Pieces(word, width));
      } else {
        assert [] + Pieces(word, width) == Pieces(word, width);
      }
    } else {
      LastRound(word, width);
      assert Pieces(word, width) == [word];
      JoinOne(word);
      if st.current == [] {
        assert Spread(next) == [word];
      } else if Width(st.current + [BLANK] + word) > width {
        JoinMore(Spread(st), word);
      } else {
        JoinLonger(st.lines, st.current, word);
      }
    }
  }

  lemma {:induction false} LinesJoinPieces(ws: seq<Text>, width: nat)
    requires WordsOk(ws, width)
    ensures Join(Spread(FeedAll(NOTHING, ws, width))) == Join(AllPieces(ws, width))
    ensures if ws == [] then FeedAll(NOTHING, ws, width) == NOTHING else FeedAll(NOTHING, ws, width).current != []
  {
    hide Width, Feed, Join, Pieces;
    if ws != [] {
      var front, word := ws[..|ws| - 1], ws[|ws| - 1];
      LinesJoinPieces(front, width);
      FeedJoins(FeedAll(NOTHING, front, width), word, width);
      if front == [] {
        assert AllPieces(ws, width) == Pieces(word, width);
      } else {
        SomePieces(front, width);
        PiecesExist(word, width);
        JoinConcat(AllPieces(front, width), Pieces(word, width));
      }
    }
  }

  lemma PiecesExist(word: Text, width: nat)
    requires CharsFit(word, width)
    ensures Pieces(word, width) != []
  {
  }

  // ----- laying out the pieces

  lemma {:induction false} FeedAllSplits(st: Layout, ws: seq<Text>, vs: seq<Text>, width: nat)
    requires (forall i :: 0 <= i < |ws| ==> CharsFit(ws[i], width))
             && (forall i :: 0 <= i < |vs| ==> CharsFit(vs[i], width))
    ensures FeedAll(st, ws + vs, width) == FeedAll(FeedAll(st, ws, width), vs, width)
    decreases |vs|
  {
    hide Feed, CharsFit;
    if vs == [] {
      assert ws + vs == ws;
    } else {
      assert (ws + vs)[..|ws + vs| - 1] == ws + vs[..|vs| - 1];
      FeedAllSplits(st, ws, vs[..|vs| - 1], width);
    }
  }

  lemma FeedOne(st: Layout, w: Text, width: nat)
    requires CharsFit(w, width)
    ensures FeedAll(st, [w], width) == Feed(st, w, width)
  {
    assert [w][..0] == [];
  }

  /** A part takes so much of its line that it neither follows a word nor is followed by one. */
  lemma PartFills(word: Text, width: nat)
    requires CharsFit(word, width) && Width(word) > width
    ensures var n := Fit(word, width);
            && 0 < n < |word| && Width(word[..n]) > 0 && Width(word[..n]) + 1 >= width
            && Width(word[n..]) > 0 && Width(word[..n]) + 1 + Width(word[n..]) > width
  {
    Progress(word, width);
    var n := Fit(word, width);
    FirstCounts(word[n..]);
    if width == 1 { assert CharWidth(word[n]) <= 1; }
  }

  /** The first part of an overlong word, which `wrapText` puts on a line of its own, would still
      fit after what is on the line before. */
  predicate Slips(current: Text, word: Text, width: nat) {
    Width(word) > width && current != [] && Width(current + [BLANK] + word[..Fit(word, width)]) <= width
  }

  /** Laying out a word is laying out its pieces one by one, unless its first part slips. */
  lemma {:induction false} FeedPieces(st: Layout, word: Text, width: nat)
    requires CharsFit(word, width) && word != [] && !Slips(st.current, word, width)
    requires ShortWords(Pieces(word, width), width)
    ensures FeedAll(st, Pieces(word, width), width) == Feed(st, word, width)
    decreases |word|
  {
    hide Width, Fit, Parts, Remainder, FeedAll;
    if Width(word) <= width {
      LastRound(word, width);
      assert Pieces(word, width) == [word];
      FeedOne(st, word, width);
    } else {
      var n := Fit(word, width);
      FeedFirstPart(st, word, width);
      AfterPart(Layout(Spread(st), word[..n]), word[n..], width);
    }
  }

  /** The pieces after the first are laid out as the rest of the word is. */
  lemma {:induction false} FeedFirstPart(st: Layout, word: Text, width: nat)
    requires CharsFit(word, width) && Width(word) > width
    requires ShortWords(Pieces(word, width), width)
    ensures var n := Fit(word, width);
            && 0 < n < |word| && CharsFit(word[..n], width) && CharsFit(word[n..], width)
            && FeedAll(st, Pieces(word, width), width) == Feed(Feed(st, word[..n], width), word[n..], width)
            && Feed(st, word[..n], width) == (if Slips(st.current, word, width) then
                 Layout(st.lines, st.current + [BLANK] + word[..n]) else Layout(Spread(st), word[..n]))
            && Parts(word, width) == [word[..n]] + Parts(word[n..], width)
            && Remainder(word, width) == Remainder(word[n..], width)
            && Width(word[..n]) + 1 + Width(word[n..]) > width
    decreases |word|, 0
  {
    hide Width, Fit, Parts, Remainder, FeedAll;
    OneRound(word, width);
    PartFills(word, width);
    var n := Fit(word, width);
    var part, rest := word[..n], word[n..];
    assert Pieces(word, width) == [part] + Pieces(rest, width);
    assert Pieces(word, width)[0] == part;
    assert forall i :: 0 <= i < |Pieces(rest, width)| ==> Pieces(word, width)[i + 1] == Pieces(rest, width)[i];
    FeedAllSplits(st, [part], Pieces(rest, width), width);
    FeedOne(st, part, width);
    var next := Feed(st, part, width);
    WidthJoined(st.current, part);
    RestStays(next.current, part, rest, width);
    FeedPieces(next, rest, width);
  }

  lemma RestStays(current: Text, part: Text, rest: Text, width: nat)
    requires CharsFit(rest, width) && Width(part) > 0 && Width(part) + 1 >= width && Width(current) >= Width(part)
    ensures !Slips(current, rest, width)
  {
    hide Width, Fit;
    if Width(rest) > width {
      PartFills(rest, width);
      WidthJoined(current, rest[..Fit(rest, width)]);
    }
  }

  /** After a part, the rest of its word starts a line. */
  lemma AfterPart(st: Layout, rest: Text, width: nat)
    requires CharsFit(rest, width) && st.current != [] && Width(st.current) + 1 + Width(rest) > width
    ensures Feed(st, rest, width) == Layout(st.lines + [st.current] + Parts(rest, width), Remainder(rest, width))
  {
    hide Width;
    WidthJoined(st.current, rest);
    if Width(rest) <= width { LastRound(rest, width); }
  }

  /** A part that slips leaves one line fewer, and the same text on the last. */
  lemma FeedSlips(st: Layout, word: Text, width: nat)
    requires CharsFit(word, width) && Slips(st.current, word, width) && ShortWords(Pieces(word, width), width)
    ensures var again, once := FeedAll(st, Pieces(word, width), width), Feed(st, word, width);
            again.current == once.current && |again.lines| + 1 == |once.lines|
  {
    hide Width, Fit, Parts, Remainder, FeedAll;
    var n := Fit(word, width);
    FeedFirstPart(st, word, width);
    WidthJoined(st.current, word[..n]);
    AfterPart(Layout(st.lines, st.current + [BLANK] + word[..n]), word[n..], width);
  }

  /** What a word does depends on the line being filled only. */
  lemma FeedAnywhere(st: Layout, st': Layout, word: Text, width: nat)
    requires CharsFit(word, width) && st.current == st'.current
    ensures var next, next' := Feed(st, word, width), Feed(st', word, width);
            next.current == next'.current && |next.lines| - |st.lines| == |next'.lines| - |st'.lines|
  {
    hide Width, Fit, Parts, Remainder;
  }

  // ----- how many parts slip

  /** In the words' terms: the last word is overlong and its first part leaves a column free, and the
      word before it, which shows nothing, has a line to itself: it came first, or after a full line. */
  predicate LastSlips(ws: seq<Text>, width: nat)
    requires WordsOk(ws, width)
  {
    var n := |ws| - 1;
    && n > 0 && Width(ws[n]) > width && Width(ws[n][..Fit(ws[n], width)]) + 1 == width && Width(ws[n - 1]) == 0
    && (n == 1 || Width(FeedAll(NOTHING, ws[..n - 1], width).current) == width)
  }

  function SlipCount(ws: seq<Text>, width: nat): nat
    requires WordsOk(ws, width)
  {
    if ws == [] then 0 else SlipCount(ws[..|ws| - 1], width) + if LastSlips(ws, width) then 1 else 0
  }

  lemma {:induction false} CurrentFits(ws: seq<Text>, width: nat)
    requires WordsOk(ws, width)
    ensures var st := FeedAll(NOTHING, ws, width);
            && Width(st.current) <= width && (st.current == [] <==> ws == [])
  {
    hide Width, Feed;
    LinesJoinPieces(ws, width);
    WidthOfEmpty();
    FeedAllFits(NOTHING, ws, width);
    var st := FeedAll(NOTHING, ws, width);
    assert st.current != [] ==> Spread(st)[|st.lines|] == st.current;
  }

  lemma ShowsNothing(st: Layout, word: Text, width: nat)
    requires CharsFit(word, width) && word != [] && Width(st.current) <= width
    ensures Width(Feed(st, word, width).current) == 0 <==>
              Width(word) == 0 && (st.current == [] || Width(st.current) == width)
  {
    hide Width, Fit, Parts, Remainder;
    RemainderFits(word, width);
    WidthJoined(st.current, word);
  }

  lemma LastSlipsMeans(ws: seq<Text>, width: nat)
    requires WordsOk(ws, width) && ws != []
    ensures var n := |ws| - 1;
            LastSlips(ws, width) <==> Slips(FeedAll(NOTHING, ws[..n], width).current, ws[n], width)
  {
    hide Width, Fit, Feed;
    var n := |ws| - 1;
    var current := FeedAll(NOTHING, ws[..n], width).current;
    CurrentFits(ws[..n], width);
    if n > 0 && Width(ws[n]) > width {
      assert ws[..n][..n - 1] == ws[..n - 1];
      var before := FeedAll(NOTHING, ws[..n - 1], width);
      CurrentFits(ws[..n - 1], width);
      ShowsNothing(before, ws[n - 1], width);
      PartFills(ws[n], width);
      WidthJoined(current, ws[n][..Fit(ws[n], width)]);
    }
  }

  /** Laying out all pieces gives the same last line, and one line fewer for each part that slips. */
  lemma {:induction false} PiecesAgain(ws: seq<Text>, width: nat)
    requires WordsOk(ws, width) && ShortWords(AllPieces(ws, width), width)
    ensures var once, again := FeedAll(NOTHING, ws, width), FeedAll(NOTHING, AllPieces(ws, width), width);
            && once.current == again.current && |once.lines| == |again.lines| + SlipCount(ws, width)
            && (SlipCount(ws, width) == 0 ==> once == again)
  {
    hide Width, Pieces, Feed, LastSlips, Slips, CharsFit;
    if ws != [] {
      var front, word := ws[..|ws| - 1], ws[|ws| - 1];
      AllPiecesAreShort(front, width);
      PiecesAreShort(word, width);
      PiecesAgain(front, width);
      FeedAllSplits(NOTHING, AllPieces(front, width), Pieces(word, width), width);
      LastSlipsMeans(ws, width);
      var once, again := FeedAll(NOTHING, front, width), FeedAll(NOTHING, AllPieces(front, width), width);
      FeedAnywhere(once, again, word, width);
      if Slips(again.current, word, width) { FeedSlips(again, word, width); } else { FeedPieces(again, word, width); }
    }
  }

  // ----- the main result

  /** Wrapping a text whose words all fit depends on its words only. */
  lemma LinesOfWords(value: Text, width: nat)
    requires ShortWords(Words(value), width) && Words(value) != []
    ensures Printable(value, width)
    ensures Lines(value, width) == Spread(FeedAll(NOTHING, Words(value), width))
  {
    WordsCover(value, width);
  }

  lemma {:induction false} WordsCover(s: Text, width: nat)
    requires forall i :: 0 <= i < |Words(s)| ==> CharsFit(Words(s)[i], width)
    ensures Printable(s, width)
  {
    if s != [] {
      var ws, rest := Words(s), Words(s[1..]);
      if Space(s[0]) {
      } else if |s| == 1 || Space(s[1]) {
        assert ws[0][0] == s[0];
        assert forall i :: 0 <= i < |rest| ==> ws[i + 1] == rest[i];
      } else {
        assert ws[0][0] == s[0];
        assert forall i :: 0 <= i < |rest[0]| ==> ws[0][i + 1] == rest[0][i];
        assert forall i :: 1 <= i < |rest| ==> ws[i] == rest[i];
      }
      WordsCover(s[1..], width);
    }
  }

  /** Wrapping the lines again, joined by blanks, gives the same lines if and only if no part slips,
      and otherwise one line fewer for each that does. */
  lemma {:induction false} WrappingAgainJoins(value: Text, width: nat)
    requires Printable(value, width)
    ensures WordsOk(Words(value), width) && Printable(Join(Lines(value, width)), width)
    ensures var once, again := Lines(value, width), Lines(Join(Lines(value, width)), width);
            && |once| == |again| + SlipCount(Words(value), width)
            && (once == again <==> SlipCount(Words(value), width) == 0)
  {
    hide Width, Words, FeedAll, AllPieces, Join, SlipCount;
    WordsAreWords(value, width);
    var ws := Words(value);
    if ws == [] {
      JoinOne([]);
      NoWords();
      NoSlips(width);
    } else {
      AllPiecesAreShort(ws, width);
      LinesJoinPieces(ws, width);
      var pieces := AllPieces(ws, width);
      WordsOfJoin(pieces);
      SomePieces(ws, width);
      LinesOfWords(Join(pieces), width);
      PiecesAgain(ws, width);
    }
  }

  lemma NoSlips(width: nat)
    ensures SlipCount([], width) == 0
  {
  }

  /** Some character of each word shows. */
  predicate Visible(ws: seq<Text>) {
    forall i :: 0 <= i < |ws| ==> Width(ws[i]) > 0
  }

  lemma {:induction false} VisibleStays(ws: seq<Text>, width: nat)
    requires WordsOk(ws, width) && Visible(ws)
    ensures SlipCount(ws, width) == 0
  {
    hide Width;
    if ws != [] { VisibleStays(ws[..|ws| - 1], width); }
  }

  /** So nothing changes when every word shows something, overlong words included. */
  lemma {:induction false} WrappingAgainChangesNothing(value: Text, width: nat)
    requires Printable(value, width) && Visible(Words(value))
    ensures Printable(Join(Lines(value, width)), width)
    ensures Lines(Join(Lines(value, width)), width) == Lines(value, width)
  {
    hide Visible, SlipCount;
    WrappingAgainJoins(value, width);
    VisibleStays(Words(value), width);
  }

  // ----- a word that shows nothing

  const MARK: Text := [0x300]

  /** As many letters as fill all but one column, and a wide character. */
  function LongWord(width: nat): (r: Text)
    requires width >= 2
    ensures |r| == width && r[width - 1] == 0x1100 && forall i :: 0 <= i < width - 1 ==> r[i] == 0x61
  {
    seq(width - 1, i => 0x61) + [0x1100]
  }

  lemma {:induction false} LettersWidth(s: Text)
    requires forall i :: 0 <= i < |s| ==> s[i] == 0x61
    ensures Width(s) == |s|
  {
    if s != [] { LettersWidth(s[..|s| - 1]); }
  }

  lemma LongWordCut(width: nat)
    requires width >= 2
    ensures var word := LongWord(width);
            && Unbroken(word) && CharsFit(word, width) && Width(word) == width + 1
            && Fit(word, width) == width - 1 && Width(word[..width - 1]) == width - 1
  {
    hide Fit;
    var word := LongWord(width);
    LettersWidth(word[..width - 1]);
    FitIsLongest(word, width, width - 1);
    FitIsLongest(word, width, width);
    assert word[..width] == word;
  }

  /** On paper of any width, a word of combining marks only, followed by such a long word, loses its
      line when the lines are wrapped again. */
  lemma {:induction false} MarksMayMove(width: nat)
    requires width >= 2
    ensures var value := MARK + [BLANK] + LongWord(width);
            && Printable(value, width) && Printable(Join(Lines(value, width)), width)
            && |Lines(Join(Lines(value, width)), width)| == |Lines(value, width)| - 1
  {
    hide Width, Fit, Words, FeedAll, Lines, Join;
    var value, word := MARK + [BLANK] + LongWord(width), LongWord(width);
    LongWordCut(width);
    WidthOne(0x300);
    WordsAtBlank(MARK, word);
    WordItself(MARK);
    WordItself(word);
    var ws := [MARK, word];
    assert Words(value) == ws;
    WordsCover(value, width);
    WrappingAgainJoins(value, width);
    assert LastSlips(ws, width);
    assert ws[..1] == [MARK] && SlipCount([MARK], width) == SlipCount([MARK][..0], width);
  }
}
