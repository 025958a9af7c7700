/** The text of JSON values as `JSON.stringify` writes it, and that it determines the value. */
module JsonText {

  /** Values of the audit trail. `Undefined` is a property without a value; numbers are integers. */
  datatype Json =
    | Undefined
    | Null
    | Bool(b: bool)
    | Num(n: int)
    | Str(s: string)
    | Arr(items: seq<Json>)
    | Obj(entries: seq<Entry>)

  datatype Keyed<T> = Keyed(key: string, value: T)

  type Entry = Keyed<Json>

  // ----- cutting a text in two

  lemma Cut(p: string, x: string, q: string, y: string)
    requires p + x == q + y && |p| == |q|
    ensures p == q && x == y
  {
    assert p == (p + x)[..|p|] && q == (q + y)[..|q|];
    assert x == (p + x)[|p|..] && y == (q + y)[|q|..];
  }

  lemma Heads(p: string, x: string, q: string, y: string)
    requires p + x == q + y && p != [] && q != []
    ensures p[0] == q[0] && p[1..] + x == q[1..] + y
  {
    assert (p + x)[0] == p[0] && (q + y)[0] == q[0];
    assert (p + x)[1..] == p[1..] + x && (q + y)[1..] == q[1..] + y;
  }

  // ----- strings

  function HexDigit(n: int): char
    requires 0 <= n < 16
  {
    "0123456789abcdef"[n]
  }

  function Escape(c: char): string {
    if c == '\"' then "\\\""
    else if c == '\\' then "\\\\"
    else if c as int == 8 then "\\b"
    else if c as int == 12 then "\\f"
    else if c == '\n' then "\\n"
    else if c == '\r' then "\\r"
    else if c == '\t' then "\\t"
    else if c as int < 0x20 then "\\u00" + [HexDigit(c as int / 16), HexDigit(c as int % 16)]
    else [c]
  }

  /** Only quotation marks, backslashes and control characters are escaped. */
  lemma EscapesOnly(c: char)
    ensures Escape(c) == [c] <==> c as int >= 0x20 && c != '\"' && c != '\\'
    ensures Escape(c) != [c] ==> Escape(c)[0] == '\\'
  {
  }

  function EscapeAll(s: string): string {
    if s == [] then [] else Escape(s[0]) + EscapeAll(s[1..])
  }

  function Quote(s: string): string {
    "\"" + EscapeAll(s) + "\""
  }

  lemma EscapeLength(c: char)
    ensures Escape(c) != []
    ensures Escape(c)[0] != '\\' ==> |Escape(c)| == 1
    ensures Escape(c)[0] == '\\' ==> |Escape(c)| > 1 && |Escape(c)| == if Escape(c)[1] == 'u' then 6 else 2
    ensures Escape(c)[0] != '\"'
  {
  }

  lemma EscapeInjective(c: char, d: char)
    requires Escape(c) == Escape(d)
    ensures c == d
  {
    if |Escape(c)| == 6 {
      assert Escape(c)[4] == HexDigit(c as int / 16) && Escape(c)[5] == HexDigit(c as int % 16);
      assert Escape(d)[4] == HexDigit(d as int / 16) && Escape(d)[5] == HexDigit(d as int % 16);
    } else if |Escape(c)| == 2 {
      assert Escape(c)[1] == Escape(d)[1];
    } else {
      assert Escape(c)[0] == Escape(d)[0];
    }
  }

  lemma EscapeDecodes(c: char, d: char, x: string, y: string)
    requires Escape(c) + x == Escape(d) + y
    ensures c == d && x == y
  {
    var a, b := Escape(c), Escape(d);
    EscapeLength(c);
    EscapeLength(d);
    hide Escape;
    Heads(a, x, b, y);
    if a[0] == '\\' {
      Heads(a[1..], x, b[1..], y);
    }
    Cut(a, x, b, y);
    EscapeInjective(c, d);
  }

  lemma {:induction false} EscapeAllDecodes(s: string, t: string, x: string, y: string)
    requires EscapeAll(s) + ("\"" + x) == EscapeAll(t) + ("\"" + y)
    ensures s == t && x == y
    decreases |s|
  {
    hide Escape;
    var p, q := "\"" + x, "\"" + y;
    if s == [] && t == [] {
      assert EscapeAll(s) + p == p && EscapeAll(t) + q == q;
      Cut("\"", x, "\"", y);
    } else if s == [] {
      EscapeLength(t[0]);
      assert EscapeAll(s) + p == p;
      Heads("\"", x, EscapeAll(t), q);
    } else if t == [] {
      EscapeLength(s[0]);
      assert EscapeAll(t) + q == q;
      Heads(EscapeAll(s), p, "\"", y);
    } else {
      assert EscapeAll(s) + p == Escape(s[0]) + (EscapeAll(s[1..]) + p);
      assert EscapeAll(t) + q == Escape(t[0]) + (EscapeAll(t[1..]) + q);
      EscapeDecodes(s[0], t[0], EscapeAll(s[1..]) + p, EscapeAll(t[1..]) + q);
      EscapeAllDecodes(s[1..], t[1..], x, y);
    }
  }

  lemma {:induction false} QuoteDecodes(s: string, t: string, x: string, y: string)
    requires Quote(s) + x == Quote(t) + y
    ensures s == t && x == y
  {
    Heads(Quote(s), x, Quote(t), y);
    QuoteTail(s, x);
    QuoteTail(t, y);
    EscapeAllDecodes(s, t, x, y);
  }

  lemma QuoteTail(s: string, x: string)
    ensures Quote(s)[1..] + x == EscapeAll(s) + ("\"" + x)
  {
    hide EscapeAll;
    assert Quote(s)[1..] == EscapeAll(s) + "\"";
    assert (EscapeAll(s) + "\"") + x == EscapeAll(s) + ("\"" + x);
  }

  // ----- numbers

  function Digit(n: int): char
    requires 0 <= n < 10
  {
    "0123456789"[n]
  }

  predicate IsDigit(c: char) {
    '0' <= c <= '9'
  }

  function Decimal(n: nat): (s: string)
    ensures s != [] && forall i :: 0 <= i < |s| ==> IsDigit(s[i])
  {
    if n < 10 then [Digit(n)] else Decimal(n / 10) + [Digit(n % 10)]
  }

  function Number(n: int): string {
    if n < 0 then "-" + Decimal(-n) else Decimal(n)
  }

  lemma {:induction false} DecimalInjective(m: nat, n: nat)
    requires Decimal(m) == Decimal(n)
    ensures m == n
  {
    var a, b := Decimal(m), Decimal(n);
    assert a[|a| - 1] == Digit(m % 10) && b[|b| - 1] == Digit(n % 10);
    if m >= 10 && n >= 10 {
      assert a[..|a| - 1] == Decimal(m / 10) && b[..|b| - 1] == Decimal(n / 10);
      DecimalInjective(m / 10, n / 10);
    }
  }

  /** What may follow a value: nothing, or a character that continues the list or object around it. */
  predicate Closing(x: string) {
    x == [] || x[0] in {',', ']', '}'}
  }

  lemma StartsWithDigit(p: string, x: string)
    requires Closing(x) && forall i :: 0 <= i < |p| ==> IsDigit(p[i])
    ensures p != [] <==> p + x != [] && IsDigit((p + x)[0])
  {
    if p == [] { assert p + x == x; } else { assert (p + x)[0] == p[0]; }
  }

  lemma {:induction false} DigitsDecode(p: string, q: string, x: string, y: string)
    requires p + x == q + y && Closing(x) && Closing(y)
    requires (forall i :: 0 <= i < |p| ==> IsDigit(p[i])) && (forall i :: 0 <= i < |q| ==> IsDigit(q[i]))
    ensures p == q && x == y
    decreases |p|
  {
    StartsWithDigit(p, x);
    StartsWithDigit(q, y);
    if p == [] {
      assert p + x == x && q + y == y;
    } else {
      Heads(p, x, q, y);
      DigitsDecode(p[1..], q[1..], x, y);
    }
  }

  lemma NumberDecodes(m: int, n: int, x: string, y: string)
    requires Number(m) + x == Number(n) + y && Closing(x) && Closing(y)
    ensures m == n && x == y
  {
    hide Decimal;
    Heads(Number(m), x, Number(n), y);
    if m < 0 {
      assert Number(m)[1..] == Decimal(-m) && Number(n)[1..] == Decimal(-n);
      hide Number;
      DigitsDecode(Decimal(-m), Decimal(-n), x, y);
      DecimalInjective(-m, -n);
    } else {
      hide Number;
      DigitsDecode(Decimal(m), Decimal(n), x, y);
      DecimalInjective(m, n);
    }
  }

  // ----- values, with the properties of an object in the order given

  function Text(v: Json): string
    decreases v, 0
  {
    match v
    case Undefined => "null"
    case Null => "null"
    case Bool(b) => if b then "true" else "false"
    case Num(n) => Number(n)
    case Str(s) => Quote(s)
    case Arr(items) => "[" + TextItems(items) + "]"
    case Obj(entries) => "{" + TextEntries(entries) + "}"
  }

  function TextItems(items: seq<Json>): string
    decreases items, 1
  {
    if items == [] then ""
    else if |items| == 1 then Text(items[0])
    else Text(items[0]) + "," + TextItems(items[1..])
  }

  function TextEntry(entry: Entry): string
    decreases entry, 1
  {
    Quote(entry.key) + ":" + Text(entry.value)
  }

  function TextEntries(entries: seq<Entry>): string
    decreases entries, 2
  {
    if entries == [] then ""
    else if |entries| == 1 then TextEntry(entries[0])
    else TextEntry(entries[0]) + "," + TextEntries(entries[1..])
  }

  /** No property anywhere in the value is without a value. */
  predicate Defined(v: Json)
    decreases v
  {
    match v
    case Undefined => false
    case Arr(items) => forall i :: 0 <= i < |items| ==> Defined(items[i])
    case Obj(entries) => forall i :: 0 <= i < |entries| ==> Defined(entries[i].value)
    case _ => true
  }

  /** The first character of a value's text tells its kind. */
  function Kind(v: Json): char {
    match v
    case Undefined => 'n'
    case Null => 'n'
    case Bool(b) => if b then 't' else 'f'
    case Num(_) => '0'
    case Str(_) => '\"'
    case Arr(_) => '['
    case Obj(_) => '{'
  }

  lemma FirstCharacter(v: Json)
    ensures Text(v) != []
    ensures Text(v)[0] == Kind(v) || (v.Num? && (Text(v)[0] == '-' || IsDigit(Text(v)[0])))
  {
  }

  /** A value's text determines the value, and where the text ends. */
  lemma {:induction false} TextDecodes(v: Json, w: Json, x: string, y: string)
    requires Defined(v) && Defined(w) && Closing(x) && Closing(y)
    requires Text(v) + x == Text(w) + y
    ensures v == w && x == y
    decreases v, 0
  {
    hide Number, Quote, TextItems, TextEntries;
    FirstCharacter(v);
    FirstCharacter(w);
    Heads(Text(v), x, Text(w), y);
    match v
    case Num(m) => NumberDecodes(m, w.n, x, y);
    case Str(s) => QuoteDecodes(s, w.s, x, y);
    case Arr(items) =>
      assert Text(v)[1..] + x == TextItems(items) + ("]" + x) && Text(w)[1..] + y == TextItems(w.items) + ("]" + y);
      ItemsDecode(items, w.items, x, y);
    case Obj(entries) =>
      assert Text(v)[1..] + x == TextEntries(entries) + ("}" + x)
             && Text(w)[1..] + y == TextEntries(w.entries) + ("}" + y);
      EntriesDecode(entries, w.entries, x, y);
    case Null => Cut(Text(v), x, Text(w), y);
    case Bool(_) => Cut(Text(v), x, Text(w), y);
  }

  /** The text of a list after its first item: the closing bracket, or a comma and the other items. */
  function Rest(items: seq<Json>, x: string): string
    requires items != []
  {
    if |items| == 1 then "]" + x else "," + (TextItems(items[1..]) + ("]" + x))
  }

  lemma Regroup(a: string, b: string, c: string, d: string)
    ensures (a + b + c) + d == a + (b + (c + d))
  {
  }

  lemma FirstItem(items: seq<Json>, x: string)
    requires items != []
    ensures TextItems(items) + ("]" + x) == Text(items[0]) + Rest(items, x)
    ensures TextItems(items) != [] && TextItems(items)[0] != ']'
  {
    FirstCharacter(items[0]);
    hide Text;
    if |items| > 1 {
      Regroup(Text(items[0]), ",", TextItems(items[1..]), "]" + x);
    }
  }

  lemma RestSplits(v: seq<Json>, w: seq<Json>, x: string, y: string)
    requires v != [] && w != [] && Rest(v, x) == Rest(w, y)
    ensures |v| == 1 <==> |w| == 1
    ensures |v| == 1 ==> x == y
    ensures |v| > 1 ==> TextItems(v[1..]) + ("]" + x) == TextItems(w[1..]) + ("]" + y)
  {
    hide TextItems;
    var a, b := Rest(v, x), Rest(w, y);
    assert a[0] == (if |v| == 1 then ']' else ',') && b[0] == (if |w| == 1 then ']' else ',');
    if |v| == 1 {
      Cut("]", x, "]", y);
    } else {
      Cut(",", TextItems(v[1..]) + ("]" + x), ",", TextItems(w[1..]) + ("]" + y));
    }
  }

  lemma ListEnd(v: seq<Json>, w: seq<Json>, x: string, y: string)
    requires v == [] || w == []
    requires TextItems(v) + ("]" + x) == TextItems(w) + ("]" + y)
    ensures v == w && x == y
  {
    assert TextItems([]) + ("]" + x) == "]" + x && TextItems([]) + ("]" + y) == "]" + y;
    if v != [] {
      FirstItem(v, x);
      Heads(TextItems(v), "]" + x, "]", y);
    } else if w != [] {
      FirstItem(w, y);
      Heads("]", x, TextItems(w), "]" + y);
    } else {
      Cut("]", x, "]", y);
    }
  }

  lemma {:induction false} ItemsDecode(v: seq<Json>, w: seq<Json>, x: string, y: string)
    requires (forall i :: 0 <= i < |v| ==> Defined(v[i])) && (forall i :: 0 <= i < |w| ==> Defined(w[i]))
    requires TextItems(v) + ("]" + x) == TextItems(w) + ("]" + y)
    ensures v == w && x == y
    decreases v, 1
  {
    hide Text, TextItems, Defined;
    if v == [] || w == [] {
      ListEnd(v, w, x, y);
    } else {
      FirstItem(v, x);
      FirstItem(w, y);
      RestCloses(v, x);
      RestCloses(w, y);
      hide Rest;
      TextDecodes(v[0], w[0], Rest(v, x), Rest(w, y));
      RestSplits(v, w, x, y);
      if |v| > 1 { ItemsDecode(v[1..], w[1..], x, y); }
      assert v == [v[0]] + v[1..] && w == [w[0]] + w[1..];
    }
  }

  lemma RestCloses(v: seq<Json>, x: string)
    requires v != []
    ensures Closing(Rest(v, x))
  {
  }

  function RestEntries(entries: seq<Entry>, x: string): string
    requires entries != []
  {
    if |entries| == 1 then "}" + x else "," + (TextEntries(entries[1..]) + ("}" + x))
  }

  lemma FirstEntry(entries: seq<Entry>, x: string)
    requires entries != []
    ensures TextEntries(entries) + ("}" + x) == Quote(entries[0].key)
            + (":" + (Text(entries[0].value) + RestEntries(entries, x)))
    ensures TextEntries(entries) != [] && TextEntries(entries)[0] == '\"'
  {
    hide Text, EscapeAll;
  }

  lemma RestEntriesSplits(v: seq<Entry>, w: seq<Entry>, x: string, y: string)
    requires v != [] && w != [] && RestEntries(v, x) == RestEntries(w, y)
    ensures |v| == 1 <==> |w| == 1
    ensures |v| == 1 ==> x == y
    ensures |v| > 1 ==> TextEntries(v[1..]) + ("}" + x) == TextEntries(w[1..]) + ("}" + y)
  {
    hide TextEntries;
    var a, b := RestEntries(v, x), RestEntries(w, y);
    assert a[0] == (if |v| == 1 then '}' else ',') && b[0] == (if |w| == 1 then '}' else ',');
    if |v| == 1 {
      Cut("}", x, "}", y);
    } else {
      Cut(",", TextEntries(v[1..]) + ("}" + x), ",", TextEntries(w[1..]) + ("}" + y));
    }
  }

  lemma ObjectEnd(v: seq<Entry>, w: seq<Entry>, x: string, y: string)
    requires v == [] || w == []
    requires TextEntries(v) + ("}" + x) == TextEntries(w) + ("}" + y)
    ensures v == w && x == y
  {
    assert TextEntries([]) + ("}" + x) == "}" + x && TextEntries([]) + ("}" + y) == "}" + y;
    if v != [] {
      FirstEntry(v, x);
      Heads(TextEntries(v), "}" + x, "}", y);
    } else if w != [] {
      FirstEntry(w, y);
      Heads("}", x, TextEntries(w), "}" + y);
    } else {
      Cut("}", x, "}", y);
    }
  }

  lemma RestEntriesClose(v: seq<Entry>, x: string)
    requires v != []
    ensures Closing(RestEntries(v, x))
  {
  }

  lemma {:induction false} EntriesDecode(v: seq<Entry>, w: seq<Entry>, x: string, y: string)
    requires (forall i :: 0 <= i < |v| ==> Defined(v[i].value)) && (forall i :: 0 <= i < |w| ==> Defined(w[i].value))
    requires TextEntries(v) + ("}" + x) == TextEntries(w) + ("}" + y)
    ensures v == w && x == y
    decreases v, 1
  {
    hide Text, TextEntries, Quote, Defined;
    if v == [] || w == [] {
      ObjectEnd(v, w, x, y);
    } else {
      FirstEntry(v, x);
      FirstEntry(w, y);
      RestEntriesClose(v, x);
      RestEntriesClose(w, y);
      hide RestEntries;
      var a, b := Text(v[0].value) + RestEntries(v, x), Text(w[0].value) + RestEntries(w, y);
      QuoteDecodes(v[0].key, w[0].key, ":" + a, ":" + b);
      Cut(":", a, ":", b);
      TextDecodes(v[0].value, w[0].value, RestEntries(v, x), RestEntries(w, y));
      RestEntriesSplits(v, w, x, y);
      if |v| > 1 { EntriesDecode(v[1..], w[1..], x, y); }
      assert v == [v[0]] + v[1..] && w == [w[0]] + w[1..];
    }
  }
}
