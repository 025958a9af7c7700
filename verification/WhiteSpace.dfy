/** White space: what `trim` removes and `\s` matches. */
module WhiteSpace {

  /** By character code. */
  predicate IsWhite(n: int) {
    9 <= n <= 13 || n == 0x20 || n == 0xa0 || n == 0x1680 || 0x2000 <= n <= 0x200a
    || n == 0x2028 || n == 0x2029 || n == 0x202f || n == 0x205f || n == 0x3000 || n == 0xfeff
  }

  predicate IsSpace(c: char) {
    IsWhite(c as int)
  }

  predicate Blank(s: string) {
    forall i :: 0 <= i < |s| ==> IsSpace(s[i])
  }

  predicate Trimmed(s: string) {
    s == [] || (!IsSpace(s[0]) && !IsSpace(s[|s| - 1]))
  }

  function TrimStart(s: string): string {
    if s != [] && IsSpace(s[0]) then TrimStart(s[1..]) else s
  }

  function TrimEnd(s: string): (r: string)
    ensures r <= s
    ensures r != [] ==> !IsSpace(r[|r| - 1])
  {
    if s != [] && IsSpace(s[|s| - 1]) then TrimEnd(s[..|s| - 1]) else s
  }

  function Trim(s: string): (r: string)
    ensures Trimmed(r)
    ensures Trimmed(s) ==> r == s
  {
    TrimStartStops(s);
    TrimEnd(TrimStart(s))
  }

  lemma TrimStartStops(s: string)
    ensures TrimStart(s) == [] || !IsSpace(TrimStart(s)[0])
  {
  }

  lemma {:induction false} TrimStartCuts(s: string)
    ensures |TrimStart(s)| <= |s| && TrimStart(s) == s[|s| - |TrimStart(s)|..] && Blank(s[..|s| - |TrimStart(s)|])
  {
    if s == [] || !IsSpace(s[0]) {
    } else {
      TrimStartCuts(s[1..]);
      var n := |s| - |TrimStart(s)|;
      assert s[..n] == [s[0]] + s[1..][..n - 1];
    }
  }

  lemma {:induction false} TrimEndCuts(s: string)
    ensures Blank(s[|TrimEnd(s)|..])
  {
    if s == [] || !IsSpace(s[|s| - 1]) {
    } else {
      var t := s[..|s| - 1];
      TrimEndCuts(t);
      var n := |TrimEnd(t)|;
      assert s[n..] == t[n..] + [s[|s| - 1]];
    }
  }

  /** Trimming takes away white space at both ends and nothing else. */
  lemma TrimCuts(s: string) returns (i: nat, j: nat)
    ensures i <= j <= |s| && Trim(s) == s[i..j] && Blank(s[..i]) && Blank(s[j..])
    ensures Trim(s) == [] <==> Blank(s)
  {
    hide TrimStart, TrimEnd;
    var t := TrimStart(s);
    TrimStartCuts(s);
    TrimEndCuts(t);
    i := |s| - |t|;
    j := i + |Trim(s)|;
    assert t[|Trim(s)|..] == s[j..];
    assert s == s[..i] + s[i..j] + s[j..];
  }
}
