/** Trimming, as Rust's `str::trim` does it. */
module Text {

  /** The White_Space property of Unicode. */
  predicate IsSpace(c: char) {
    var n := c as int;
    || 9 <= n <= 13 || n == 32 || n == 0x85 || n == 0xA0 || n == 0x1680
    || 0x2000 <= n <= 0x200A || n == 0x2028 || n == 0x2029 || n == 0x202F || n == 0x205F || n == 0x3000
  }

  function TrimStart(s: string): string {
    if s != [] && IsSpace(s[0]) then TrimStart(s[1..]) else s
  }

  function TrimEnd(s: string): string {
    if s != [] && IsSpace(s[|s| - 1]) then TrimEnd(s[..|s| - 1]) else s
  }

  function Trim(s: string): string { TrimEnd(TrimStart(s)) }

  predicate Trimmed(s: string) {
    s == [] || (!IsSpace(s[0]) && !IsSpace(s[|s| - 1]))
  }

  lemma {:induction false} TrimStartSpec(s: string)
    ensures TrimStart(s) == [] || !IsSpace(TrimStart(s)[0])
  {
    if s != [] && IsSpace(s[0]) { TrimStartSpec(s[1..]); }
  }

  lemma {:induction false} TrimEndSpec(s: string)
    ensures TrimEnd(s) <= s
    ensures TrimEnd(s) == [] || !IsSpace(TrimEnd(s)[|TrimEnd(s)| - 1])
  {
    if s != [] && IsSpace(s[|s| - 1]) { TrimEndSpec(s[..|s| - 1]); }
  }

  /** A trimmed string has no blank at either end, and trimming it again changes nothing. */
  lemma TrimSpec(s: string)
    ensures Trimmed(Trim(s)) && Trim(Trim(s)) == Trim(s)
  {
    TrimStartSpec(s);
    TrimEndSpec(TrimStart(s));
  }

  predicate Blank(s: string) { forall i :: 0 <= i < |s| ==> IsSpace(s[i]) }

  lemma {:induction false} TrimStartCuts(s: string) returns (i: nat)
    ensures i <= |s| && TrimStart(s) == s[i..] && Blank(s[..i])
  {
    i := 0;
    if s != [] && IsSpace(s[0]) {
      var k := TrimStartCuts(s[1..]);
      i := k + 1;
      assert forall h :: 0 <= h < i ==> s[..i][h] == if h == 0 then s[0] else s[1..][..k][h - 1];
    }
  }

  lemma {:induction false} TrimEndCuts(s: string) returns (k: nat)
    ensures k <= |s| && TrimEnd(s) == s[..k] && Blank(s[k..])
    decreases |s|
  {
    k := |s|;
    if s != [] && IsSpace(s[|s| - 1]) {
      var n := |s| - 1;
      k := TrimEndCuts(s[..n]);
      assert s[..n][..k] == s[..k];
      assert forall h :: 0 <= h < |s| - k ==> s[k..][h] == if h == n - k then s[n] else s[..n][k..][h];
    }
  }

  /** Trimming cuts blanks off both ends, and nothing else. */
  lemma TrimCutsBlanks(s: string) returns (i: nat, k: nat)
    ensures i <= k <= |s| && Trim(s) == s[i..k] && Blank(s[..i]) && Blank(s[k..])
  {
    i := TrimStartCuts(s);
    var h := TrimEndCuts(s[i..]);
    k := i + h;
    assert s[i..][..h] == s[i..k] && s[i..][h..] == s[k..];
  }

  predicate Contains(text: string, part: string) {
    |part| <= |text| && (text[..|part|] == part || (text != [] && Contains(text[1..], part)))
  }
}
