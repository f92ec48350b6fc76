/** The string operations of the original, on sequences of characters. */
module Strings {

  /** What `str.strip()` removes. */
  predicate IsSpace(c: char) {
    || '\t' <= c <= '\r' || c == ' ' || '\U{1C}' <= c <= '\U{1F}' || c == '\U{85}' || c == '\U{A0}'
    || c == '\U{1680}' || '\U{2000}' <= c <= '\U{200A}' || c == '\U{2028}' || c == '\U{2029}'
    || c == '\U{202F}' || c == '\U{205F}' || c == '\U{3000}'
  }

  /** `s.rstrip()`. */
  function Rstrip(s: string): (r: string)
    ensures r <= s && (r == [] || !IsSpace(r[|r| - 1]))
    ensures forall i :: |r| <= i < |s| ==> IsSpace(s[i])
  {
    if s == [] || !IsSpace(s[|s| - 1]) then s else Rstrip(s[..|s| - 1])
  }

  /** `s.lstrip()`. */
  function Lstrip(s: string): (r: string)
    ensures |r| <= |s| && (r == [] || !IsSpace(r[0]))
  {
    if s == [] || !IsSpace(s[0]) then s else Lstrip(s[1..])
  }

  function Strip(s: string): string {
    Lstrip(Rstrip(s))
  }

  predicate StartsWith(s: string, prefix: string) {
    prefix <= s
  }

  predicate EndsWith(s: string, suffix: string) {
    |suffix| <= |s| && s[|s| - |suffix|..] == suffix
  }

  predicate OccursAt(s: string, d: string, i: int) {
    0 <= i <= |s| - |d| && s[i..i + |d|] == d
  }

  ghost predicate Contains(s: string, d: string) {
    exists i :: OccursAt(s, d, i)
  }

  /** `s.rfind(d)`. */
  function RFind(s: string, d: string): (r: int)
    ensures r == -1 ==> !Contains(s, d)
    ensures r != -1 ==> OccursAt(s, d, r) && forall i :: OccursAt(s, d, i) ==> i <= r
  {
    RFindFrom(s, d, |s| - |d|)
  }

  function RFindFrom(s: string, d: string, i: int): (r: int)
    requires i <= |s| - |d|
    ensures r == -1 ==> forall j :: j <= i ==> !OccursAt(s, d, j)
    ensures r != -1 ==> r <= i && OccursAt(s, d, r) && forall j :: r < j <= i ==> !OccursAt(s, d, j)
    decreases i + 1
  {
    if i < 0 then -1
    else if OccursAt(s, d, i) then i
    else RFindFrom(s, d, i - 1)
  }

  /** A right-trimmed string is its own right trim. */
  lemma RstripIsTrimmed(s: string)
    requires s == [] || !IsSpace(s[|s| - 1])
    ensures Rstrip(s) == s
  {
  }

  /** Trimming a text that ends in white space on the right. */
  lemma {:induction false} RstripDropsSpaces(s: string, w: string)
    requires (s == [] || !IsSpace(s[|s| - 1])) && forall i :: 0 <= i < |w| ==> IsSpace(w[i])
    ensures Rstrip(s + w) == s
    decreases |w|
  {
    if w == [] {
      assert s + w == s;
    } else {
      assert (s + w)[..|s + w| - 1] == s + w[..|w| - 1];
      RstripDropsSpaces(s, w[..|w| - 1]);
    }
  }

  /** Trimming reaches no further left than the last visible character. */
  lemma RstripOfSum(s: string, t: string)
    requires Rstrip(t) != []
    ensures Rstrip(s + t) == s + Rstrip(t)
  {
    var r := Rstrip(t);
    assert s + t == (s + r) + t[|r|..];
    RstripDropsSpaces(s + r, t[|r|..]);
  }

  lemma {:induction false} LstripIsSuffix(s: string)
    ensures Lstrip(s) == s[|s| - |Lstrip(s)|..] && forall i :: 0 <= i < |s| - |Lstrip(s)| ==> IsSpace(s[i])
    decreases |s|
  {
    if s != [] && IsSpace(s[0]) {
      LstripIsSuffix(s[1..]);
      var k := |s[1..]| - |Lstrip(s[1..])|;
      assert s[1..][k..] == s[k + 1..];
      forall i | 0 <= i < k + 1 ensures IsSpace(s[i]) {
        if i > 0 { assert s[i] == s[1..][i - 1]; }
      }
    }
  }

  lemma {:induction false} LstripIs(s: string, k: nat)
    requires k <= |s| && (forall i :: 0 <= i < k ==> IsSpace(s[i])) && (k < |s| ==> !IsSpace(s[k]))
    ensures Lstrip(s) == s[k..]
    decreases k
  {
    if k > 0 {
      LstripIs(s[1..], k - 1);
      assert s[1..][k - 1..] == s[k..];
    }
  }

  lemma LstripOfSum(s: string, t: string)
    requires Lstrip(s) != []
    ensures Lstrip(s + t) == Lstrip(s) + t
  {
    var k := |s| - |Lstrip(s)|;
    LstripIsSuffix(s);
    LstripIs(s + t, k);
    assert (s + t)[k..] == s[k..] + t;
  }
}
