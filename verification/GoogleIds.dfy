/** Deterministic Google event ids (app/ledger/identity.py:139-183, 306-323; base32hex of section 7
    of RFC 4648). */
module GoogleIds {
  import opened Base

  // ---------------------------------------------------------------------------
  // Digits
  // ---------------------------------------------------------------------------

  function Pow(b: nat, k: nat): (p: nat)
    ensures b > 0 ==> p > 0
  {
    if k == 0 then 1 else b * Pow(b, k - 1)
  }

  /** The two bases in play: bytes and base32 digits. */
  predicate IsBase(b: nat) {
    b == 32 || b == 256
  }

  function Quot(b: nat, v: nat): (q: nat)
    requires IsBase(b)
    ensures q * b <= v < q * b + b
  {
    if b == 32 then v / 32 else v / 256
  }

  function Rem(b: nat, v: nat): (r: nat)
    requires IsBase(b)
    ensures r < b && v == Quot(b, v) * b + r
  {
    v - Quot(b, v) * b
  }

  /** The `k` low digits of `v`, the most significant first. */
  function Digits(b: nat, v: nat, k: nat): (ds: seq<nat>)
    requires IsBase(b)
    ensures |ds| == k && forall i :: 0 <= i < k ==> ds[i] < b
  {
    if k == 0 then [] else Digits(b, Quot(b, v), k - 1) + [Rem(b, v)]
  }

  function Number(b: nat, ds: seq<nat>): nat {
    if ds == [] then 0 else Number(b, ds[..|ds| - 1]) * b + ds[|ds| - 1]
  }

  lemma {:induction false} NumberOfDigits(b: nat, v: nat, k: nat)
    requires IsBase(b) && v < Pow(b, k)
    ensures Number(b, Digits(b, v, k)) == v
    decreases k
  {
    if k > 0 {
      QuotBelow(b, v, Pow(b, k - 1));
      NumberOfDigits(b, Quot(b, v), k - 1);
      assert Digits(b, v, k)[..k - 1] == Digits(b, Quot(b, v), k - 1);
    }
  }

  lemma QuotBelow(b: nat, v: nat, p: nat)
    requires IsBase(b) && v < b * p
    ensures Quot(b, v) < p
  {
    if b == 32 { assert v < 32 * p; } else { assert v < 256 * p; }
  }

  /** The digits of a number, cut in two. */
  lemma {:induction false} NumberOfSum(b: nat, s: seq<nat>, t: seq<nat>)
    ensures Number(b, s + t) == Number(b, s) * Pow(b, |t|) + Number(b, t)
    decreases |t|
  {
    if t == [] {
      assert s + t == s;
    } else {
      var u := t[..|t| - 1];
      assert (s + t)[..|s + t| - 1] == s + u;
      NumberOfSum(b, s, u);
      calc {
        Number(b, s + t);
        (Number(b, s) * Pow(b, |u|) + Number(b, u)) * b + t[|t| - 1];
        Number(b, s) * Pow(b, |u|) * b + (Number(b, u) * b + t[|t| - 1]);
        Number(b, s) * Pow(b, |t|) + Number(b, t);
      }
    }
  }

  // ---------------------------------------------------------------------------
  // base32hex
  // ---------------------------------------------------------------------------

  const ALPHABET := "0123456789ABCDEFGHIJKLMNOPQRSTUV"

  predicate IsSeed(seed: seq<nat>) {
    |seed| == 8 && forall i :: 0 <= i < 8 ==> seed[i] < 256
  }

  /** One group of five bytes becomes eight characters. */
  function EncodeGroup(g: seq<nat>): (s: string)
    requires |g| == 5
    ensures |s| == 8
  {
    var ds := Digits(32, Number(256, g), 8);
    seq(8, i requires 0 <= i < 8 => ALPHABET[ds[i]])
  }

  /** `base64.b32hexencode` of eight bytes: a full group, then three bytes filled up with zeros whose
      last three characters are padding. */
  function B32HexEncode(seed: seq<nat>): string
    requires IsSeed(seed)
  {
    EncodeGroup(seed[..5]) + EncodeGroup(seed[5..] + [0, 0])[..5] + "==="
  }

  function Lower(c: char): char {
    if 'A' <= c <= 'Z' then ((c as int) - ('A' as int) + ('a' as int)) as char else c
  }

  function RstripPadding(s: string): string {
    if s != [] && s[|s| - 1] == '=' then RstripPadding(s[..|s| - 1]) else s
  }

  function LowerAll(s: string): string {
    seq(|s|, i requires 0 <= i < |s| => Lower(s[i]))
  }

  const PREFIX := "bb"

  function IdOf(seed: seq<nat>): string
    requires IsSeed(seed)
  {
    PREFIX + RstripPadding(LowerAll(B32HexEncode(seed)))
  }

  /** `struct.pack(">Q", n)`. */
  function Pack(n: nat): (seed: seq<nat>)
    ensures IsSeed(seed)
  {
    Digits(256, n, 8)
  }

  /** `derive_google_event_id`; `hashed` stands for the first eight bytes of the SHA-256 digest. */
  function DeriveGoogleEventId(projection: int, generation: int, hashed: (int, int) -> seq<nat>): Option<string>
    requires forall p, g :: IsSeed(hashed(p, g))
  {
    if projection <= 0 || projection >= Pow(2, 64) || generation < 0 then None
    else Some(IdOf(if generation == 0 then Pack(projection) else hashed(projection, generation)))
  }

  predicate IsIdChar(c: char) {
    'a' <= c <= 'v' || '0' <= c <= '9'
  }

  /** `is_managed_google_event_id`. */
  predicate IsManagedGoogleEventId(id: string) {
    PREFIX <= id && |id| == 15 && forall i :: 2 <= i < 15 ==> IsIdChar(id[i])
  }

  // ---------------------------------------------------------------------------
  // Every id is recognised, and the seed can be read back
  // ---------------------------------------------------------------------------

  function DigitOf(c: char): nat
    requires IsIdChar(c)
  {
    if c <= '9' then (c as int) - ('0' as int) else (c as int) - ('a' as int) + 10
  }

  lemma LowerOfAlphabet(d: nat)
    requires d < 32
    ensures IsIdChar(Lower(ALPHABET[d])) && DigitOf(Lower(ALPHABET[d])) == d && Lower(ALPHABET[d]) != '='
  {
  }

  /** The thirteen digits of an id. */
  function Code(seed: seq<nat>): (ds: seq<nat>)
    requires IsSeed(seed)
    ensures |ds| == 13 && forall i :: 0 <= i < 13 ==> ds[i] < 32
  {
    Digits(32, Number(256, seed[..5]), 8) + Digits(32, Number(256, seed[5..] + [0, 0]), 8)[..5]
  }

  lemma IdSpelled(seed: seq<nat>)
    requires IsSeed(seed)
    ensures |IdOf(seed)| == 15 && IdOf(seed)[..2] == PREFIX
    ensures forall i :: 0 <= i < 13 ==> IdOf(seed)[2 + i] == Lower(ALPHABET[Code(seed)[i]])
  {
    var e := B32HexEncode(seed);
    var s := seq(13, i requires 0 <= i < 13 => Lower(ALPHABET[Code(seed)[i]]));
    assert LowerAll(e) == s + "===";
    LowerOfAlphabet(Code(seed)[12]);
    StripThree(s);
  }

  lemma StripThree(s: string)
    requires s != [] && s[|s| - 1] != '='
    ensures RstripPadding(s + "===") == s
  {
    assert (s + "===")[..|s| + 2] == s + "==";
    assert (s + "==")[..|s| + 1] == s + "=";
    assert (s + "=")[..|s|] == s;
    assert RstripPadding(s + "=") == RstripPadding(s) == s;
    assert RstripPadding(s + "==") == RstripPadding(s + "=");
    assert RstripPadding(s + "===") == RstripPadding(s + "==");
  }

  /** Every derived id, of whatever generation, is recognised as ours. */
  lemma DerivedIdsAreRecognised(projection: int, generation: int, hashed: (int, int) -> seq<nat>)
    requires forall p, g :: IsSeed(hashed(p, g))
    ensures var id := DeriveGoogleEventId(projection, generation, hashed); id.Some? ==> IsManagedGoogleEventId(id.value)
    ensures DeriveGoogleEventId(projection, generation, hashed).Some? <==> 0 < projection < Pow(2, 64) && generation >= 0
  {
    var id := DeriveGoogleEventId(projection, generation, hashed);
    if id.Some? {
      var seed := if generation == 0 then Pack(projection) else hashed(projection, generation);
      IdSpelled(seed);
      forall i | 2 <= i < 15 ensures IsIdChar(id.value[i]) {
        assert id.value[2 + (i - 2)] == Lower(ALPHABET[Code(seed)[i - 2]]);
        LowerOfAlphabet(Code(seed)[i - 2]);
      }
    }
  }

  lemma {:induction false} NumberBelow(b: nat, g: seq<nat>)
    requires IsBase(b) && forall i :: 0 <= i < |g| ==> g[i] < b
    ensures Number(b, g) < Pow(b, |g|)
    decreases |g|
  {
    if g != [] {
      NumberBelow(b, g[..|g| - 1]);
      OneDigitBelow(b, Number(b, g[..|g| - 1]), g[|g| - 1], Pow(b, |g| - 1));
    }
  }

  lemma OneDigitBelow(b: nat, x: nat, r: nat, p: nat)
    requires IsBase(b) && r < b && x < p
    ensures x * b + r < b * p
  {
    if b == 32 { assert x * 32 + 32 <= 32 * p; } else { assert x * 256 + 256 <= 256 * p; }
  }

  /** Two byte strings of one length with the same value are the same. */
  lemma {:induction false} NumberIsInjective(b: nat, s: seq<nat>, t: seq<nat>)
    requires IsBase(b) && |s| == |t| && Number(b, s) == Number(b, t)
    requires forall i :: 0 <= i < |s| ==> s[i] < b && t[i] < b
    ensures s == t
    decreases |s|
  {
    if s != [] {
      var k := |s| - 1;
      var x, y := Number(b, s[..k]), Number(b, t[..k]);
      SplitIsUnique(b, x, s[k], y, t[k]);
      NumberIsInjective(b, s[..k], t[..k]);
      assert s == s[..k] + [s[k]] && t == t[..k] + [t[k]];
    }
  }

  lemma SplitIsUnique(b: nat, x: nat, r: nat, y: nat, s: nat)
    requires IsBase(b) && r < b && s < b && x * b + r == y * b + s
    ensures x == y && r == s
  {
    if b == 32 { assert x * 32 + r == y * 32 + s; } else { assert x * 256 + r == y * 256 + s; }
  }

  lemma DropDigit(v: nat, w: nat, k: nat)
    requires v == 32 * w
    ensures Digits(32, v, k + 1)[..k] == Digits(32, w, k)
  {
    assert Quot(32, v) == w;
  }

  lemma CutThrice(d: seq<nat>, e: seq<nat>, f: seq<nat>)
    requires |d| == 8 && |e| == 7 && |f| == 6 && d[..7] == e && e[..6] == f
    ensures d[..5] == f[..5]
  {
    assert d[..7][..6] == d[..6] && d[..6][..5] == d[..5];
  }

  lemma DropThreeDigits(v: nat, x: nat, y: nat, z: nat)
    requires v == 32 * x && x == 32 * y && y == 32 * z
    ensures Digits(32, v, 8)[..5] == Digits(32, z, 5)
  {
    DropDigit(v, x, 7);
    DropDigit(x, y, 6);
    DropDigit(y, z, 5);
    CutThrice(Digits(32, v, 8), Digits(32, x, 7), Digits(32, y, 6));
  }

  /** The second group: three bytes, shifted by two. */
  lemma TailDigits(g: seq<nat>)
    requires |g| == 3 && forall i :: 0 <= i < 3 ==> g[i] < 256
    ensures Number(32, Digits(32, Number(256, g + [0, 0]), 8)[..5]) == 2 * Number(256, g)
  {
    var w := Number(256, g);
    NumberOfSum(256, g, [0, 0]);
    assert Number(256, [0, 0]) == 0 && Pow(256, 2) == 65536;
    DropThreeDigits(w * 65536, w * 2048, w * 64, 2 * w);
    NumberBelow(256, g);
    assert Pow(256, 3) == 0x100_0000 && Pow(32, 5) == 0x200_0000;
    NumberOfDigits(32, 2 * w, 5);
  }

  lemma HeadDigits(g: seq<nat>)
    requires |g| == 5 && forall i :: 0 <= i < 5 ==> g[i] < 256
    ensures Number(32, Digits(32, Number(256, g), 8)) == Number(256, g)
  {
    NumberBelow(256, g);
    assert Pow(256, 5) == 0x100_0000_0000 && Pow(32, 8) == 0x100_0000_0000;
    NumberOfDigits(32, Number(256, g), 8);
  }

  /** Different seeds get different ids. */
  lemma IdsAreInjective(s: seq<nat>, t: seq<nat>)
    requires IsSeed(s) && IsSeed(t) && IdOf(s) == IdOf(t)
    ensures s == t
  {
    IdSpelled(s);
    IdSpelled(t);
    forall i | 0 <= i < 13 ensures Code(s)[i] == Code(t)[i] {
      assert IdOf(s)[2 + i] == IdOf(t)[2 + i];
      LowerOfAlphabet(Code(s)[i]);
      LowerOfAlphabet(Code(t)[i]);
    }
    assert Code(s)[..8] == Code(t)[..8] && Code(s)[8..] == Code(t)[8..];
    SameGroups(s, t);
  }

  lemma SameGroups(s: seq<nat>, t: seq<nat>)
    requires IsSeed(s) && IsSeed(t) && Code(s)[..8] == Code(t)[..8] && Code(s)[8..] == Code(t)[8..]
    ensures s == t
  {
    assert Code(s)[..8] == Digits(32, Number(256, s[..5]), 8) && Code(t)[..8] == Digits(32, Number(256, t[..5]), 8);
    assert Code(s)[8..] == Digits(32, Number(256, s[5..] + [0, 0]), 8)[..5];
    assert Code(t)[8..] == Digits(32, Number(256, t[5..] + [0, 0]), 8)[..5];
    HeadDigits(s[..5]);
    HeadDigits(t[..5]);
    TailDigits(s[5..]);
    TailDigits(t[5..]);
    NumberIsInjective(256, s[..5], t[..5]);
    NumberIsInjective(256, s[5..], t[5..]);
    assert s == s[..5] + s[5..] && t == t[..5] + t[5..];
  }

  // ---------------------------------------------------------------------------
  // What else is recognised
  // ---------------------------------------------------------------------------

  /** The thirteen digits an id spells. */
  function DigitsOf(id: string): (ds: seq<nat>)
    requires IsManagedGoogleEventId(id)
    ensures |ds| == 13
  {
    seq(13, i requires 0 <= i < 13 => DigitOf(id[2 + i]))
  }

  lemma CharOfDigit(c: char)
    requires IsIdChar(c)
    ensures DigitOf(c) < 32 && Lower(ALPHABET[DigitOf(c)]) == c
  {
  }

  /** The last digit carries one padding bit. */
  lemma LastDigitIsEven(seed: seq<nat>)
    requires IsSeed(seed)
    ensures Code(seed)[12] % 2 == 0
  {
    var tail := Code(seed)[8..];
    assert tail == Digits(32, Number(256, seed[5..] + [0, 0]), 8)[..5];
    TailDigits(seed[5..]);
    EvenRest(Number(32, tail[..4]), tail[4], Number(256, seed[5..]));
  }

  lemma EvenRest(x: nat, r: nat, w: nat)
    requires x * 32 + r == 2 * w
    ensures r % 2 == 0
  {
    assert r == 2 * (w - x * 16);
  }

  lemma HeadOfCode(ds: seq<nat>) returns (g: seq<nat>)
    requires |ds| == 8 && forall i :: 0 <= i < 8 ==> ds[i] < 32
    ensures |g| == 5 && (forall i :: 0 <= i < 5 ==> g[i] < 256) && Digits(32, Number(256, g), 8) == ds
  {
    NumberBelow(32, ds);
    assert Pow(256, 5) == 0x100_0000_0000 && Pow(32, 8) == 0x100_0000_0000;
    g := Digits(256, Number(32, ds), 5);
    NumberOfDigits(256, Number(32, ds), 5);
    HeadDigits(g);
    NumberIsInjective(32, Digits(32, Number(256, g), 8), ds);
  }

  lemma HalfOfNumber(ds: seq<nat>) returns (half: nat)
    requires |ds| == 5 && (forall i :: 0 <= i < 5 ==> ds[i] < 32) && ds[4] % 2 == 0
    ensures Number(32, ds) == 2 * half && half < Pow(256, 3)
  {
    NumberBelow(32, ds);
    assert Pow(256, 3) == 0x100_0000 && Pow(32, 5) == 0x200_0000;
    half := Number(32, ds[..4]) * 16 + ds[4] / 2;
    assert Number(32, ds) == Number(32, ds[..4]) * 32 + ds[4];
  }

  lemma TailOfCode(ds: seq<nat>) returns (g: seq<nat>)
    requires |ds| == 5 && (forall i :: 0 <= i < 5 ==> ds[i] < 32) && ds[4] % 2 == 0
    ensures |g| == 3 && (forall i :: 0 <= i < 3 ==> g[i] < 256) && Digits(32, Number(256, g + [0, 0]), 8)[..5] == ds
  {
    var half := HalfOfNumber(ds);
    g := Digits(256, half, 3);
    NumberOfDigits(256, half, 3);
    TailDigits(g);
    NumberIsInjective(32, Digits(32, Number(256, g + [0, 0]), 8)[..5], ds);
  }

  /** The seed of a code whose padding bit is zero. */
  lemma SeedOfCode(ds: seq<nat>) returns (seed: seq<nat>)
    requires |ds| == 13 && (forall i :: 0 <= i < 13 ==> ds[i] < 32) && ds[12] % 2 == 0
    ensures IsSeed(seed) && Code(seed) == ds
  {
    var head := HeadOfCode(ds[..8]);
    var tail := TailOfCode(ds[8..]);
    seed := head + tail;
    assert seed[..5] == head && seed[5..] == tail && ds == ds[..8] + ds[8..];
  }

  lemma SpelledAlike(seed: seq<nat>, id: string)
    requires IsSeed(seed) && IsManagedGoogleEventId(id) && Code(seed) == DigitsOf(id)
    ensures IdOf(seed) == id
  {
    IdSpelled(seed);
    forall i | 0 <= i < 15 ensures IdOf(seed)[i] == id[i] {
      if i < 2 {
        assert IdOf(seed)[i] == IdOf(seed)[..2][i] && id[i] == PREFIX[i];
      } else {
        assert IdOf(seed)[2 + (i - 2)] == Lower(ALPHABET[Code(seed)[i - 2]]);
        CharOfDigit(id[i]);
      }
    }
  }

  /** Of the ids the recogniser accepts, half are ours: an accepted id belongs to some seed if and only if its
      last character stands for an even digit.  The other half is taken for ours although we never
      write it. */
  lemma RecognisedIdsExactly(id: string)
    requires IsManagedGoogleEventId(id)
    ensures (exists seed :: IsSeed(seed) && IdOf(seed) == id) <==> DigitOf(id[14]) % 2 == 0
  {
    if seed :| IsSeed(seed) && IdOf(seed) == id {
      IdSpelled(seed);
      LastDigitIsEven(seed);
      assert id[2 + 12] == Lower(ALPHABET[Code(seed)[12]]);
      LowerOfAlphabet(Code(seed)[12]);
    }
    if DigitOf(id[14]) % 2 == 0 {
      var ds := DigitsOf(id);
      forall i | 0 <= i < 13 ensures ds[i] < 32 { CharOfDigit(id[2 + i]); }
      var seed := SeedOfCode(ds);
      SpelledAlike(seed, id);
    }
  }

  /** Generation 0 is injective in the projection id. */
  lemma FirstGenerationIsInjective(p: nat, q: nat)
    requires p < Pow(2, 64) && q < Pow(2, 64) && IdOf(Pack(p)) == IdOf(Pack(q))
    ensures p == q
  {
    IdsAreInjective(Pack(p), Pack(q));
    PowTwo64();
    NumberOfDigits(256, p, 8);
    NumberOfDigits(256, q, 8);
  }

  lemma PowTwo64()
    ensures Pow(2, 64) == Pow(256, 8) == 0x1_0000_0000_0000_0000
  {
    PowSplit(2, 32, 32);
    PowSplit(2, 16, 16);
    PowSplit(2, 8, 8);
    assert Pow(2, 8) == 256;
  }

  lemma {:induction false} PowSplit(b: nat, j: nat, k: nat)
    ensures Pow(b, j + k) == Pow(b, j) * Pow(b, k)
    decreases j
  {
    if j > 0 {
      PowSplit(b, j - 1, k);
      assert Pow(b, j + k) == b * (Pow(b, j - 1) * Pow(b, k)) == Pow(b, j) * Pow(b, k);
    }
  }

  function SeedOf(projection: nat, generation: nat, hashed: (int, int) -> seq<nat>): seq<nat> {
    if generation == 0 then Pack(projection) else hashed(projection, generation)
  }

  /** The hashed seeds in use differ from each other and from the plain ones. */
  ghost predicate CollisionFree(used: set<(nat, nat)>, hashed: (int, int) -> seq<nat>) {
    forall x, y :: x in used && y in used && x != y && x.1 > 0 ==> SeedOf(x.0, x.1, hashed) != SeedOf(y.0, y.1, hashed)
  }

  /** While the seeds in use do not collide, no two generations of any projections share an id: naming
      slots by generation, as the pipeline model does, loses nothing. */
  lemma DistinctGenerationsGetDistinctIds(used: set<(nat, nat)>, p: nat, g: nat, q: nat, h: nat, hashed: (int, int) -> seq<nat>)
    requires forall a, b :: IsSeed(hashed(a, b))
    requires (p, g) in used && (q, h) in used && CollisionFree(used, hashed)
    requires DeriveGoogleEventId(p, g, hashed).Some? && DeriveGoogleEventId(p, g, hashed) == DeriveGoogleEventId(q, h, hashed)
    ensures p == q && g == h
  {
    IdsAreInjective(SeedOf(p, g, hashed), SeedOf(q, h, hashed));
    if g == 0 && h == 0 {
      FirstGenerationIsInjective(p, q);
    }
  }
}
