/** The byte strings keys are bound to: message headers, the names of skipped keys,
    and the pair of identities behind a safety number. */
module ByteText {

  newtype byte = x: int | 0 <= x < 256

  const IDENTITY_KEY_BYTES := 32

  // ---------------------------------------------------------------------
  // Concatenation into a fresh buffer.

  function Joined(parts: seq<seq<byte>>): seq<byte> {
    if parts == [] then [] else Joined(parts[..|parts| - 1]) + parts[|parts| - 1]
  }

  function Total(parts: seq<seq<byte>>): (n: nat)
    ensures n == |Joined(parts)|
  {
    if parts == [] then 0 else Total(parts[..|parts| - 1]) + |parts[|parts| - 1]|
  }

  lemma {:induction false} JoinedPrefix(parts: seq<seq<byte>>, i: nat)
    requires i <= |parts|
    ensures Joined(parts[..i]) <= Joined(parts)
  {
    if i < |parts| {
      assert parts[..|parts| - 1][..i] == parts[..i];
      JoinedPrefix(parts[..|parts| - 1], i);
    } else {
      assert parts[..i] == parts;
    }
  }

  method ConcatBytes(parts: seq<seq<byte>>) returns (out: array<byte>)
    ensures fresh(out) && out[..] == Joined(parts)
  {
    out := new byte[Total(parts)];
    var offset := 0;
    for i := 0 to |parts|
      invariant offset == |Joined(parts[..i])| <= out.Length
      invariant out[..offset] == Joined(parts[..i])
    {
      JoinedPrefix(parts, i + 1);
      assert parts[..i + 1][..i] == parts[..i];
      var part := parts[i];
      for k := 0 to |part|
        invariant out[..offset + k] == Joined(parts[..i]) + part[..k]
      {
        out[offset + k] := part[k];
      }
      offset := offset + |part|;
    }
    assert parts[..|parts|] == parts;
  }

  // ---------------------------------------------------------------------
  // Header text: the ratchet key, then two numbers in decimal.

  function Digit(d: nat): char
    requires d < 10
  {
    '0' + d as char
  }

  function Digits(n: nat): string {
    if n < 10 then [Digit(n)] else Digits(n / 10) + [Digit(n % 10)]
  }

  /** How JavaScript prints an integer. */
  function Decimal(n: int): string {
    if n < 0 then "-" + Digits(-n) else Digits(n)
  }

  function HeaderText(dh: string, pn: int, n: int): string {
    dh + "|" + Decimal(pn) + "|" + Decimal(n)
  }

  function SkippedKey(dh: string, n: int): string {
    dh + "|" + Decimal(n)
  }

  /** headerBytes: the session's associated data, then the header text. Characters
      stand for their bytes. */
  function HeaderBytes(ad: string, dh: string, pn: int, n: int): string {
    ad + HeaderText(dh, pn, n)
  }

  /** The number a digit string stands for, and what it adds to one more digit. */
  function ValueOf(s: string): int {
    if s == [] then 0 else 10 * ValueOf(s[..|s| - 1]) + (s[|s| - 1] as int - '0' as int)
  }

  /** Decimal printing: the digits stand for the number, without a leading zero. */
  lemma {:induction false} DigitsStandFor(n: nat)
    ensures ValueOf(Digits(n)) == n && Digits(n) != [] && (n > 0 ==> Digits(n)[0] != '0')
    ensures forall i :: 0 <= i < |Digits(n)| ==> '0' <= Digits(n)[i] <= '9'
  {
    if n >= 10 {
      DigitsStandFor(n / 10);
      assert Digits(n)[..|Digits(n)| - 1] == Digits(n / 10);
    } else {
      assert Digits(n)[..0] == [];
    }
  }

  /** What a header and a skipped key look like. */
  lemma HeaderLooksLike(dh: string)
    ensures HeaderText(dh, 3, 12) == dh + "|3|12" && SkippedKey(dh, 12) == dh + "|12" && Decimal(-5) == "-5"
  {
    assert Digits(12) == Digits(1) + [Digit(2)] == "12";
  }

  predicate BarFree(s: string) {
    forall i :: 0 <= i < |s| ==> s[i] != '|'
  }

  lemma {:induction false} DigitsPlain(n: nat)
    ensures Digits(n) != [] && BarFree(Digits(n)) && forall i :: 0 <= i < |Digits(n)| ==> Digits(n)[i] != '-'
  {
    if n >= 10 { DigitsPlain(n / 10); }
  }

  lemma {:induction false} DigitsInjective(m: nat, n: nat)
    requires Digits(m) == Digits(n)
    ensures m == n
  {
    DigitsPlain(m / 10);
    DigitsPlain(n / 10);
    var a, b := Digits(m), Digits(n);
    assert a[|a| - 1] == Digit(m % 10) && b[|b| - 1] == Digit(n % 10);
    if m >= 10 && n >= 10 {
      assert a[..|a| - 1] == Digits(m / 10) && b[..|b| - 1] == Digits(n / 10);
      DigitsInjective(m / 10, n / 10);
    }
  }

  lemma SignShows(n: int)
    ensures Decimal(n) != [] && (Decimal(n)[0] == '-' <==> n < 0)
  {
    DigitsPlain(if n < 0 then -n else n);
  }

  lemma DecimalInjective(m: int, n: int)
    requires Decimal(m) == Decimal(n)
    ensures m == n
  {
    SignShows(m);
    SignShows(n);
    if m < 0 && n < 0 {
      assert Decimal(m)[1..] == Digits(-m) && Decimal(n)[1..] == Digits(-n);
      DigitsInjective(-m, -n);
    } else if m >= 0 && n >= 0 {
      DigitsInjective(m, n);
    }
  }

  lemma DecimalBarFree(n: int)
    ensures BarFree(Decimal(n))
  {
    DigitsPlain(if n < 0 then -n else n);
  }

  /** Splitting at the last bar is unambiguous, whatever stands before it. */
  lemma LastBarSplits(a: string, b: string, a': string, b': string)
    requires BarFree(b) && BarFree(b') && a + "|" + b == a' + "|" + b'
    ensures a == a' && b == b'
  {
    var s, t := a + "|" + b, a' + "|" + b';
    assert s[|a|] == '|' && t[|a'|] == '|';
    assert forall k :: |a| < k < |s| ==> s[k] == b[k - |a| - 1];
    assert forall k :: |a'| < k < |t| ==> t[k] == b'[k - |a'| - 1];
    assert |a| == |a'|;
    assert s[..|a|] == a && t[..|a'|] == a';
    assert s[|a| + 1..] == b && t[|a'| + 1..] == b';
  }

  /** A skipped key's name determines the ratchet key and the number, even for a
      ratchet key text somebody made up. */
  lemma SkippedKeyInjective(dh: string, n: int, dh': string, n': int)
    ensures SkippedKey(dh, n) == SkippedKey(dh', n') <==> dh == dh' && n == n'
  {
    DecimalBarFree(n);
    DecimalBarFree(n');
    if SkippedKey(dh, n) == SkippedKey(dh', n') {
      LastBarSplits(dh, Decimal(n), dh', Decimal(n'));
      DecimalInjective(n, n');
    }
  }

  lemma HeaderTextInjective(dh: string, pn: int, n: int, dh': string, pn': int, n': int)
    requires HeaderText(dh, pn, n) == HeaderText(dh', pn', n')
    ensures dh == dh' && pn == pn' && n == n'
  {
    DecimalBarFree(n);
    DecimalBarFree(n');
    LastBarSplits(dh + "|" + Decimal(pn), Decimal(n), dh' + "|" + Decimal(pn'), Decimal(n'));
    DecimalInjective(n, n');
    SkippedKeyInjective(dh, pn, dh', pn');
  }

  /** What the AEAD authenticates is the header itself and the session: equal bytes
      mean equal session data, ratchet key, pn and n. */
  lemma HeaderBytesInjective(ad: string, dh: string, pn: int, n: int, ad': string, dh': string, pn': int, n': int)
    requires |ad| == |ad'|
    ensures HeaderBytes(ad, dh, pn, n) == HeaderBytes(ad', dh', pn', n') <==>
              ad == ad' && dh == dh' && pn == pn' && n == n'
  {
    var s, t := HeaderBytes(ad, dh, pn, n), HeaderBytes(ad', dh', pn', n');
    assert s[..|ad|] == ad && s[|ad|..] == HeaderText(dh, pn, n);
    assert t[..|ad'|] == ad' && t[|ad'|..] == HeaderText(dh', pn', n');
    if s == t { HeaderTextInjective(dh, pn, n, dh', pn', n'); }
  }

  // ---------------------------------------------------------------------
  // The safety number's preimage: both identity keys, smaller first.

  predicate Smaller(a: seq<byte>, b: seq<byte>)
    requires |a| == |b|
  {
    a != [] && (a[0] < b[0] || (a[0] == b[0] && Smaller(a[1..], b[1..])))
  }

  function SafetyPreimage(a: seq<byte>, b: seq<byte>): seq<byte>
    requires |a| == |b|
  {
    if Smaller(b, a) then b + a else a + b
  }

  lemma {:induction false} DecidedAt(a: seq<byte>, b: seq<byte>, i: nat)
    requires |a| == |b| && i < |a| && a[..i] == b[..i] && a[i] != b[i]
    ensures Smaller(a, b) == (a[i] < b[i]) && Smaller(b, a) == (b[i] < a[i])
  {
    if i > 0 {
      assert a[0] == a[..i][0] == b[..i][0] == b[0];
      assert a[1..][..i - 1] == a[..i][1..] && b[1..][..i - 1] == b[..i][1..];
      DecidedAt(a[1..], b[1..], i - 1);
    }
  }

  /** None stands for the error raised on keys of the wrong length. */
  method OrderedForSafetyNumber(mine: seq<byte>, theirs: seq<byte>) returns (ok: bool, ordered: seq<byte>)
    ensures ok <==> |mine| == IDENTITY_KEY_BYTES && |theirs| == IDENTITY_KEY_BYTES
    ensures ok ==> ordered == SafetyPreimage(mine, theirs)
  {
    if |mine| != IDENTITY_KEY_BYTES || |theirs| != IDENTITY_KEY_BYTES { return false, []; }
    var i := 0;
    while i < IDENTITY_KEY_BYTES
      invariant 0 <= i <= IDENTITY_KEY_BYTES && mine[..i] == theirs[..i]
    {
      if mine[i] != theirs[i] {
        DecidedAt(mine, theirs, i);
        return true, if mine[i] < theirs[i] then mine + theirs else theirs + mine;
      }
      i := i + 1;
    }
    assert mine == theirs by { assert mine[..i] == mine && theirs[..i] == theirs; }
    return true, mine + theirs;
  }

  lemma {:induction false} NeverBelowItself(a: seq<byte>)
    ensures !Smaller(a, a)
  {
    if a != [] { NeverBelowItself(a[1..]); }
  }

  /** The key that is not the larger one comes first. */
  lemma SmallerFirst(a: seq<byte>, b: seq<byte>)
    requires |a| == |b|
    ensures var p := SafetyPreimage(a, b);
            |p| == 2 * |a| && !Smaller(p[|a|..], p[..|a|]) && multiset{p[..|a|], p[|a|..]} == multiset{a, b}
  {
    var p := SafetyPreimage(a, b);
    if a != b {
      var i := FirstDifference(a, b);
      DecidedAt(a, b, i);
    } else {
      NeverBelowItself(a);
    }
    assert p[..|a|] == (if Smaller(b, a) then b else a) && p[|a|..] == (if Smaller(b, a) then a else b);
  }

  lemma {:induction false} FirstDifference(a: seq<byte>, b: seq<byte>) returns (i: nat)
    requires |a| == |b| && a != b
    ensures i < |a| && a[..i] == b[..i] && a[i] != b[i]
  {
    if a[0] != b[0] {
      i := 0;
    } else {
      assert a == [a[0]] + a[1..] && b == [b[0]] + b[1..];
      var k := FirstDifference(a[1..], b[1..]);
      i := k + 1;
      assert a[..i] == [a[0]] + a[1..][..k] && b[..i] == [b[0]] + b[1..][..k];
    }
  }

  /** Both people read out the same number, and only that pair of identities gives
      these bytes. */
  lemma SafetyPreimageIsThePair(a: seq<byte>, b: seq<byte>, c: seq<byte>, d: seq<byte>)
    requires |a| == |b| == |c| == |d|
    ensures SafetyPreimage(a, b) == SafetyPreimage(c, d) <==> (a == c && b == d) || (a == d && b == c)
  {
    if a != b {
      var i := FirstDifference(a, b);
      DecidedAt(a, b, i);
    }
    var s, t := SafetyPreimage(a, b), SafetyPreimage(c, d);
    assert s[..|a|] == (if Smaller(b, a) then b else a) && s[|a|..] == (if Smaller(b, a) then a else b);
    assert t[..|a|] == (if Smaller(d, c) then d else c) && t[|a|..] == (if Smaller(d, c) then c else d);
  }
}
