/** The string operations the handlers and the database use. */
module Text {
  import opened Basics

  // ---------------------------------------------------------------- byte order

  /** SQLite's BINARY collation, the order behind every `expires_at > ?`. */
  predicate Before(a: string, b: string) {
    b != [] && (a == [] || a[0] < b[0] || (a[0] == b[0] && Before(a[1..], b[1..])))
  }

  lemma {:induction false} BeforeIrreflexive(a: string)
    ensures !Before(a, a)
  {
    if a != [] {
      BeforeIrreflexive(a[1..]);
    }
  }

  /** On prefixes of one length the order is lexicographic in (prefix, rest). */
  lemma {:induction false} BeforeConcat(a: string, x: string, b: string, y: string)
    requires |a| == |b|
    ensures Before(a + x, b + y) <==> Before(a, b) || (a == b && Before(x, y))
  {
    if a == [] {
      assert a + x == x && b + y == y;
    } else {
      assert (a + x)[1..] == a[1..] + x && (b + y)[1..] == b[1..] + y;
      BeforeConcat(a[1..], x, b[1..], y);
      assert a == b <==> a[0] == b[0] && a[1..] == b[1..];
    }
  }

  // ------------------------------------------------------- case and whitespace

  function LowerChar(c: char): char {
    if 'A' <= c <= 'Z' then (c as int + 32) as char else c
  }

  /** SQLite's LOWER(), and strings.ToLower on ASCII text. */
  function Lower(s: string): (r: string)
    ensures |r| == |s|
  {
    if s == [] then [] else [LowerChar(s[0])] + Lower(s[1..])
  }

  predicate EqualFold(a: string, b: string) {
    Lower(a) == Lower(b)
  }

  /** The white space of ASCII: tab, newline, vertical tab, form feed, carriage return and blank. */
  predicate IsSpace(c: char) {
    c == ' ' || '\t' <= c <= '\r'
  }

  function TrimLeft(s: string): string {
    if s != [] && IsSpace(s[0]) then TrimLeft(s[1..]) else s
  }

  function TrimRight(s: string): string {
    if s != [] && IsSpace(s[|s| - 1]) then TrimRight(s[..|s| - 1]) else s
  }

  /** strings.TrimSpace on ASCII text. */
  function TrimSpace(s: string): string {
    TrimRight(TrimLeft(s))
  }

  // What these compare, said without them.

  /** The two cases of one ASCII letter. */
  predicate CasesOfOne(upper: char, lower: char) {
    'A' <= upper <= 'Z' && 'a' <= lower <= 'z' && upper as int - 'A' as int == lower as int - 'a' as int
  }

  predicate SameLetter(c: char, d: char) {
    c == d || CasesOfOne(c, d) || CasesOfOne(d, c)
  }

  /** Character by character equal, but for the case of ASCII letters. */
  predicate SameUpToCase(a: string, b: string) {
    |a| == |b| && forall i :: 0 <= i < |a| ==> SameLetter(a[i], b[i])
  }

  predicate White(c: char) {
    c as int == 32 || 9 <= c as int <= 13
  }

  predicate AllWhite(s: string) {
    forall i :: 0 <= i < |s| ==> White(s[i])
  }

  /** `m` is `s` without the white space around it. */
  ghost predicate Trimmed(s: string, m: string) {
    && (exists l, r :: s == l + m + r && AllWhite(l) && AllWhite(r))
    && (m != [] ==> !White(m[0]) && !White(m[|m| - 1]))
  }

  /** The same address up to surrounding white space and case. */
  ghost predicate SameAddress(a: string, b: string) {
    exists m, n :: Trimmed(a, m) && Trimmed(b, n) && SameUpToCase(m, n)
  }

  lemma LowerCharExactly(c: char, d: char)
    ensures LowerChar(c) == LowerChar(d) <==> SameLetter(c, d)
    ensures !('A' <= LowerChar(c) <= 'Z') && SameLetter(c, LowerChar(c))
  {
  }

  /** Comparing lower-cased texts is comparing them up to the case of ASCII letters. */
  lemma {:induction false} EqualFoldExactly(a: string, b: string)
    ensures EqualFold(a, b) <==> SameUpToCase(a, b)
  {
    hide LowerChar, SameLetter;
    if a != [] && b != [] {
      LowerCharExactly(a[0], b[0]);
      EqualFoldExactly(a[1..], b[1..]);
      assert Lower(a)[0] == LowerChar(a[0]) && Lower(b)[0] == LowerChar(b[0]);
      assert Lower(a)[1..] == Lower(a[1..]) && Lower(b)[1..] == Lower(b[1..]);
      assert Lower(a) == [LowerChar(a[0])] + Lower(a[1..]) && Lower(b) == [LowerChar(b[0])] + Lower(b[1..]);
      assert SameUpToCase(a, b) <==> SameLetter(a[0], b[0]) && SameUpToCase(a[1..], b[1..]) by {
        assert forall i :: 0 < i < |a| ==> a[i] == a[1..][i - 1];
        assert forall i :: 0 < i < |b| ==> b[i] == b[1..][i - 1];
      }
    }
  }

  /** Lower-casing changes nothing but case, and leaves no ASCII capital. */
  lemma {:induction false} LowerExactly(s: string)
    ensures SameUpToCase(s, Lower(s)) && forall i :: 0 <= i < |s| ==> !('A' <= Lower(s)[i] <= 'Z')
  {
    hide LowerChar, SameLetter;
    if s != [] {
      LowerCharExactly(s[0], s[0]);
      LowerExactly(s[1..]);
      assert forall i :: 0 < i < |s| ==> s[i] == s[1..][i - 1] && Lower(s)[i] == Lower(s[1..])[i - 1];
    }
  }

  /** `a` is `s` in lower case. */
  predicate LowerOf(s: string, a: string) {
    SameUpToCase(s, a) && forall i :: 0 <= i < |a| ==> !('A' <= a[i] <= 'Z')
  }

  lemma {:induction false} LowerOfExactly(s: string, a: string)
    ensures Lower(s) == a <==> LowerOf(s, a)
  {
    LowerExactly(s);
    if LowerOf(s, a) {
      hide LowerChar;
      EqualFoldExactly(s, a);
      LowerAgain(a);
    }
  }

  lemma {:induction false} LowerAgain(a: string)
    requires forall i :: 0 <= i < |a| ==> !('A' <= a[i] <= 'Z')
    ensures Lower(a) == a
  {
    if a != [] {
      LowerAgain(a[1..]);
      assert a == [a[0]] + a[1..];
    }
  }

  lemma {:induction false} LowerConcat(a: string, b: string)
    ensures Lower(a + b) == Lower(a) + Lower(b)
  {
    hide LowerChar;
    if a == [] {
      assert a + b == b;
    } else {
      assert (a + b)[1..] == a[1..] + b;
      LowerConcat(a[1..], b);
    }
  }

  lemma WhiteCaseless(s: string)
    ensures AllWhite(s) ==> AllWhite(Lower(s))
    ensures s != [] ==> (White(Lower(s)[0]) <==> White(s[0])) && (White(Lower(s)[|s| - 1]) <==> White(s[|s| - 1]))
  {
    LowerExactly(s);
  }

  lemma TrimsLower(s: string, m: string)
    requires Trimmed(s, m)
    ensures Trimmed(Lower(s), Lower(m))
  {
    hide White, AllWhite, Lower;
    var l, r :| s == l + m + r && AllWhite(l) && AllWhite(r);
    LowerConcat(l + m, r);
    LowerConcat(l, m);
    WhiteCaseless(l);
    WhiteCaseless(r);
    WhiteCaseless(m);
    assert Lower(s) == Lower(l) + Lower(m) + Lower(r);
  }

  /** `a` is the address typed as `x`: without the white space around it, in lower case. */
  ghost predicate Normalised(x: string, a: string) {
    exists m :: Trimmed(x, m) && LowerOf(m, a)
  }

  lemma NormalisedExactly(x: string, a: string)
    ensures TrimSpace(Lower(x)) == a <==> Normalised(x, a)
  {
    hide Trimmed, TrimSpace, Lower, LowerOf;
    var m := TrimSpace(x);
    TrimSpaceTrims(x);
    TrimsLower(x, m);
    TrimSpaceExactly(Lower(x), Lower(m));
    LowerOfExactly(m, a);
    if n :| Trimmed(x, n) && LowerOf(n, a) {
      TrimmedOnce(x, n, m);
    }
  }

  lemma {:induction false} TrimLeftExactly(s: string) returns (l: string)
    ensures s == l + TrimLeft(s) && AllWhite(l) && (TrimLeft(s) != [] ==> !White(TrimLeft(s)[0]))
  {
    l := [];
    if s != [] && IsSpace(s[0]) {
      l := TrimLeftExactly(s[1..]);
      l := [s[0]] + l;
      assert s == [s[0]] + s[1..];
    }
  }

  lemma {:induction false} TrimRightExactly(s: string) returns (r: string)
    ensures s == TrimRight(s) + r && AllWhite(r) && (TrimRight(s) != [] ==> !White(TrimRight(s)[|TrimRight(s)| - 1]))
    ensures TrimRight(s) != [] ==> TrimRight(s)[0] == s[0]
  {
    r := [];
    if s != [] && IsSpace(s[|s| - 1]) {
      r := TrimRightExactly(s[..|s| - 1]);
      r := r + [s[|s| - 1]];
      assert s == s[..|s| - 1] + [s[|s| - 1]];
    }
  }

  lemma TrimSpaceTrims(s: string)
    ensures Trimmed(s, TrimSpace(s))
  {
    hide TrimLeft, TrimRight, White;
    var l := TrimLeftExactly(s);
    var r := TrimRightExactly(TrimLeft(s));
    assert s == l + TrimSpace(s) + r;
  }

  /** The trimmed middle reaches from the first to the last character that is not white. */
  lemma MiddleReaches(s: string, l: string, m: string, r: string)
    requires s == l + m + r && AllWhite(l) && AllWhite(r) && (m != [] ==> !White(m[0]) && !White(m[|m| - 1]))
    ensures forall k :: 0 <= k < |s| && !White(s[k]) ==> |l| <= k < |s| - |r|
    ensures m != [] ==> !White(s[|l|]) && !White(s[|s| - |r| - 1])
    ensures m == s[|l|..|s| - |r|]
  {
    forall k | 0 <= k < |l| ensures White(s[k]) {
      assert s[k] == l[k];
    }
    forall k | |s| - |r| <= k < |s| ensures White(s[k]) {
      assert s[k] == r[k - (|s| - |r|)];
    }
    if m != [] {
      assert s[|l|] == m[0] && s[|s| - |r| - 1] == m[|m| - 1];
    }
  }

  /** There is only one way to trim a text. */
  lemma TrimmedOnce(s: string, m: string, n: string)
    requires Trimmed(s, m) && Trimmed(s, n)
    ensures m == n
  {
    hide White, AllWhite;
    var l, r :| s == l + m + r && AllWhite(l) && AllWhite(r);
    var l', r' :| s == l' + n + r' && AllWhite(l') && AllWhite(r');
    MiddleReaches(s, l, m, r);
    MiddleReaches(s, l', n, r');
  }

  /** strings.TrimSpace takes away the white space around the text, and nothing else. */
  lemma TrimSpaceExactly(s: string, m: string)
    ensures TrimSpace(s) == m <==> Trimmed(s, m)
  {
    hide Trimmed, TrimSpace;
    TrimSpaceTrims(s);
    if Trimmed(s, m) {
      TrimmedOnce(s, m, TrimSpace(s));
    }
  }

  lemma SameAddressExactly(a: string, b: string)
    ensures EqualFold(TrimSpace(a), TrimSpace(b)) <==> SameAddress(a, b)
  {
    hide Trimmed, TrimSpace, EqualFold, SameUpToCase;
    TrimSpaceTrims(a);
    TrimSpaceTrims(b);
    EqualFoldExactly(TrimSpace(a), TrimSpace(b));
    if m, n :| Trimmed(a, m) && Trimmed(b, n) && SameUpToCase(m, n) {
      TrimmedOnce(a, m, TrimSpace(a));
      TrimmedOnce(b, n, TrimSpace(b));
    }
  }

  // ------------------------------------------------------------------ decimals

  function Digit(d: nat): (c: char)
    requires d < 10
    ensures '0' <= c <= '9'
  {
    (d + 48) as char
  }

  predicate IsDigit(c: char) {
    '0' <= c <= '9'
  }

  function DigitValue(c: char): nat
    requires IsDigit(c)
  {
    c as int - 48
  }

  /** Decimal text without sign or leading zeros. */
  function Decimal(n: nat): (s: string)
    ensures s != [] && forall i :: 0 <= i < |s| ==> IsDigit(s[i])
  {
    if n < 10 then [Digit(n)] else Decimal(n / 10) + [Digit(n % 10)]
  }

  /** The number a digit string denotes; leading zeros are allowed. */
  function Number(s: string): Option<nat> {
    if s == [] then Some(0)
    else if !IsDigit(s[|s| - 1]) then None
    else
      match Number(s[..|s| - 1])
      case None => None
      case Some(n) => Some(10 * n + DigitValue(s[|s| - 1]))
  }

  lemma {:induction false} NumberOfDecimal(n: nat)
    ensures Number(Decimal(n)) == Some(n)
  {
    if n < 10 {
      assert Decimal(n) == [Digit(n)];
      assert Decimal(n)[..0] == [];
    } else {
      NumberOfDecimal(n / 10);
      assert Decimal(n)[..|Decimal(n)| - 1] == Decimal(n / 10);
    }
  }

  lemma DecimalVector()
    ensures Decimal(10) == "10" && forall d :: 0 <= d < 10 ==> Decimal(d) == ["0123456789"[d]]
  {
    assert Decimal(1) == "1";
  }

  /** `n` in exactly `w` digits, zero-padded. */
  function Padded(n: nat, w: nat): (s: string)
    ensures |s| == w
    decreases w
  {
    if w == 0 then [] else Padded(n / 10, w - 1) + [Digit(n % 10)]
  }

  function Pow10(w: nat): nat {
    if w == 0 then 1 else 10 * Pow10(w - 1)
  }

  /** Zero-padded numbers of one width are ordered as numbers. */
  lemma {:induction false} PaddedOrder(a: nat, b: nat, w: nat)
    requires a < Pow10(w) && b < Pow10(w)
    ensures Before(Padded(a, w), Padded(b, w)) <==> a < b
    ensures Padded(a, w) == Padded(b, w) <==> a == b
  {
    if w > 0 {
      var p, q := Padded(a / 10, w - 1), Padded(b / 10, w - 1);
      var x, y := [Digit(a % 10)], [Digit(b % 10)];
      PaddedOrder(a / 10, b / 10, w - 1);
      BeforeConcat(p, x, q, y);
      assert Before(x, y) <==> a % 10 < b % 10;
      assert Padded(a, w) == Padded(b, w) ==> p == q && x == y by {
        assert Padded(a, w)[..w - 1] == p && Padded(b, w)[..w - 1] == q;
        assert Padded(a, w)[w - 1] == x[0] && Padded(b, w)[w - 1] == y[0];
      }
    }
  }

  // ----------------------------------------------------------------- splitting

  /** strings.SplitN(s, sep, 2) for a one-character separator; None when it does not occur. */
  function SplitFirst(s: string, sep: char): (r: Option<(string, string)>)
  {
    if s == [] then None
    else if s[0] == sep then Some(([], s[1..]))
    else
      match SplitFirst(s[1..], sep)
      case None => None
      case Some((a, b)) => Some(([s[0]] + a, b))
  }

  lemma {:induction false} SplitFirstAt(a: string, sep: char, b: string)
    requires sep !in a
    ensures SplitFirst(a + [sep] + b, sep) == Some((a, b))
  {
    var s := a + [sep] + b;
    if a == [] {
      assert s[1..] == b;
    } else {
      assert s[1..] == a[1..] + [sep] + b;
      SplitFirstAt(a[1..], sep, b);
      assert [a[0]] + a[1..] == a;
    }
  }

  lemma {:induction false} SplitFirstSound(s: string, sep: char)
    ensures match SplitFirst(s, sep)
            case None => sep !in s
            case Some((a, b)) => s == a + [sep] + b && sep !in a
  {
    if s != [] && s[0] != sep {
      SplitFirstSound(s[1..], sep);
      assert s == [s[0]] + s[1..];
    } else if s != [] {
      assert s == [] + [sep] + s[1..];
    }
  }
}
