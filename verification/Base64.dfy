/**
 * Base 64 as the program meets it: the padded standard encoding (section 4 of RFC 4648) that
 * encoding/json uses for []byte, and the unpadded URL-safe form (section 5) that the page scripts'
 * bufferToBase64 / base64ToBuffer build on top of btoa / atob.
 */
module Base64 {
  import opened Basics

  type Sextet = v: int | 0 <= v < 64

  function Symbol(v: Sextet): char {
    if v < 26 then (v + 65) as char
    else if v < 52 then (v + 71) as char
    else if v < 62 then (v - 4) as char
    else if v == 62 then '+' else '/'
  }

  predicate IsSymbol(c: char) {
    'A' <= c <= 'Z' || 'a' <= c <= 'z' || '0' <= c <= '9' || c == '+' || c == '/'
  }

  function Value(c: char): Sextet
    requires IsSymbol(c)
  {
    if 'A' <= c <= 'Z' then c as int - 65
    else if 'a' <= c <= 'z' then c as int - 71
    else if '0' <= c <= '9' then c as int + 4
    else if c == '+' then 62 else 63
  }

  /** Table 1 of RFC 4648: four runs of consecutive characters. */
  lemma SymbolTable(v: Sextet)
    ensures Symbol(0) == 'A' && Symbol(25) == 'Z' && Symbol(26) == 'a' && Symbol(51) == 'z'
    ensures Symbol(52) == '0' && Symbol(61) == '9' && Symbol(62) == '+' && Symbol(63) == '/'
    ensures v !in {25, 51, 61, 62, 63} ==> Symbol(v + 1) as int == Symbol(v) as int + 1
  {
  }

  lemma SymbolValue(v: Sextet)
    ensures IsSymbol(Symbol(v)) && Value(Symbol(v)) == v
  {
  }

  // ------------------------------------------------------ unpadded block coding

  /** The sextets of `b`, a trailing partial group filled with zero bits. */
  function Sextets(b: seq<Byte>): seq<Sextet> {
    if |b| == 0 then []
    else if |b| == 1 then [b[0] / 4, b[0] % 4 * 16]
    else if |b| == 2 then Trio(b[0], b[1])
    else Quad(b[0], b[1], b[2]) + Sextets(b[3..])
  }

  function Trio(a: Byte, b: Byte): (r: seq<Sextet>)
    ensures |r| == 3
  {
    [a / 4, a % 4 * 16 + b / 16, b % 16 * 4]
  }

  function Quad(a: Byte, b: Byte, c: Byte): (r: seq<Sextet>)
    ensures |r| == 4
  {
    [a / 4, a % 4 * 16 + b / 16, b % 16 * 4 + c / 64, c % 64]
  }

  function High(x: int, y: int): Byte
    requires 0 <= x < 64 && 0 <= y < 64
  {
    x * 4 + y / 16
  }

  function Middle(x: int, y: int): Byte
    requires 0 <= x < 64 && 0 <= y < 64
  {
    x % 16 * 16 + y / 4
  }

  function Low(x: int, y: int): Byte
    requires 0 <= x < 64 && 0 <= y < 64
  {
    x % 4 * 64 + y
  }

  /** The octets a sextet string carries; one left-over sextet carries none. */
  function Octets(v: seq<Sextet>): seq<Byte> {
    if |v| <= 1 then []
    else if |v| == 2 then [High(v[0], v[1])]
    else if |v| == 3 then [High(v[0], v[1]), Middle(v[1], v[2])]
    else Triple(v[0], v[1], v[2], v[3]) + Octets(v[4..])
  }

  function Triple(x: Sextet, y: Sextet, z: Sextet, w: Sextet): (r: seq<Byte>)
    ensures |r| == 3
  {
    [High(x, y), Middle(y, z), Low(z, w)]
  }

  /** A group of octets and its sextets are the same number, most significant first; a short group is filled with zeros. */
  lemma GroupsAreBigEndian(a: Byte, b: Byte, c: Byte)
    ensures var q := Quad(a, b, c);
            65536 * (a as int) + 256 * (b as int) + c as int
            == 262144 * (q[0] as int) + 4096 * (q[1] as int) + 64 * (q[2] as int) + q[3] as int
    ensures var r := Trio(a, b);
            4 * (256 * (a as int) + b as int) == 4096 * (r[0] as int) + 64 * (r[1] as int) + r[2] as int
    ensures var s := Sextets([a]); 16 * (a as int) == 64 * (s[0] as int) + s[1] as int
  {
  }

  lemma {:induction false} SextetsLength(b: seq<Byte>)
    ensures |Sextets(b)| == (4 * |b| + 2) / 3
  {
    if |b| >= 3 {
      SextetsLength(b[3..]);
    }
  }

  lemma TripleOfQuad(a: Byte, b: Byte, c: Byte)
    ensures var q := Quad(a, b, c); Triple(q[0], q[1], q[2], q[3]) == [a, b, c]
  {
    SplitOff(a as int % 4, b as int / 16, 16);
    SplitOff(b as int % 16, c as int / 64, 4);
  }

  lemma SplitOff(x: int, y: int, n: int)
    requires 0 <= y < n && (n == 4 || n == 16)
    ensures (x * n + y) / n == x && (x * n + y) % n == y
  {
  }

  lemma {:induction false} OctetsOfSextets(b: seq<Byte>)
    ensures Octets(Sextets(b)) == b
  {
    if |b| >= 3 {
      var v := Sextets(b);
      TripleOfQuad(b[0], b[1], b[2]);
      assert v[..4] == Quad(b[0], b[1], b[2]) && v[4..] == Sextets(b[3..]);
      OctetsOfSextets(b[3..]);
      assert Octets(v) == [b[0], b[1], b[2]] + b[3..];
    }
  }

  /** No left-over sextet, and the unused low bits of the last one are zero. */
  ghost predicate Canonical(v: seq<Sextet>) {
    && |v| % 4 != 1
    && (|v| % 4 == 2 ==> v[|v| - 1] % 16 == 0)
    && (|v| % 4 == 3 ==> v[|v| - 1] % 4 == 0)
  }

  /** A full group of sextets comes back from its three octets. */
  lemma GroupBack(x: int, y: int, z: int, w: int)
    requires 0 <= x < 64 && 0 <= y < 64 && 0 <= z < 64 && 0 <= w < 64
    ensures High(x, y) / 4 == x
    ensures High(x, y) % 4 * 16 + Middle(y, z) / 16 == y
    ensures High(x, y) % 4 * 16 == y / 16 * 16
    ensures Middle(y, z) % 16 * 4 + Low(z, w) / 64 == z
    ensures Middle(y, z) % 16 * 4 == z / 4 * 4
    ensures Low(z, w) % 64 == w
  {
    assert y == y / 16 * 16 + y % 16 && z == z / 4 * 4 + z % 4;
    assert High(x, y) / 4 == x && High(x, y) % 4 == y / 16;
    assert Middle(y, z) / 16 == y % 16 && Middle(y, z) % 16 == z / 4;
    assert Low(z, w) / 64 == z % 4;
  }

  lemma QuadOfTriple(x: Sextet, y: Sextet, z: Sextet, w: Sextet)
    ensures var t := Triple(x, y, z, w); Quad(t[0], t[1], t[2]) == [x, y, z, w]
  {
    GroupBack(x, y, z, w);
  }

  lemma SextetsOfFullGroup(v: seq<Sextet>)
    requires |v| >= 4
    ensures Sextets(Octets(v)) == v[..4] + Sextets(Octets(v[4..]))
  {
    var t, b := Triple(v[0], v[1], v[2], v[3]), Octets(v);
    QuadOfTriple(v[0], v[1], v[2], v[3]);
    assert b[..3] == t && b[3..] == Octets(v[4..]);
    assert b[0] == t[0] && b[1] == t[1] && b[2] == t[2];
    assert v[..4] == [v[0], v[1], v[2], v[3]];
  }

  lemma TwoSextets(v: seq<Sextet>)
    requires |v| == 2
    ensures Sextets(Octets(v)) == v <==> v[1] % 16 == 0
  {
    var b: seq<Byte> := [High(v[0], v[1])];
    assert Octets(v) == b;
    assert Sextets(b) == [b[0] / 4, b[0] % 4 * 16];
    GroupBack(v[0], v[1], 0, 0);
    assert Sextets(b)[1] == v[1] / 16 * 16;
  }

  lemma TrioOfPair(x: Sextet, y: Sextet, z: Sextet)
    ensures Trio(High(x, y), Middle(y, z)) == [x, y, z / 4 * 4]
  {
    GroupBack(x, y, z, 0);
  }

  lemma ThreeSextets(v: seq<Sextet>)
    requires |v| == 3
    ensures Sextets(Octets(v)) == v <==> v[2] % 4 == 0
  {
    hide High, Middle, Trio;
    TrioOfPair(v[0], v[1], v[2]);
    var b := Octets(v);
    assert b[0] == High(v[0], v[1]) && b[1] == Middle(v[1], v[2]);
    assert Sextets(b) == [v[0], v[1], v[2] / 4 * 4];
  }

  lemma FewSextets(v: seq<Sextet>)
    requires |v| <= 1
    ensures Sextets(Octets(v)) == v <==> |v| == 0
  {
    assert Octets(v) == [];
  }

  lemma CanonicalTail(v: seq<Sextet>)
    requires |v| >= 4
    ensures Canonical(v) <==> Canonical(v[4..])
  {
    var tail := v[4..];
    assert |tail| % 4 == |v| % 4;
    assert |tail| > 0 ==> tail[|tail| - 1] == v[|v| - 1];
  }

  /** Decoding and encoding again gives the same sextets exactly on canonical strings. */
  lemma {:induction false} SextetsOfOctets(v: seq<Sextet>)
    ensures Sextets(Octets(v)) == v <==> Canonical(v)
  {
    if |v| <= 1 {
      FewSextets(v);
    } else if |v| == 2 {
      TwoSextets(v);
    } else if |v| == 3 {
      ThreeSextets(v);
    } else {
      var head, again := v[..4], Sextets(Octets(v[4..]));
      SextetsOfFullGroup(v);
      SextetsOfOctets(v[4..]);
      CanonicalTail(v);
      assert (head + again)[4..] == again && v == head + v[4..];
    }
  }

  // ----------------------------------------------------------- text and padding

  function Symbols(v: seq<Sextet>): (s: string)
    ensures |s| == |v| && forall i :: 0 <= i < |s| ==> s[i] == Symbol(v[i])
    ensures AllSymbols(s) && '=' !in s
  {
    seq(|v|, i requires 0 <= i < |v| => Symbol(v[i]))
  }

  predicate AllSymbols(s: string) {
    forall i :: 0 <= i < |s| ==> IsSymbol(s[i])
  }

  function Values(s: string): (v: seq<Sextet>)
    requires AllSymbols(s)
    ensures |v| == |s| && forall i :: 0 <= i < |s| ==> v[i] == Value(s[i])
  {
    seq(|s|, i requires 0 <= i < |s| => Value(s[i]))
  }

  lemma ValuesOfSymbols(v: seq<Sextet>)
    ensures Values(Symbols(v)) == v
  {
    forall i | 0 <= i < |v| ensures Values(Symbols(v))[i] == v[i] {
      SymbolValue(v[i]);
    }
  }

  lemma SymbolsOfValues(s: string)
    requires AllSymbols(s)
    ensures Symbols(Values(s)) == s
  {
    forall i | 0 <= i < |s| ensures Symbols(Values(s))[i] == s[i] {
    }
  }

  function Padding(n: nat): string {
    if n % 3 == 1 then "==" else if n % 3 == 2 then "=" else ""
  }

  /** base64.StdEncoding.EncodeToString, and btoa. */
  function Encode(b: seq<Byte>): string {
    Symbols(Sextets(b)) + Padding(|b|)
  }

  /** How many of the last two characters are '='. */
  function PadCount(s: string): nat {
    if |s| >= 2 && s[|s| - 1] == '=' && s[|s| - 2] == '=' then 2
    else if |s| >= 1 && s[|s| - 1] == '=' then 1
    else 0
  }

  /** base64.StdEncoding.DecodeString on text without line breaks: full quanta, padding required. */
  function Decode(s: string): Option<seq<Byte>> {
    var body := s[..|s| - PadCount(s)];
    if |s| % 4 == 0 && AllSymbols(body) then Some(Octets(Values(body))) else None
  }

  lemma PadShape(body: string, n: nat)
    requires '=' !in body && |body| == (4 * n + 2) / 3
    ensures var s := body + Padding(n);
            |s| % 4 == 0 && PadCount(s) == |Padding(n)| && s[..|s| - PadCount(s)] == body
  {
    var s := body + Padding(n);
    assert s[..|body|] == body;
    if |body| > 0 {
      assert s[|body| - 1] == body[|body| - 1];
    }
  }

  lemma DecodeEncode(b: seq<Byte>)
    ensures Decode(Encode(b)) == Some(b)
  {
    SextetsLength(b);
    PadShape(Symbols(Sextets(b)), |b|);
    ValuesOfSymbols(Sextets(b));
    OctetsOfSextets(b);
  }

  /** Vectors of section 10 of RFC 4648. */
  lemma EncodeVectors()
    ensures Encode([]) == "" && Encode([102]) == "Zg==" && Encode([102, 111]) == "Zm8=" && Encode([102, 111, 111]) == "Zm9v"
    ensures Encode([102, 111, 111, 98, 97, 114]) == "Zm9vYmFy"
  {
    var foo, bar: seq<Byte> := [102, 111, 111], [98, 97, 114];
    assert Quad(102, 111, 111) == [25, 38, 61, 47] && Quad(98, 97, 114) == [24, 38, 5, 50];
    assert foo[3..] == [] && bar[3..] == [] && (foo + bar)[3..] == bar && foo + bar == [102, 111, 111, 98, 97, 114];
    assert Sextets(foo) == [25, 38, 61, 47] && Sextets(foo + bar) == [25, 38, 61, 47, 24, 38, 5, 50];
    assert Symbols([25, 38, 61, 47]) == "Zm9v" && Symbols([25, 38, 61, 47, 24, 38, 5, 50]) == "Zm9vYmFy";
    assert Symbols([25, 32]) == "Zg" && Symbols([25, 38, 60]) == "Zm8";
  }

  // ------------------------------------------------------------- page scripts

  /** s.replace(/from/g, to) for single characters. */
  function Replace(s: string, from: char, to: char): (r: string)
    ensures |r| == |s|
    ensures forall i :: 0 <= i < |s| ==> r[i] == if s[i] == from then to else s[i]
  {
    if s == [] then [] else [if s[0] == from then to else s[0]] + Replace(s[1..], from, to)
  }

  /** s.replace(/c/g, '') */
  function Remove(s: string, c: char): string {
    if s == [] then [] else (if s[0] == c then [] else [s[0]]) + Remove(s[1..], c)
  }

  lemma {:induction false} RemoveConcat(s: string, t: string, c: char)
    requires c !in s && forall i :: 0 <= i < |t| ==> t[i] == c
    ensures Remove(s + t, c) == s
  {
    if s != [] {
      assert (s + t)[1..] == s[1..] + t;
      RemoveConcat(s[1..], t, c);
      assert s == [s[0]] + s[1..];
    } else if t != [] {
      assert s + t == t;
      assert [] + t[1..] == t[1..];
      RemoveConcat([], t[1..], c);
    }
  }

  predicate IsUrlSymbol(c: char) {
    'A' <= c <= 'Z' || 'a' <= c <= 'z' || '0' <= c <= '9' || c == '-' || c == '_'
  }

  predicate IsScriptSpace(c: char) {
    c == ' ' || c == '\t' || c == '\n' || c == '\r' || c as int == 12
  }

  function DropSpace(s: string): string {
    if s == [] then [] else (if IsScriptSpace(s[0]) then [] else [s[0]]) + DropSpace(s[1..])
  }

  lemma {:induction false} DropSpaceNothing(s: string)
    requires AllSymbols(s)
    ensures DropSpace(s) == s
  {
    if s != [] {
      DropSpaceNothing(s[1..]);
    }
  }

  /** window.atob: white space and correct trailing padding ignored, left-over bits discarded. */
  function Atob(text: string): Option<seq<Byte>> {
    var s := DropSpace(text);
    var body := if |s| % 4 == 0 then s[..|s| - PadCount(s)] else s;
    if |body| % 4 != 1 && AllSymbols(body) then Some(Octets(Values(body))) else None
  }

  function BufferToBase64(b: seq<Byte>): string {
    Remove(Replace(Replace(Encode(b), '+', '-'), '/', '_'), '=')
  }

  function Base64ToBuffer(s: string): Option<seq<Byte>> {
    Atob(Replace(Replace(s, '-', '+'), '_', '/'))
  }

  function ToUrl(s: string): string {
    Replace(Replace(s, '+', '-'), '/', '_')
  }

  function FromUrl(s: string): string {
    Replace(Replace(s, '-', '+'), '_', '/')
  }

  lemma FromUrlToUrl(s: string)
    requires AllSymbols(s)
    ensures FromUrl(ToUrl(s)) == s
    ensures forall i :: 0 <= i < |s| ==> IsUrlSymbol(ToUrl(s)[i])
  {
    forall i | 0 <= i < |s| ensures FromUrl(ToUrl(s))[i] == s[i] {
    }
  }

  lemma ToUrlFromUrl(s: string)
    requires forall i :: 0 <= i < |s| ==> IsUrlSymbol(s[i])
    ensures AllSymbols(FromUrl(s)) && ToUrl(FromUrl(s)) == s
  {
    forall i | 0 <= i < |s| ensures ToUrl(FromUrl(s))[i] == s[i] {
    }
  }

  lemma BufferToBase64Body(b: seq<Byte>)
    ensures BufferToBase64(b) == ToUrl(Symbols(Sextets(b)))
  {
    var body, pad := Symbols(Sextets(b)), Padding(|b|);
    var u := ToUrl(body);
    FromUrlToUrl(body);
    assert ToUrl(Encode(b)) == u + pad;
    assert '=' !in u;
    RemoveConcat(u, pad, '=');
  }

  /** What bufferToBase64 produces: ceil(4n/3) characters of the URL-safe alphabet, nothing else. */
  lemma BufferToBase64Shape(b: seq<Byte>)
    ensures |BufferToBase64(b)| == (4 * |b| + 2) / 3
    ensures forall i :: 0 <= i < |BufferToBase64(b)| ==> IsUrlSymbol(BufferToBase64(b)[i])
  {
    BufferToBase64Body(b);
    SextetsLength(b);
    FromUrlToUrl(Symbols(Sextets(b)));
  }

  lemma AtobBare(s: string)
    requires AllSymbols(s)
    ensures Atob(s) == if |s| % 4 == 1 then None else Some(Octets(Values(s)))
  {
    DropSpaceNothing(s);
    assert PadCount(s) == 0;
    assert s[..|s|] == s;
  }

  lemma ReadSymbols(v: seq<Sextet>)
    requires |v| % 4 != 1
    ensures Base64ToBuffer(ToUrl(Symbols(v))) == Some(Octets(v))
  {
    FromUrlToUrl(Symbols(v));
    AtobBare(Symbols(v));
    ValuesOfSymbols(v);
  }

  /** Every byte string survives the trip through the browser helpers. */
  lemma BufferRoundTrip(b: seq<Byte>)
    ensures Base64ToBuffer(BufferToBase64(b)) == Some(b)
  {
    BufferToBase64Body(b);
    SextetsLength(b);
    ReadSymbols(Sextets(b));
    OctetsOfSextets(b);
  }

  /** For unpadded URL-safe text: the helpers give it back if and only if it is canonical. */
  lemma TextRoundTrip(s: string)
    requires forall i :: 0 <= i < |s| ==> IsUrlSymbol(s[i])
    ensures AllSymbols(FromUrl(s))
    ensures (exists b :: Base64ToBuffer(s) == Some(b) && BufferToBase64(b) == s) <==> Canonical(Values(FromUrl(s)))
  {
    ToUrlFromUrl(s);
    var v := Values(FromUrl(s));
    AtobBare(FromUrl(s));
    SymbolsOfValues(FromUrl(s));
    SextetsOfOctets(v);
    if |s| % 4 != 1 {
      var b := Octets(v);
      BufferToBase64Body(b);
      assert Base64ToBuffer(s) == Some(b);
      if BufferToBase64(b) == s {
        FromUrlToUrl(Symbols(Sextets(b)));
        ValuesOfSymbols(Sextets(b));
        assert Sextets(b) == v;
      }
    }
  }
}
