/** Base64 encoding and decoding (section 4 of RFC 4648), as done by src/uxmpp/utils.cpp.

    The specification cuts the same 24 bits into three octets or four sextets; the methods do the
    table look-ups and the packing of the original in place. A shift by k bits is written as a
    multiplication or division by 2^k, a mask of the k low bits as a remainder modulo 2^k, and the
    bitwise "or" is defined bit by bit. */
module Base64 {
  import opened Base64Tables

  type Byte = n: nat | n < 256

  // ---------- Specification: regrouping ----------

  /** Three octets, cut after 6, 12 and 18 bits. */
  function ToSextets(a: Byte, b: Byte, c: Byte): (v: seq<Sextet>)
    ensures |v| == 4
  {
    [a / 4, a % 4 * 16 + b / 16, b % 16 * 4 + c / 64, c % 64]
  }

  /** Four sextets, cut after 8 and 16 bits. */
  function ToOctets(a: Sextet, b: Sextet, c: Sextet, d: Sextet): (s: seq<Byte>)
    ensures |s| == 3
  {
    [a * 4 + b / 16, b % 16 * 16 + c / 4, c % 4 * 64 + d]
  }

  /** All the sextets of a sequence of octets, the last one filled up with zero bits. */
  function Split(s: seq<Byte>): seq<Sextet> {
    if |s| >= 3 then ToSextets(s[0], s[1], s[2]) + Split(s[3..])
    else if |s| == 2 then ToSextets(s[0], s[1], 0)[..3]
    else if |s| == 1 then ToSextets(s[0], 0, 0)[..2]
    else []
  }

  function Letters(v: seq<Sextet>): (s: string)
    ensures |s| == |v| && forall i :: 0 <= i < |v| ==> s[i] == Letter(v[i])
  {
    seq(|v|, i requires 0 <= i < |v| => Letter(v[i]))
  }

  function Padding(n: nat): string {
    if n % 3 == 2 then "=" else if n % 3 == 1 then "==" else ""
  }

  /** Section 4 of RFC 4648, including the two forms of padding. */
  function Encode(s: seq<Byte>): string {
    Letters(Split(s)) + Padding(|s|)
  }

  predicate IsSpace(c: char) {
    c == ' ' || '\t' <= c <= '\r'
  }

  /** The sextets a decoder reads: white space is skipped, the first other character outside the
      alphabet ends the input. */
  function Sextets(s: string): seq<Sextet> {
    if s == "" then []
    else if IsSpace(s[0]) then Sextets(s[1..])
    else if Value(s[0]) == INVALID then []
    else [Value(s[0])] + Sextets(s[1..])
  }

  /** Four sextets regroup into three octets; a rest of r sextets, padded with zero bits, gives its
      first r octets (the last of them is what the final flush writes). */
  function Regroup(v: seq<Sextet>): seq<Byte> {
    if |v| >= 4 then ToOctets(v[0], v[1], v[2], v[3]) + Regroup(v[4..])
    else if |v| == 3 then ToOctets(v[0], v[1], v[2], 0)
    else if |v| == 2 then ToOctets(v[0], v[1], 0, 0)[..2]
    else if |v| == 1 then ToOctets(v[0], 0, 0, 0)[..1]
    else []
  }

  function Decode(s: string): seq<Byte> {
    Regroup(Sextets(s))
  }

  // ---------- Properties of the specification ----------

  /** The four sextets are the base-64 digits of the number whose base-256 digits are the octets. */
  lemma SextetsSameNumber(a: Byte, b: Byte, c: Byte)
    ensures var v := ToSextets(a, b, c);
      ((v[0] as int * 64 + v[1] as int) * 64 + v[2] as int) * 64 + v[3] as int
      == (a as int * 256 + b as int) * 256 + c as int
  {
  }

  lemma OctetsSameNumber(a: Sextet, b: Sextet, c: Sextet, d: Sextet)
    ensures var s := ToOctets(a, b, c, d);
      (s[0] as int * 256 + s[1] as int) * 256 + s[2] as int
      == ((a as int * 64 + b as int) * 64 + c as int) * 64 + d as int
  {
  }

  lemma Halves(x: nat, m: nat, y: nat)
    requires (m == 4 || m == 16) && y < m
    ensures (x * m + y) / m == x && (x * m + y) % m == y
  {
  }

  lemma OctetsOfSextets(a: Byte, b: Byte, c: Byte)
    ensures var v := ToSextets(a, b, c); ToOctets(v[0], v[1], v[2], v[3]) == [a, b, c]
  {
    Halves(a % 4, 16, b / 16);
    Halves(b % 16, 4, c / 64);
  }

  lemma {:induction false} SplitLength(s: seq<Byte>)
    ensures |Split(s)| == (|s| * 4 + 2) / 3
  {
    if |s| >= 3 {
      SplitLength(s[3..]);
    }
  }

  lemma EncodeLength(s: seq<Byte>)
    ensures |Encode(s)| == (|s| + 2) / 3 * 4
  {
    SplitLength(s);
    PaddedLength(|s|, |s| / 3);
  }

  lemma PaddedLength(n: nat, q: nat)
    requires q == n / 3
    ensures (n * 4 + 2) / 3 + |Padding(n)| == (n + 2) / 3 * 4
  {
  }

  /** n sextets decode to exactly n - floor(n/4) octets. */
  lemma {:induction false} RegroupLength(v: seq<Sextet>)
    ensures |Regroup(v)| == |v| - |v| / 4
  {
    if |v| >= 4 {
      RegroupLength(v[4..]);
    }
  }

  lemma {:induction false} SextetsLength(s: string)
    ensures |Sextets(s)| <= |s|
  {
    if s != "" {
      SextetsLength(s[1..]);
    }
  }

  /** The caller's allocation of 3*ceil(len/4) octets is never exceeded. */
  lemma DecodeBound(s: string)
    ensures |Decode(s)| == |Sextets(s)| - |Sextets(s)| / 4
    ensures |Decode(s)| <= (|s| + 3) / 4 * 3
  {
    RegroupLength(Sextets(s));
    SextetsLength(s);
  }

  lemma {:induction false} SkippedSpace(pre: string, w: char, post: string)
    requires IsSpace(w)
    ensures Sextets(pre + [w] + post) == Sextets(pre + post)
  {
    if pre == "" {
      assert ([w] + post)[1..] == post && pre + [w] + post == [w] + post && pre + post == post;
    } else {
      assert (pre + [w] + post)[1..] == pre[1..] + [w] + post;
      assert (pre + post)[1..] == pre[1..] + post;
      SkippedSpace(pre[1..], w, post);
    }
  }

  /** White space inserted anywhere leaves the result unchanged. */
  lemma DecodeIgnoresSpace(pre: string, w: char, post: string)
    requires w in " \t\n\r" || w as int == 11 || w as int == 12
    ensures Decode(pre + [w] + post) == Decode(pre + post)
  {
    SkippedSpace(pre, w, post);
  }

  /** What the decoder skips, and where it stops: at the first character that is neither one of the six
      white space characters of the C locale nor one of the 64 letters. */
  lemma {:induction false} StopsAt(pre: string, c: char, post: string)
    requires c !in " \t\n\r" && c as int != 11 && c as int != 12
    requires !('A' <= c <= 'Z') && !('a' <= c <= 'z') && !('0' <= c <= '9') && c != '+' && c != '/'
    ensures Decode(pre + [c] + post) == Decode(pre)
  {
    StopsReading(pre, c, post);
  }

  lemma {:induction false} StopsReading(pre: string, c: char, post: string)
    requires !IsSpace(c) && Value(c) == INVALID
    ensures Sextets(pre + [c] + post) == Sextets(pre)
  {
    if pre == "" {
      assert pre + [c] + post == [c] + post;
    } else {
      assert (pre + [c] + post)[1..] == pre[1..] + [c] + post;
      StopsReading(pre[1..], c, post);
    }
  }

  /** The decoder reads the letters back and stops at the padding. */
  lemma {:induction false} SextetsOfLetters(v: seq<Sextet>, rest: string)
    ensures Sextets(Letters(v) + rest) == v + Sextets(rest)
  {
    if v == [] {
      assert Letters(v) + rest == rest;
    } else {
      SextetsOfLetters(v[1..], rest);
      ValueOfLetter(v[0]);
      assert (Letters(v) + rest)[1..] == Letters(v[1..]) + rest;
    }
  }

  lemma RegroupGroup(v: seq<Sextet>, rest: seq<Sextet>)
    requires |v| == 4
    ensures Regroup(v + rest) == ToOctets(v[0], v[1], v[2], v[3]) + Regroup(rest)
  {
    assert (v + rest)[4..] == rest;
  }

  /** Regrouping twice, except for one zero octet when the input is not a whole number of groups. */
  lemma {:induction false} RegroupSplit(s: seq<Byte>)
    ensures Regroup(Split(s)) == (if |s| % 3 == 0 then s else s + [0])
  {
    if |s| >= 3 {
      RegroupSplit(s[3..]);
      RegroupGroup(ToSextets(s[0], s[1], s[2]), Split(s[3..]));
      OctetsOfSextets(s[0], s[1], s[2]);
      assert s == [s[0], s[1], s[2]] + s[3..];
    } else if |s| == 2 {
      OctetsOfSextets(s[0], s[1], 0);
      assert ToSextets(s[0], s[1], 0)[3] == 0;
      assert Regroup(Split(s)) == [s[0], s[1], 0];
    } else if |s| == 1 {
      OctetsOfSextets(s[0], 0, 0);
      assert ToSextets(s[0], 0, 0)[2] == 0 && ToSextets(s[0], 0, 0)[3] == 0;
      assert Regroup(Split(s)) == [s[0], 0];
    }
  }

  lemma SextetsOfEncoded(s: seq<Byte>)
    ensures Sextets(Encode(s)) == Split(s)
  {
    SextetsOfLetters(Split(s), Padding(|s|));
    assert Sextets(Padding(|s|)) == [];
  }

  /** Decoding undoes encoding, except that the final flush of the decoder adds one zero octet
      whenever the input is not a whole number of three-octet groups. */
  lemma DecodeEncode(s: seq<Byte>)
    ensures Decode(Encode(s)) == (if |s| % 3 == 0 then s else s + [0])
  {
    SextetsOfEncoded(s);
    RegroupSplit(s);
  }

  lemma SameLength(m: nat, n: nat)
    requires (m * 4 + 2) / 3 == (n * 4 + 2) / 3
    ensures m == n
  {
  }

  /** Encoding loses nothing. */
  lemma EncodeInjective(s: seq<Byte>, t: seq<Byte>)
    requires Encode(s) == Encode(t)
    ensures s == t
  {
    SextetsOfEncoded(s);
    SextetsOfEncoded(t);
    SplitLength(s);
    SplitLength(t);
    SameLength(|s|, |t|);
    RegroupSplit(s);
    RegroupSplit(t);
    assert (s + [0])[..|s|] == s && (t + [0])[..|t|] == t;
  }

  // ---------- The decoder's four states ----------

  /** The octets written so far followed by the one held back in states 1 to 3, after one sextet. */
  function Absorb(w: seq<int>, index: nat, c: Sextet): seq<int>
    requires index == 0 || w != []
  {
    if index == 0 then w + [c * 4]
    else
      var d := w[|w| - 1];
      if index == 1 then w[..|w| - 1] + [d + c / 16, c % 16 * 16]
      else if index == 2 then w[..|w| - 1] + [d + c / 4, c % 4 * 64]
      else w[..|w| - 1] + [d + c]
  }

  /** The low bits of the octet held back are still free. */
  predicate Free(d: int, index: nat) {
    if index == 1 then d % 4 == 0 else if index == 2 then d % 16 == 0 else d % 64 == 0
  }

  lemma RegroupShort(a: Sextet, b: Sextet, c: Sextet, d: Sextet)
    ensures Regroup([a]) == [a * 4] && Regroup([a, b]) == [a * 4 + b / 16, b % 16 * 16]
    ensures Regroup([a, b, c]) == [a * 4 + b / 16, b % 16 * 16 + c / 4, c % 4 * 64]
    ensures Regroup([a, b, c, d]) == [a * 4 + b / 16, b % 16 * 16 + c / 4, c % 4 * 64 + d]
  {
    RegroupGroup([a, b, c, d], []);
    assert [a, b, c, d] + [] == [a, b, c, d];
  }

  lemma AbsorbLast(w: seq<int>, d: int, c: Sextet)
    ensures Absorb(w + [d], 1, c) == w + [d + c / 16, c % 16 * 16]
    ensures Absorb(w + [d], 2, c) == w + [d + c / 4, c % 4 * 64]
    ensures Absorb(w + [d], 3, c) == w + [d + c]
  {
    assert (w + [d])[..|w|] == w;
  }

  /** w grows into w' by one sequence step of the decoder. */
  predicate Appended(w: seq<int>, w': seq<int>, index: nat, c: Sextet) {
    (index == 0 || (w != [] && Free(w[|w| - 1], index))) && w' == Absorb(w, index, c)
  }

  lemma AppendedPrefix(head: seq<int>, w: seq<int>, w': seq<int>, index: nat, c: Sextet)
    requires Appended(w, w', index, c)
    ensures Appended(head + w, head + w', index, c)
  {
  }

  predicate Snoc(v: seq<Sextet>, c: Sextet) {
    Appended(Regroup(v), Regroup(v + [c]), |v| % 4, c)
  }

  lemma Snoc1(a: Sextet, c: Sextet)
    ensures Snoc([], c) && Snoc([a], c)
  {
    RegroupShort(a, c, 0, 0);
    RegroupShort(c, 0, 0, 0);
    AbsorbLast([], a * 4, c);
    assert [a] + [c] == [a, c] && [] + [c] == [c];
  }

  lemma Snoc2(a: Sextet, b: Sextet, c: Sextet)
    ensures Snoc([a, b], c)
  {
    RegroupShort(a, b, c, 0);
    AbsorbLast([a * 4 + b / 16], b % 16 * 16, c);
    assert [a, b] + [c] == [a, b, c];
  }

  lemma Snoc3(a: Sextet, b: Sextet, d: Sextet, c: Sextet)
    ensures Snoc([a, b, d], c)
  {
    RegroupShort(a, b, d, c);
    AbsorbLast([a * 4 + b / 16, b % 16 * 16 + d / 4], d % 4 * 64, c);
    assert [a, b, d] + [c] == [a, b, d, c];
  }

  /** Appending one sextet does what the decoder's switch does. */
  lemma {:induction false} RegroupSnoc(v: seq<Sextet>, c: Sextet)
    ensures Snoc(v, c)
  {
    if |v| == 0 {
      Snoc1(0, c);
    } else if |v| == 1 {
      Snoc1(v[0], c);
      assert v == [v[0]];
    } else if |v| == 2 {
      Snoc2(v[0], v[1], c);
      assert v == [v[0], v[1]];
    } else if |v| == 3 {
      Snoc3(v[0], v[1], v[2], c);
      assert v == [v[0], v[1], v[2]];
    } else {
      RegroupSnoc(v[4..], c);
      SnocGroup(v[..4], v[4..], c);
      assert v == v[..4] + v[4..];
    }
  }

  lemma SnocGroup(g: seq<Sextet>, t: seq<Sextet>, c: Sextet)
    requires |g| == 4 && Snoc(t, c)
    ensures Snoc(g + t, c)
  {
    assert g + t + [c] == g + (t + [c]);
    RegroupConcat(g, t);
    RegroupConcat(g, t + [c]);
    AppendedPrefix(Regroup(g), Regroup(t), Regroup(t + [c]), |t| % 4, c);
    NextMod4(|t|);
  }

  lemma RegroupConcat(g: seq<Sextet>, t: seq<Sextet>)
    requires |g| == 4
    ensures Regroup(g + t) == Regroup(g) + Regroup(t)
  {
  }

  lemma PrefixFits(v: seq<Sextet>, all: seq<Sextet>)
    requires v <= all
    ensures |Regroup(v)| <= |Regroup(all)|
  {
    RegroupLength(v);
    RegroupLength(all);
  }

  // ---------- Bitwise or ----------

  function Or(a: nat, b: nat): nat {
    if a == 0 && b == 0 then 0
    else 2 * Or(a / 2, b / 2) + (if a % 2 == 1 || b % 2 == 1 then 1 else 0)
  }

  /** x << k */
  function Shl(x: nat, k: nat): nat {
    if k == 0 then x else 2 * Shl(x, k - 1)
  }

  lemma {:induction false} OrWithZero(a: nat)
    ensures Or(a, 0) == a
  {
    if a != 0 {
      OrWithZero(a / 2);
    }
  }

  /** Bits that do not overlap are combined by adding them. */
  lemma {:induction false} OrAdds(x: nat, k: nat, b: nat)
    requires b < Shl(1, k)
    ensures Or(Shl(x, k), b) == Shl(x, k) + b
  {
    if k == 0 {
      OrWithZero(x);
    } else {
      assert b / 2 < Shl(1, k - 1) && Shl(x, k) / 2 == Shl(x, k - 1) && Shl(x, k) % 2 == 0;
      OrAdds(x, k - 1, b / 2);
      assert b == 2 * (b / 2) + b % 2;
    }
  }

  lemma ShlIs(x: nat)
    ensures Shl(x, 2) == x * 4 && Shl(x, 4) == x * 16 && Shl(x, 6) == x * 64
  {
    assert Shl(x, 1) == 2 * x && Shl(x, 2) == 4 * x && Shl(x, 3) == 8 * x;
    assert Shl(x, 4) == 16 * x && Shl(x, 5) == 32 * x;
  }

  lemma OrAtBit(x: nat, b: nat)
    ensures b < 4 ==> Or(x * 4, b) == x * 4 + b
    ensures b < 16 ==> Or(x * 16, b) == x * 16 + b
    ensures b < 64 ==> Or(x * 64, b) == x * 64 + b
  {
    ShlIs(x);
    ShlIs(1);
    if b < 4 { OrAdds(x, 2, b); }
    if b < 16 { OrAdds(x, 4, b); }
    if b < 64 { OrAdds(x, 6, b); }
  }

  /** The bitwise or of two values, the second of which has only bits below those of the first. */
  method OrBits(x: nat, y: nat, ghost m: nat) returns (r: nat)
    requires (m == 4 && x % 4 == 0) || (m == 16 && x % 16 == 0) || (m == 64 && x % 64 == 0)
    requires y < m
    ensures r == x + y
  {
    OrAtBit(if m == 4 then x / 4 else if m == 16 then x / 16 else x / 64, y);
    r := Or(x, y);
  }

  // ---------- The in-place loops ----------

  /** buf[0]<<4 & 0x3f | buf[1]>>4: the low bits of one octet and the high bits of the next. */
  method Straddle4(a: Byte, b: Byte) returns (v: Sextet)
    ensures v == a % 4 * 16 + b / 16
  {
    assert a * 16 % 64 == a % 4 * 16;
    v := OrBits(a * 16 % 64, b / 16, 16);
  }

  /** buf[0]<<2 & 0x3f | buf[1]>>6 */
  method Straddle2(b: Byte, c: Byte) returns (v: Sextet)
    ensures v == b % 16 * 4 + c / 64
  {
    assert b * 4 % 64 == b % 16 * 4;
    v := OrBits(b * 4 % 64, c / 64, 4);
  }

  /** The first n letters of `all`, then the padding the result was filled with. */
  ghost predicate Shows(text: seq<char>, all: seq<Sextet>, n: nat) {
    n <= |all| <= |text| && (forall k :: 0 <= k < n ==> text[k] == Letter(all[k]))
    && (forall k :: n <= k < |text| ==> text[k] == '=')
  }

  /** result[pos++] = b64_alphabet[v] */
  method Put(result: array<char>, pos: nat, v: Sextet, ghost all: seq<Sextet>) returns (next: nat)
    requires Shows(result[..], all, pos) && pos < |all| && v == all[pos]
    modifies result
    ensures next == pos + 1 && Shows(result[..], all, next)
  {
    result[pos] := LookUp(v);
    next := pos + 1;
  }

  lemma SplitStep(s: seq<Byte>, v: seq<Sextet>)
    requires v == Split(s) && s != []
    ensures |v| >= 2 && v[0] == s[0] / 4
    ensures v[1] == s[0] % 4 * 16 + (if |s| == 1 then 0 else s[1] / 16)
    ensures |s| >= 2 ==> |v| >= 3 && v[2] == s[1] % 16 * 4 + (if |s| == 2 then 0 else s[2] / 64)
    ensures |s| >= 3 ==> |v| >= 4 && v[3] == s[2] % 64 && v[4..] == Split(s[3..])
  {
  }

  lemma ShowsAll(text: string, all: seq<Sextet>, n: nat)
    requires Shows(text, all, |all|) && |text| == (n + 2) / 3 * 4 && |all| == (n * 4 + 2) / 3
    ensures text == Letters(all) + Padding(n)
  {
  }

  /** The four letters of a group of three octets. */
  method PutGroup(buf: array<Byte>, first: nat, len: nat, result: array<char>, pos: nat, ghost all: seq<Sextet>)
    returns (resultPos: nat)
    requires first + 3 <= len <= buf.Length
    requires Shows(result[..], all, pos) && all[pos..] == Split(buf[first..len])
    modifies result
    ensures Shows(result[..], all, resultPos) && all[resultPos..] == Split(buf[first + 3..len])
  {
    var bufPos := first;
    ghost var todo := buf[first..len];
    SplitStep(todo, all[pos..]);
    assert todo[3..] == buf[first + 3..len];
    resultPos := Put(result, pos, buf[bufPos] / 4, all);
    var second := Straddle4(buf[bufPos], buf[bufPos + 1]);
    resultPos := Put(result, resultPos, second, all);
    bufPos := bufPos + 1;
    var third := Straddle2(buf[bufPos], buf[bufPos + 1]);
    resultPos := Put(result, resultPos, third, all);
    bufPos := bufPos + 1;
    resultPos := Put(result, resultPos, buf[bufPos] % 64, all);
  }

  /** to_base64: a null buffer gives the empty string. */
  method ToBase64(buf: array?<Byte>, len: nat) returns (s: string)
    requires buf != null ==> len <= buf.Length
    ensures s == if buf == null then "" else Encode(buf[..len])
  {
    if buf == null {
      return "";
    }
    var result := new char[(len + 2) / 3 * 4](_ => '=');
    var rest, bufPos, resultPos := len, 0, 0;
    ghost var all := Split(buf[..len]);
    SplitLength(buf[..len]);
    assert buf[..len] == buf[0..len];
    while rest >= 3
      invariant 0 <= bufPos && 0 <= rest && bufPos + rest == len && 0 <= resultPos
      invariant Shows(result[..], all, resultPos)
      invariant all[resultPos..] == Split(buf[bufPos..len])
    {
      resultPos := PutGroup(buf, bufPos, len, result, resultPos, all);
      bufPos := bufPos + 3;
      rest := rest - 3;
    }
    resultPos := PutRest(buf, bufPos, len, result, resultPos, all);
    s := result[..];
    ShowsAll(s, all, len);
  }

  /** The last one or two octets of to_base64. */
  method PutRest(buf: array<Byte>, first: nat, len: nat, result: array<char>, pos: nat, ghost all: seq<Sextet>)
    returns (resultPos: nat)
    requires first <= len <= buf.Length && len - first < 3
    requires Shows(result[..], all, pos) && all[pos..] == Split(buf[first..len])
    modifies result
    ensures resultPos == |all| && Shows(result[..], all, resultPos)
  {
    var bufPos := first;
    resultPos := pos;
    SplitLength(buf[first..len]);
    if len - first == 2 {
      SplitStep(buf[first..len], all[pos..]);
      resultPos := Put(result, resultPos, buf[bufPos] / 4, all);
      var second := Straddle4(buf[bufPos], buf[bufPos + 1]);
      resultPos := Put(result, resultPos, second, all);
      bufPos := bufPos + 1;
      var third := Straddle2(buf[bufPos], 0);
      resultPos := Put(result, resultPos, third, all);
    } else if len - first == 1 {
      SplitStep(buf[first..len], all[pos..]);
      resultPos := Put(result, resultPos, buf[bufPos] / 4, all);
      var second := Straddle4(buf[bufPos], 0);
      resultPos := Put(result, resultPos, second, all);
    }
  }

  /** The octets written so far, then the one held back in states 1 to 3. */
  function Written(text: seq<Byte>, len: nat, index: nat, data: Byte): seq<int>
    requires len <= |text|
  {
    text[..len] + if index != 0 then [data] else []
  }

  /** The decoder's switch over its four states: one more sextet is absorbed. */
  method Switch(buf: array<Byte>, len: nat, index: nat, data: Byte, code: Sextet)
    returns (len': nat, index': nat, data': Byte)
    requires len <= buf.Length && index < 4 && (index != 0 ==> len < buf.Length && Free(data, index))
    modifies buf
    ensures index' == (if index == 3 then 0 else index + 1) && len <= len' <= buf.Length
    ensures Written(buf[..], len', index', data') == Absorb(old(Written(buf[..], len, index, data)), index, code)
    ensures forall k :: len' <= k < buf.Length ==> buf[k] == old(buf[k])
  {
    ghost var before := buf[..len];
    AbsorbLast(before, data, code);
    len', index' := len, index;
    if index == 0 {
      data' := code * 4;
      index' := 1;
    } else if index == 1 {
      data' := OrBits(data, code / 16, 4);
      len' := Store(buf, len, data');
      data' := code % 16 * 16;
      index' := 2;
    } else if index == 2 {
      data' := OrBits(data, code / 4, 16);
      len' := Store(buf, len, data');
      data' := code % 4 * 64;
      index' := 3;
    } else {
      data' := OrBits(data, code, 64);
      len' := Store(buf, len, data');
      index' := 0;
    }
  }

  /** buf[result_len++] = data */
  method Store(buf: array<Byte>, len: nat, data: Byte) returns (len': nat)
    requires len < buf.Length
    modifies buf
    ensures len' == len + 1 && buf[..len'] == old(buf[..len]) + [data]
    ensures forall k :: len' <= k < buf.Length ==> buf[k] == old(buf[k])
  {
    buf[len] := data;
    len' := len + 1;
  }

  /** The final flush of an octet still held back. */
  method Flush(buf: array<Byte>, len: nat, index: nat, data: Byte) returns (len': nat)
    requires len <= buf.Length && (index != 0 ==> len < buf.Length)
    modifies buf
    ensures len <= len' <= buf.Length && buf[..len'] == old(Written(buf[..], len, index, data))
    ensures forall k :: len' <= k < buf.Length ==> buf[k] == old(buf[k])
  {
    len' := len;
    if index != 0 {
      len' := Store(buf, len, data);
    }
  }

  /** 65 unless the character is in range of the reverse table. */
  method CodeOf(c: char) returns (code: nat)
    ensures code == Value(c) && (code < 64 || code == INVALID)
  {
    code := 65;
    if '+' <= c <= 'z' {
      code := ReverseLookUp(c);
    }
  }

  lemma SextetsAt(s: string, i: nat)
    requires i < |s|
    ensures Sextets(s[i..]) == if IsSpace(s[i]) then Sextets(s[i + 1..])
      else if Value(s[i]) == INVALID then [] else [Value(s[i])] + Sextets(s[i + 1..])
  {
    assert s[i..][1..] == s[i + 1..];
  }

  /** What the sextets read so far say about the decoder's state, before and after one more. */
  lemma NextState(v: seq<Sextet>, code: Sextet, text: seq<Byte>, len: nat, index: nat, data: Byte)
    requires index == |v| % 4 && len <= |text| && Regroup(v) == Written(text, len, index, data)
    requires |Regroup(v)| <= |text|
    ensures index != 0 ==> len < |text| && Free(data, index)
    ensures Regroup(v + [code]) == Absorb(Written(text, len, index, data), index, code)
    ensures |v + [code]| % 4 == if index == 3 then 0 else index + 1
  {
    RegroupSnoc(v, code);
    NextMod4(|v|);
  }

  lemma NextMod4(n: nat)
    ensures (n + 1) % 4 == if n % 4 == 3 then 0 else n % 4 + 1
    ensures (n + 4) % 4 == n % 4
  {
  }

  /** The sextets v were read from the first i characters and are in the buffer and the state. */
  ghost predicate DecoderAt(
    encoded: string, i: nat, v: seq<Sextet>, text: seq<Byte>, len: nat, index: nat, data: Byte)
  {
    && i <= |encoded| && Sextets(encoded) == v + Sextets(encoded[i..]) && |Decode(encoded)| <= |text|
    && index == |v| % 4 && len <= |text| && Regroup(v) == Written(text, len, index, data)
  }

  lemma StartHere(encoded: string, text: seq<Byte>, data: Byte)
    requires |Decode(encoded)| <= |text|
    ensures DecoderAt(encoded, 0, [], text, 0, 0, data)
  {
    assert encoded[0..] == encoded && [] + Sextets(encoded) == Sextets(encoded);
  }

  lemma SkipSpace(encoded: string, i: nat, v: seq<Sextet>, text: seq<Byte>, len: nat, index: nat, data: Byte)
    requires DecoderAt(encoded, i, v, text, len, index, data) && i < |encoded| && IsSpace(encoded[i])
    ensures DecoderAt(encoded, i + 1, v, text, len, index, data)
  {
    SextetsAt(encoded, i);
  }

  lemma StopHere(encoded: string, i: nat, v: seq<Sextet>, text: seq<Byte>, len: nat, index: nat, data: Byte)
    requires DecoderAt(encoded, i, v, text, len, index, data)
    requires i < |encoded| ==> !IsSpace(encoded[i]) && Value(encoded[i]) == INVALID
    ensures Decode(encoded) == Written(text, len, index, data)
  {
    if i < |encoded| {
      SextetsAt(encoded, i);
    }
    assert v + [] == v;
  }

  /** A letter of the alphabet is read. */
  method TakeLetter(
    encoded: string, i: nat, buf: array<Byte>, len: nat, index: nat, data: Byte, code: Sextet, ghost v: seq<Sextet>)
    returns (len': nat, index': nat, data': Byte)
    requires DecoderAt(encoded, i, v, buf[..], len, index, data)
    requires i < |encoded| && !IsSpace(encoded[i]) && Value(encoded[i]) == code
    modifies buf
    ensures len <= len' && DecoderAt(encoded, i + 1, v + [code], buf[..], len', index', data')
    ensures forall k :: len' <= k < buf.Length ==> buf[k] == old(buf[k])
  {
    SextetsAt(encoded, i);
    PrefixFits(v, Sextets(encoded));
    assert v + ([code] + Sextets(encoded[i + 1..])) == v + [code] + Sextets(encoded[i + 1..]);
    NextState(v, code, buf[..], len, index, data);
    len', index', data' := Switch(buf, len, index, data, code);
  }

  /** from_base64 into a caller's buffer: writes exactly the decoded octets and nothing else. */
  method FromBase64Into(encoded: string, buf: array<Byte>) returns (resultLen: nat)
    requires |Decode(encoded)| <= buf.Length
    modifies buf
    ensures resultLen == |Decode(encoded)| <= buf.Length
    ensures buf[..resultLen] == Decode(encoded)
    ensures forall k :: resultLen <= k < buf.Length ==> buf[k] == old(buf[k])
  {
    resultLen := 0;
    var data: Byte := 0;
    var index := 0;
    ghost var v: seq<Sextet> := [];
    var i := 0;
    StartHere(encoded, buf[..], data);
    while i < |encoded|
      invariant DecoderAt(encoded, i, v, buf[..], resultLen, index, data)
      invariant forall k :: resultLen <= k < buf.Length ==> buf[k] == old(buf[k])
    {
      var c := encoded[i];
      if IsSpace(c) {
        SkipSpace(encoded, i, v, buf[..], resultLen, index, data);
        i := i + 1;
        continue;
      }
      var code := CodeOf(c);
      if code == 65 {
        break;
      }
      resultLen, index, data := TakeLetter(encoded, i, buf, resultLen, index, data, code, v);
      v := v + [code];
      i := i + 1;
    }
    resultLen := Finish(encoded, i, v, buf, resultLen, index, data);
  }

  /** The input is over, or goes on with something else. */
  method Finish(
    ghost encoded: string, ghost i: nat, ghost v: seq<Sextet>, buf: array<Byte>, len: nat, index: nat, data: Byte)
    returns (resultLen: nat)
    requires DecoderAt(encoded, i, v, buf[..], len, index, data)
    requires i < |encoded| ==> !IsSpace(encoded[i]) && Value(encoded[i]) == INVALID
    modifies buf
    ensures len <= resultLen == |Decode(encoded)| <= buf.Length && buf[..resultLen] == Decode(encoded)
    ensures forall k :: resultLen <= k < buf.Length ==> buf[k] == old(buf[k])
  {
    StopHere(encoded, i, v, buf[..], len, index, data);
    resultLen := Flush(buf, len, index, data);
  }

  /** from_base64 with its own buffer of 3*ceil(len/4) octets, cut to what was written. */
  method FromBase64(encoded: string) returns (result: seq<Byte>)
    ensures result == Decode(encoded)
  {
    DecodeBound(encoded);
    var buf := new Byte[(|encoded| + 3) / 4 * 3](_ => 0);
    var actualLen := FromBase64Into(encoded, buf);
    result := buf[..actualLen];
  }
}
