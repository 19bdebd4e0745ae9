/** The two look-up tables of src/uxmpp/utils.cpp, row by row, and what they contain. */
module Base64Tables {

  type Sextet = n: nat | n < 64

  const ALPHABET_0: string := "ABCDEFGHIJKLMNOP"
  const ALPHABET_1: string := "QRSTUVWXYZabcdef"
  const ALPHABET_2: string := "ghijklmnopqrstuv"
  const ALPHABET_3: string := "wxyz0123456789+/"
  const ALPHABET: string := ALPHABET_0 + ALPHABET_1 + ALPHABET_2 + ALPHABET_3

  const INVALID: nat := 65
  const REVERSE_0: seq<nat> := [62, 65, 65, 65, 63, 52, 53, 54, 55, 56, 57, 58, 59, 60, 61, 65]
  const REVERSE_1: seq<nat> := [65, 65, 65, 65, 65, 65,  0,  1,  2,  3,  4,  5,  6,  7,  8,  9]
  const REVERSE_2: seq<nat> := [10, 11, 12, 13, 14, 15, 16, 17, 18, 19, 20, 21, 22, 23, 24, 25]
  const REVERSE_3: seq<nat> := [65, 65, 65, 65, 65, 65, 26, 27, 28, 29, 30, 31, 32, 33, 34, 35]
  const REVERSE_4: seq<nat> := [36, 37, 38, 39, 40, 41, 42, 43, 44, 45, 46, 47, 48, 49, 50, 51]
  const REVERSE: seq<nat> := REVERSE_0 + REVERSE_1 + REVERSE_2 + REVERSE_3 + REVERSE_4

  /** The value of a character in table 1 of RFC 4648, or INVALID. */
  function Value(c: char): nat {
    if 'A' <= c <= 'Z' then c as int - 'A' as int
    else if 'a' <= c <= 'z' then c as int - 'a' as int + 26
    else if '0' <= c <= '9' then c as int - '0' as int + 52
    else if c == '+' then 62
    else if c == '/' then 63
    else INVALID
  }

  /** The character with a given value in table 1 of RFC 4648. */
  function Letter(i: Sextet): char {
    if i < 26 then ('A' as int + i) as char
    else if i < 52 then ('a' as int + i - 26) as char
    else if i < 62 then ('0' as int + i - 52) as char
    else if i == 62 then '+'
    else '/'
  }

  lemma ValueOfLetter(i: Sextet)
    ensures Value(Letter(i)) == i && Letter(i) > ' '
  {
  }

  predicate SixteenCases(i: nat) {
    i == 0 || i == 1 || i == 2 || i == 3 || i == 4 || i == 5 || i == 6 || i == 7
    || i == 8 || i == 9 || i == 10 || i == 11 || i == 12 || i == 13 || i == 14 || i == 15
  }

  lemma AlphabetRows(i: nat)
    requires i < 16
    ensures |ALPHABET_0| == |ALPHABET_1| == |ALPHABET_2| == |ALPHABET_3| == 16
    ensures ALPHABET_0[i] == Letter(i) && ALPHABET_1[i] == Letter(i + 16)
    ensures ALPHABET_2[i] == Letter(i + 32) && ALPHABET_3[i] == Letter(i + 48)
  {
    assert SixteenCases(i);
  }

  function CodeAt(k: nat): nat
    requires k < 80
  {
    Value(('+' as int + k) as char)
  }

  lemma ReverseRows(i: nat)
    requires i < 16
    ensures |REVERSE_0| == |REVERSE_1| == |REVERSE_2| == |REVERSE_3| == |REVERSE_4| == 16
    ensures REVERSE_0[i] == CodeAt(i) && REVERSE_1[i] == CodeAt(i + 16)
    ensures REVERSE_2[i] == CodeAt(i + 32) && REVERSE_3[i] == CodeAt(i + 48)
    ensures REVERSE_4[i] == CodeAt(i + 64)
  {
    assert SixteenCases(i);
  }

  lemma RowIndex<T>(rows: seq<seq<T>>, k: nat)
    requires |rows| == 5 && forall r :: 0 <= r < 5 ==> |rows[r]| == 16 || (r == 4 && |rows[r]| == 0)
    requires k < 64 + |rows[4]|
    ensures (rows[0] + rows[1] + rows[2] + rows[3] + rows[4])[k] == rows[k / 16][k % 16]
  {
  }

  /** A look-up in the alphabet. */
  function LookUp(i: Sextet): (c: char)
    ensures c == Letter(i)
  {
    AlphabetRows(i % 16);
    RowIndex([ALPHABET_0, ALPHABET_1, ALPHABET_2, ALPHABET_3, ""], i);
    ALPHABET[i]
  }

  /** A look-up in the reverse table: the index is in range and the code is the letter's value. */
  function ReverseLookUp(c: char): (code: nat)
    requires '+' <= c <= 'z'
    ensures code == Value(c)
  {
    var k := c as int - '+' as int;
    ReverseRows(k % 16);
    RowIndex([REVERSE_0, REVERSE_1, REVERSE_2, REVERSE_3, REVERSE_4], k);
    REVERSE[k]
  }
}
