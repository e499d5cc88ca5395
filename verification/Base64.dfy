/** Base64 as in section 4 of RFC 4648, and the lenient decoder of Buffer.from(text, 'base64'). */
module Base64 {
  import opened Wrappers

  type Byte = b: int | 0 <= b < 256
  type Bytes = seq<Byte>
  type Sextet = v: int | 0 <= v < 64

  /** The alphabet of table 1. */
  function Letter(v: Sextet): char {
    if v < 26 then ('A' as int + v) as char
    else if v < 52 then ('a' as int + v - 26) as char
    else if v < 62 then ('0' as int + v - 52) as char
    else if v == 62 then '+' else '/'
  }

  /** The decoder also knows the two letters of the URL-safe alphabet. */
  function Value(c: char): Option<Sextet> {
    if 'A' <= c <= 'Z' then Some(c as int - 'A' as int)
    else if 'a' <= c <= 'z' then Some(c as int - 'a' as int + 26)
    else if '0' <= c <= '9' then Some(c as int - '0' as int + 52)
    else if c == '+' || c == '-' then Some(62)
    else if c == '/' || c == '_' then Some(63)
    else None
  }

  /** What may occur in encoded text: letters of the alphabet and padding. */
  predicate Clean(c: char) {
    c == '=' || (Value(c).Some? && c != '-' && c != '_')
  }

  // The four groups of six bits in three bytes.

  function First(x: Byte): Sextet { x / 4 }

  function Second(x: Byte, y: Byte): Sextet { x % 4 * 16 + y / 16 }

  function Third(y: Byte, z: Byte): Sextet { y % 16 * 4 + z / 64 }

  function Fourth(z: Byte): Sextet { z % 64 }

  function Encode(b: Bytes): string {
    if |b| == 0 then ""
    else if |b| == 1 then [Letter(First(b[0])), Letter(Second(b[0], 0)), '=', '=']
    else if |b| == 2 then [Letter(First(b[0])), Letter(Second(b[0], b[1])), Letter(Third(b[1], 0)), '=']
    else Group(b[0], b[1], b[2]) + Encode(b[3..])
  }

  function Group(x: Byte, y: Byte, z: Byte): string {
    [Letter(First(x)), Letter(Second(x, y)), Letter(Third(y, z)), Letter(Fourth(z))]
  }

  /** The letters up to the first padding character; anything else is skipped. */
  function Sextets(s: string): seq<Sextet> {
    if s == "" || s[0] == '=' then []
    else if Value(s[0]).Some? then [Value(s[0]).value] + Sextets(s[1..])
    else Sextets(s[1..])
  }

  // The three bytes in four groups of six bits.

  function High(a: int, b: int): Byte
    requires 0 <= a < 64 && 0 <= b < 64
  {
    a * 4 + b / 16
  }

  function Middle(b: int, c: int): Byte
    requires 0 <= b < 64 && 0 <= c < 64
  {
    b % 16 * 16 + c / 4
  }

  function Low(c: int, d: int): Byte
    requires 0 <= c < 64 && 0 <= d < 64
  {
    c % 4 * 64 + d
  }

  /** Four letters make three bytes; a last group of two or three makes one or two. */
  function Join(v: seq<Sextet>): Bytes {
    if |v| < 2 then []
    else if |v| == 2 then [High(v[0], v[1])]
    else if |v| == 3 then [High(v[0], v[1]), Middle(v[1], v[2])]
    else [High(v[0], v[1]), Middle(v[1], v[2]), Low(v[2], v[3])] + Join(v[4..])
  }

  function Decode(s: string): Bytes {
    Join(Sextets(s))
  }

  // ----- round trip -----

  lemma LetterValue(v: Sextet)
    ensures Value(Letter(v)) == Some(v) && Letter(v) != '='
  {
  }

  lemma SextetsStep(v: Sextet, rest: string)
    ensures Sextets([Letter(v)] + rest) == [v] + Sextets(rest)
  {
    LetterValue(v);
    assert ([Letter(v)] + rest)[1..] == rest;
  }

  lemma SextetsOfGroup(x: Byte, y: Byte, z: Byte, rest: string)
    ensures Sextets(Group(x, y, z) + rest) == [First(x), Second(x, y), Third(y, z), Fourth(z)] + Sextets(rest)
  {
    hide Letter, First, Second, Third, Fourth, Sextets;
    var d := [Letter(Fourth(z))] + rest;
    var c := [Letter(Third(y, z))] + d;
    var b := [Letter(Second(x, y))] + c;
    SextetsStep(Fourth(z), rest);
    SextetsStep(Third(y, z), d);
    SextetsStep(Second(x, y), c);
    SextetsStep(First(x), b);
    assert Group(x, y, z) + rest == [Letter(First(x))] + b;
  }

  lemma BytesBack(x: Byte, y: Byte, z: Byte)
    ensures High(First(x), Second(x, y)) == x && Middle(Second(x, y), Third(y, z)) == y
              && Low(Third(y, z), Fourth(z)) == z
  {
  }

  lemma SextetsOfTwo(p: Sextet, q: Sextet)
    ensures Sextets([Letter(p), Letter(q), '=', '=']) == [p, q]
  {
    hide Letter;
    SextetsStep(q, "==");
    SextetsStep(p, [Letter(q)] + "==");
    assert [Letter(p), Letter(q), '=', '='] == [Letter(p)] + ([Letter(q)] + "==");
    assert Sextets("==") == [];
  }

  lemma SextetsOfThree(p: Sextet, q: Sextet, r: Sextet)
    ensures Sextets([Letter(p), Letter(q), Letter(r), '=']) == [p, q, r]
  {
    hide Letter;
    var c := [Letter(r)] + "=";
    SextetsStep(r, "=");
    SextetsStep(q, c);
    SextetsStep(p, [Letter(q)] + c);
    assert [Letter(p), Letter(q), Letter(r), '='] == [Letter(p)] + ([Letter(q)] + c);
    assert Sextets("=") == [];
  }

  lemma ShortRoundTrip(b: Bytes)
    requires 1 <= |b| <= 2
    ensures Decode(Encode(b)) == b
  {
    hide Letter, First, Second, Third, Sextets, High, Middle;
    if |b| == 1 {
      BytesBack(b[0], 0, 0);
      SextetsOfTwo(First(b[0]), Second(b[0], 0));
    } else {
      BytesBack(b[0], b[1], 0);
      SextetsOfThree(First(b[0]), Second(b[0], b[1]), Third(b[1], 0));
    }
  }

  /** Decoding gives back every byte string. */
  lemma {:induction false} RoundTrip(b: Bytes)
    ensures Decode(Encode(b)) == b
    decreases |b|
  {
    hide Group, First, Second, Third, Fourth, High, Middle, Low;
    if 1 <= |b| <= 2 {
      ShortRoundTrip(b);
    } else if |b| > 2 {
      RoundTrip(b[3..]);
      BytesBack(b[0], b[1], b[2]);
      SextetsOfGroup(b[0], b[1], b[2], Encode(b[3..]));
      var head := [First(b[0]), Second(b[0], b[1]), Third(b[1], b[2]), Fourth(b[2])];
      assert (head + Sextets(Encode(b[3..])))[4..] == Sextets(Encode(b[3..]));
    }
  }

  predicate AllClean(s: string) {
    forall i | 0 <= i < |s| :: Clean(s[i])
  }

  lemma GroupClean(x: Byte, y: Byte, z: Byte)
    ensures AllClean(Group(x, y, z))
  {
  }

  /** Encoded text holds letters and padding only, four for every started group of three bytes. */
  lemma {:induction false} EncodedText(b: Bytes)
    ensures AllClean(Encode(b)) && |Encode(b)| == (|b| + 2) / 3 * 4
    decreases |b|
  {
    hide Letter, Clean, First, Second, Third, Fourth;
    if |b| == 1 {
      GroupClean(b[0], 0, 0);
      assert Clean('=') by { Padding(); }
      assert Encode(b) == Group(b[0], 0, 0)[..2] + "==";
    } else if |b| == 2 {
      GroupClean(b[0], b[1], 0);
      assert Clean('=') by { Padding(); }
      assert Encode(b) == Group(b[0], b[1], 0)[..3] + "=";
    } else if |b| > 2 {
      EncodedText(b[3..]);
      GroupClean(b[0], b[1], b[2]);
    }
  }

  lemma Padding()
    ensures Clean('=')
  {
  }

  lemma CleanIsHarmless(c: char)
    requires Clean(c)
    ensures c != '.' && c != '"' && c != '\\' && c as int < 128
  {
  }

  /** The test vectors of section 10 of RFC 4648: f, fo, foo, foob, fooba, foobar. */
  lemma Vectors()
    ensures Encode([]) == "" && Encode([102]) == "Zg==" && Encode([102, 111]) == "Zm8="
    ensures Encode([102, 111, 111]) == "Zm9v" && Encode([102, 111, 111, 98]) == "Zm9vYg=="
    ensures Encode([102, 111, 111, 98, 97]) == "Zm9vYmE=" && Encode([102, 111, 111, 98, 97, 114]) == "Zm9vYmFy"
  {
    assert [102, 111, 111][3..] == [] && [102, 111, 111, 98][3..] == [98] && [102, 111, 111, 98, 97][3..] == [98, 97];
    assert [102, 111, 111, 98, 97, 114][3..] == [98, 97, 114] && [98, 97, 114][3..] == [];
    assert Encode([98, 97, 114]) == "YmFy" && Encode([98, 97]) == "YmE=" && Encode([98]) == "Yg==";
  }

  /** Table 1 of RFC 4648, in ASCII codes: A to Z from 65, a to z from 97, 0 to 9 from 48, + and /. */
  predicate InTable(c: char, v: int) {
    && 0 <= v < 64
    && c as int == if v < 26 then 65 + v else if v < 52 then 97 + v - 26 else if v < 62 then 48 + v - 52
                   else if v == 62 then 43 else 47
  }

  lemma LetterInTable(v: Sextet)
    ensures InTable(Letter(v), v)
  {
  }

  function Number24(x: int, y: int, z: int): int {
    (x * 256 + y) * 256 + z
  }

  /** Four letters of the table stand for three bytes when both spell the same number of 24 bits. */
  predicate Spells(s: string, v: seq<int>, b: Bytes) {
    && |s| == 4 && |v| == 4 && |b| == 3 && (forall i | 0 <= i < 4 :: InTable(s[i], v[i]))
    && ((v[0] * 64 + v[1]) * 64 + v[2]) * 64 + v[3] == Number24(b[0], b[1], b[2])
  }

  ghost predicate Spelled(s: string, b: Bytes) {
    exists v :: Spells(s, v, b)
  }

  /** Three bytes are one number of 24 bits, in digits to the base 256 and in letters to the base 64. */
  lemma GroupSpells(x: Byte, y: Byte, z: Byte)
    ensures Spelled(Group(x, y, z), [x, y, z])
  {
    LetterInTable(First(x));
    LetterInTable(Second(x, y));
    LetterInTable(Third(y, z));
    LetterInTable(Fourth(z));
    hide Letter, InTable;
    assert x == x / 4 * 4 + x % 4 && y == y / 16 * 16 + y % 16 && z == z / 64 * 64 + z % 64;
    assert Spells(Group(x, y, z), [First(x), Second(x, y), Third(y, z), Fourth(z)], [x, y, z]);
  }

  /** The k-th four letters of the text spell the k-th three bytes. */
  lemma {:induction false} EncodeSpells(b: Bytes, k: nat)
    requires 3 * k + 3 <= |b|
    ensures 4 * k + 4 <= |Encode(b)| && Spelled(Encode(b)[4 * k..4 * k + 4], b[3 * k..3 * k + 3])
    decreases k
  {
    hide Letter, First, Second, Third, Fourth, Spelled;
    GroupSpells(b[0], b[1], b[2]);
    if k == 0 {
      assert Encode(b)[..4] == Group(b[0], b[1], b[2]) && b[..3] == [b[0], b[1], b[2]];
    } else {
      EncodeSpells(b[3..], k - 1);
      assert Encode(b)[4 * k..4 * k + 4] == Encode(b[3..])[4 * (k - 1)..4 * (k - 1) + 4];
      assert b[3..][3 * (k - 1)..3 * (k - 1) + 3] == b[3 * k..3 * k + 3];
    }
  }

  /** The decoder reads the letters of the table, and - and _ of the URL-safe one. */
  lemma ValuesOfLetters(c: char, v: Sextet)
    ensures Value(c) == Some(v) <==> InTable(c, v) || (c == '-' && v == 62) || (c == '_' && v == 63)
  {
  }

  /** The decoder steps over characters that are neither letters nor padding, and reads nothing from the
      first padding character on. */
  lemma {:induction false} StrangersSkipped(s: string, c: char, t: string)
    requires Value(c).None?
    ensures c != '=' ==> Decode(s + [c] + t) == Decode(s + t)
    ensures c == '=' ==> Decode(s + [c] + t) == Decode(s)
  {
    SextetsSkip(s, c, t);
  }

  lemma {:induction false} SextetsSkip(s: string, c: char, t: string)
    requires Value(c).None?
    ensures Sextets(s + [c] + t) == if c == '=' then Sextets(s) else Sextets(s + t)
    decreases |s|
  {
    var u := s + [c] + t;
    if s == "" {
      assert u[0] == c && u[1..] == t && s + t == t;
    } else {
      SextetsSkip(s[1..], c, t);
      assert u[0] == s[0] && u[1..] == s[1..] + [c] + t && (s + t)[0] == s[0] && (s + t)[1..] == s[1..] + t;
    }
  }
}
