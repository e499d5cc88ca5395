/** The host test for tenant-supplied webhook URLs: prefixes and patterns on the text of a host,
    compared with ranges of 32-bit addresses. */
module HostSafety {
  import opened Wrappers
  import opened Text

  // ----- normalizeHost -----

  predicate Bracketed(s: string) {
    |s| >= 2 && s[0] == '[' && s[|s| - 1] == ']'
  }

  function IndexOf(s: string, c: char): (i: int)
    ensures -1 <= i < |s|
    ensures i >= 0 ==> s[i] == c
    ensures forall k | 0 <= k < (if i < 0 then |s| else i) :: s[k] != c
  {
    if s == "" then -1
    else if s[0] == c then 0
    else
      var j := IndexOf(s[1..], c);
      assert forall k | 1 <= k < |s| :: s[k] == s[1..][k - 1];
      if j < 0 then -1 else j + 1
  }

  function WithoutZone(s: string): string {
    var zone := IndexOf(s, '%');
    if zone == -1 then s else s[..zone]
  }

  function Normalized(host: string): string {
    var h := Lower(TrimRight(TrimLeft(host)));
    WithoutZone(if Bracketed(h) then h[1..|h| - 1] else h)
  }

  /** No zone id and no capital letter is left. */
  method NormalizeHost(host: string) returns (h: string)
    ensures h == Normalized(host)
    ensures forall i | 0 <= i < |h| :: h[i] != '%' && !('A' <= h[i] <= 'Z')
  {
    h := Lower(TrimRight(TrimLeft(host)));
    if Bracketed(h) {
      h := h[1..|h| - 1];
    }
    var zone := IndexOf(h, '%');
    if zone != -1 {
      h := h[..zone];
    }
  }

  // ----- isPrivateHost -----

  predicate Digit(c: char) {
    '0' <= c <= '9'
  }

  function Number(s: string): int {
    if s == "" then 0 else Number(s[..|s| - 1]) * 10 + (s[|s| - 1] as int - '0' as int)
  }

  /** How many digits s begins with. */
  function DigitRun(s: string): (n: nat)
    ensures n <= |s|
  {
    if s != "" && Digit(s[0]) then 1 + DigitRun(s[1..]) else 0
  }

  /** The group of /^172\\.(\\d{1,3})\\./ */
  function SecondOctet(h: string): Option<int> {
    if !("172." <= h) then None
    else
      var n := DigitRun(h[4..]);
      if 1 <= n <= 3 && 4 + n < |h| && h[4 + n] == '.' then Some(Number(h[4..4 + n])) else None
  }

  predicate PrivateName(h: string) {
    || h == "" || h == "localhost" || h == "0.0.0.0"
    || "127." <= h || "10." <= h || "192.168." <= h || "169.254." <= h
    || (SecondOctet(h).Some? && 16 <= SecondOctet(h).value <= 31)
    || h == "::1" || h == "::" || "fc" <= h || "fd" <= h || "fe80" <= h
  }

  predicate IsPrivateHost(host: string) {
    PrivateName(Normalized(host))
  }

  // ----- dotted quads -----

  type Octet = n: int | 0 <= n < 256

  function DigitChar(d: int): char
    requires 0 <= d < 10
  {
    ('0' as int + d) as char
  }

  /** An octet in decimal, without leading zeros. */
  function Decimal(n: Octet): string {
    if n < 10 then [DigitChar(n)]
    else if n < 100 then [DigitChar(n / 10), DigitChar(n % 10)]
    else [DigitChar(n / 100), DigitChar(n / 10 % 10), DigitChar(n % 10)]
  }

  function Quad(a: Octet, b: Octet, c: Octet, d: Octet): string {
    Decimal(a) + "." + (Decimal(b) + "." + (Decimal(c) + "." + Decimal(d)))
  }

  function Address(a: Octet, b: Octet, c: Octet, d: Octet): int {
    ((a * 256 + b) * 256 + c) * 256 + d
  }

  /** addr lies in the block of 2^(32 - bits) addresses that starts at a.b.c.d. */
  predicate InBlock(addr: int, start: int, size: int) {
    start <= addr < start + size
  }

  /** The three blocks of section 3 of RFC 1918, loopback, link-local and the unspecified address. */
  predicate PrivateAddress(addr: int) {
    || InBlock(addr, Address(10, 0, 0, 0), 0x100_0000)
    || InBlock(addr, Address(172, 16, 0, 0), 0x10_0000)
    || InBlock(addr, Address(192, 168, 0, 0), 0x1_0000)
    || InBlock(addr, Address(127, 0, 0, 0), 0x100_0000)
    || InBlock(addr, Address(169, 254, 0, 0), 0x1_0000)
    || addr == 0
  }

  predicate Numeric(c: char) {
    Digit(c) || c == '.'
  }

  predicate AllNumeric(s: string) {
    forall i | 0 <= i < |s| :: Numeric(s[i])
  }

  lemma DecimalText(n: Octet)
    ensures 1 <= |Decimal(n)| <= 3 && forall i | 0 <= i < |Decimal(n)| :: Digit(Decimal(n)[i])
  {
  }

  lemma NumberOfDecimal(n: Octet)
    ensures Number(Decimal(n)) == n
  {
    var s := Decimal(n);
    if n < 10 {
      assert s[..0] == "";
    } else if n < 100 {
      assert s[..1] == [s[0]] && s[..1][..0] == "";
      assert Number(s[..1]) == n / 10;
    } else {
      assert s[..2] == [s[0], s[1]] && s[..2][..1] == [s[0]] && s[..2][..1][..0] == "";
      assert Number(s[..2][..1]) == n / 100;
      assert Number(s[..2]) == n / 10;
    }
  }

  lemma DecimalInjective(m: Octet, n: Octet)
    requires Decimal(m) == Decimal(n)
    ensures m == n
  {
    NumberOfDecimal(m);
    NumberOfDecimal(n);
    hide Decimal, Number;
  }

  /** A text that starts with an octet and a dot determines the octet and what follows. */
  lemma OctetFirst(m: Octet, s: string, n: Octet, t: string)
    ensures Decimal(m) + "." + s <= Decimal(n) + "." + t <==> m == n && s <= t
  {
    DecimalText(m);
    DecimalText(n);
    var x, y := Decimal(m) + "." + s, Decimal(n) + "." + t;
    if x <= y {
      SameDot(Decimal(m), s, Decimal(n), t);
      DecimalInjective(m, n);
      assert s == x[|Decimal(m)| + 1..] && t == y[|Decimal(n)| + 1..];
    }
    if m == n && s <= t {
      assert t == s + t[|s|..];
      assert y == x + t[|s|..];
    }
  }

  /** In two texts that agree the first dots are in the same place. */
  lemma SameDot(x: string, s: string, y: string, t: string)
    requires x + "." + s <= y + "." + t
    requires (forall i | 0 <= i < |x| :: Digit(x[i])) && (forall i | 0 <= i < |y| :: Digit(y[i]))
    ensures x == y
  {
    var a, b := x + "." + s, y + "." + t;
    assert forall i | 0 <= i < |x| :: a[i] == x[i] && Digit(a[i]);
    assert forall i | 0 <= i < |y| :: b[i] == y[i] && Digit(b[i]);
    assert b[|x|] == a[|x|] == '.';
    assert |y| <= |x|;
    assert a[|y|] == b[|y|] == '.';
    assert x == a[..|x|] && y == b[..|y|];
  }

  lemma QuadNumeric(a: Octet, b: Octet, c: Octet, d: Octet)
    ensures AllNumeric(Quad(a, b, c, d)) && |Quad(a, b, c, d)| >= 7 && Digit(Quad(a, b, c, d)[0])
  {
    hide Decimal;
    DecimalText(a); DecimalText(b); DecimalText(c); DecimalText(d);
  }

  /** Normalisation leaves an address alone. */
  lemma NumericIsNormal(h: string)
    requires AllNumeric(h)
    ensures Normalized(h) == h
  {
  }

  lemma {:induction false} RunOfDigits(x: string, rest: string)
    requires forall i | 0 <= i < |x| :: Digit(x[i])
    ensures DigitRun(x + "." + rest) == |x|
  {
    var s := x + "." + rest;
    if x == "" {
      assert s[0] == '.';
    } else {
      RunOfDigits(x[1..], rest);
      assert s[0] == x[0] && s[1..] == x[1..] + "." + rest;
    }
  }

  lemma SecondOctetOfQuad(a: Octet, b: Octet, rest: string)
    ensures SecondOctet(Decimal(a) + "." + (Decimal(b) + "." + rest)) == if a == 172 then Some(b) else None
  {
    var h := Decimal(a) + "." + (Decimal(b) + "." + rest);
    OctetFirst(172, "", a, Decimal(b) + "." + rest);
    assert Decimal(172) + "." + "" == "172.";
    if a == 172 {
      DecimalText(b);
      assert h[4..] == Decimal(b) + "." + rest;
      RunOfDigits(Decimal(b), rest);
      assert h[4..4 + |Decimal(b)|] == Decimal(b);
      NumberOfDecimal(b);
    }
  }

  /** For every canonical dotted quad the test on the text is the test on the number. */
  lemma QuadsByRange(a: Octet, b: Octet, c: Octet, d: Octet)
    ensures IsPrivateHost(Quad(a, b, c, d)) <==> PrivateAddress(Address(a, b, c, d))
  {
    var h, rest := Quad(a, b, c, d), Decimal(c) + "." + Decimal(d);
    QuadNumeric(a, b, c, d);
    NumericIsNormal(h);
    OnlyByNumber(h);
    OneOctet(127, a, Decimal(b) + "." + rest);
    OneOctet(10, a, Decimal(b) + "." + rest);
    TwoOctets(192, 168, a, b, rest);
    TwoOctets(169, 254, a, b, rest);
    SecondOctetOfQuad(a, b, rest);
    Unspecified(a, b, c, d);
    Prefixes();
    hide Decimal, PrivateName, SecondOctet;
    Ranges(a, b, c, d);
  }

  lemma Prefixes()
    ensures Decimal(127) + "." == "127." && Decimal(10) + "." == "10."
    ensures Decimal(192) + "." + (Decimal(168) + ".") == "192.168."
    ensures Decimal(169) + "." + (Decimal(254) + ".") == "169.254."
  {
  }

  /** Only the numeric patterns can match a text of digits and dots. */
  lemma OnlyByNumber(h: string)
    requires AllNumeric(h) && h != ""
    ensures PrivateName(h) <==> (h == "0.0.0.0" || "127." <= h || "10." <= h || "192.168." <= h || "169.254." <= h
                                 || (SecondOctet(h).Some? && 16 <= SecondOctet(h).value <= 31))
  {
    assert Numeric(h[0]);
  }

  lemma OneOctet(m: Octet, n: Octet, rest: string)
    ensures Decimal(m) + "." <= Decimal(n) + "." + rest <==> m == n
  {
    OctetFirst(m, "", n, rest);
    assert Decimal(m) + "." + "" == Decimal(m) + ".";
  }

  lemma TwoOctets(x: Octet, y: Octet, a: Octet, b: Octet, rest: string)
    ensures Decimal(x) + "." + (Decimal(y) + ".") <= Decimal(a) + "." + (Decimal(b) + "." + rest) <==> x == a && y == b
  {
    OctetFirst(x, Decimal(y) + ".", a, Decimal(b) + "." + rest);
    OneOctet(y, b, rest);
  }

  lemma Unspecified(a: Octet, b: Octet, c: Octet, d: Octet)
    ensures Quad(a, b, c, d) == "0.0.0.0" <==> a == 0 && b == 0 && c == 0 && d == 0
  {
    if Quad(a, b, c, d) == "0.0.0.0" {
      var zero := Decimal(0) + "." + (Decimal(0) + "." + (Decimal(0) + "." + Decimal(0)));
      assert zero == "0.0.0.0";
      OctetFirst(0, Decimal(0) + "." + (Decimal(0) + "." + Decimal(0)), a,
          Decimal(b) + "." + (Decimal(c) + "." + Decimal(d)));
      OctetFirst(0, Decimal(0) + "." + Decimal(0), b, Decimal(c) + "." + Decimal(d));
      OctetFirst(0, Decimal(0), c, Decimal(d));
      assert Decimal(d) == Quad(a, b, c, d)[6..];
      DecimalInjective(d, 0);
    }
  }

  lemma Ranges(a: Octet, b: Octet, c: Octet, d: Octet)
    ensures PrivateAddress(Address(a, b, c, d)) <==>
              a == 127 || a == 10 || (a == 192 && b == 168) || (a == 169 && b == 254) || (a == 172 && 16 <= b <= 31)
              || (a == 0 && b == 0 && c == 0 && d == 0)
  {
  }

  // ----- hosts in disguise -----

  /** Nothing, or a percent sign and anything at all. */
  predicate Zone(s: string) {
    s == "" || s[0] == '%'
  }

  lemma {:induction false} LeadingBlanks(blanks: string, s: string)
    requires AllBlank(blanks) && s != "" && !Blank(s[0])
    ensures TrimLeft(blanks + s) == s
    decreases |blanks|
  {
    if blanks == "" {
      assert blanks + s == s;
    } else {
      LeadingBlanks(blanks[1..], s);
      assert (blanks + s)[0] == blanks[0] && (blanks + s)[1..] == blanks[1..] + s;
    }
  }

  lemma {:induction false} TrailingBlanks(s: string, blanks: string)
    requires AllBlank(blanks) && s != "" && !Blank(s[|s| - 1])
    ensures TrimRight(s + blanks) == s
    decreases |blanks|
  {
    if blanks == "" {
      assert s + blanks == s;
    } else {
      var t, last := s + blanks, |blanks| - 1;
      TrailingBlanks(s, blanks[..last]);
      assert t[|t| - 1] == blanks[last] && t[..|t| - 1] == s + blanks[..last];
    }
  }

  lemma Trimmed(before: string, s: string, after: string)
    requires AllBlank(before) && AllBlank(after) && s != "" && !Blank(s[0]) && !Blank(s[|s| - 1])
    ensures TrimRight(TrimLeft(before + s + after)) == s
  {
    assert before + s + after == before + (s + after);
    LeadingBlanks(before, s + after);
    TrailingBlanks(s, after);
  }

  /** Small letters keep percent signs where they are. */
  lemma ZoneCut(h: string, zone: string)
    requires Zone(zone) && '%' !in h
    ensures WithoutZone(Lower(h + zone)) == Lower(h)
  {
    var s := Lower(h + zone);
    assert forall i | 0 <= i < |h| :: s[i] == Lower(h)[i] && (s[i] == '%' ==> h[i] == '%');
    assert zone != "" ==> s[|h|] == '%';
    var cut := IndexOf(s, '%');
    assert cut == if zone == "" then -1 else |h|;
    assert s[..|h|] == Lower(h);
    assert zone == "" ==> h + zone == h;
  }

  /** Blanks around the host, brackets, a zone id and capital letters hide nothing: what is inside
      the brackets before any percent sign, in small letters, decides. */
  lemma DressedUp(before: string, h: string, zone: string, after: string)
    requires AllBlank(before) && AllBlank(after) && Zone(zone) && '%' !in h
    ensures IsPrivateHost(before + ("[" + (h + zone) + "]") + after) <==> PrivateName(Lower(h))
  {
    var inner := h + zone;
    var s := "[" + inner + "]";
    Trimmed(before, s, after);
    hide TrimLeft, TrimRight, PrivateName, WithoutZone;
    Unbracketed(inner);
    ZoneCut(h, zone);
  }

  lemma Unbracketed(inner: string)
    ensures var l := Lower("[" + inner + "]"); Bracketed(l) && l[1..|l| - 1] == Lower(inner)
  {
    var l := Lower("[" + inner + "]");
    assert forall i | 0 <= i < |inner| :: l[i + 1] == Lower(inner)[i];
  }

  /** The same for a host that is not in brackets. */
  lemma Undressed(before: string, h: string, zone: string, after: string)
    requires AllBlank(before) && AllBlank(after) && Zone(zone) && '%' !in h
    requires h + zone != "" && !Blank((h + zone)[0]) && !Blank((h + zone)[|h + zone| - 1]) && !Bracketed(h + zone)
    ensures IsPrivateHost(before + (h + zone) + after) <==> PrivateName(Lower(h))
  {
    var s := h + zone;
    Trimmed(before, s, after);
    var l := Lower(s);
    assert |l| == |s| && (l[0] == '[' <==> s[0] == '[') && (l[|l| - 1] == ']' <==> s[|s| - 1] == ']');
    assert !Bracketed(l);
    ZoneCut(h, zone);
  }

  // ----- all other names -----

  /** The name begins like an address whose second octet is 16 to 31, perhaps with a zero in front. */
  predicate BeginsReserved(h: string, zero: string, n: Octet) {
    16 <= n <= 31 && (zero == "" || zero == "0") && "172." + (zero + Decimal(n) + ".") <= h
  }

  ghost predicate SecondOctetReserved(h: string) {
    exists zero, n :: BeginsReserved(h, zero, n)
  }

  /** A number of one to three digits between 16 and 31 is written in one of two ways. */
  lemma WrittenAs(x: string)
    requires 1 <= |x| <= 3 && (forall i | 0 <= i < |x| :: Digit(x[i])) && 16 <= Number(x) <= 31
    ensures x == Decimal(Number(x)) || x == "0" + Decimal(Number(x))
  {
    NumberOfDigits(x);
    var n := Number(x);
    hide Number;
    if |x| == 2 {
      assert x == [x[0], x[1]] && x[0] as int - 48 == n / 10 && x[1] as int - 48 == n % 10;
    } else if |x| == 3 {
      assert x == [x[0], x[1], x[2]] && x[0] == '0' && x[1] as int - 48 == n / 10 && x[2] as int - 48 == n % 10;
    }
  }

  lemma NumberOfDigits(x: string)
    requires 1 <= |x| <= 3
    ensures |x| == 1 ==> Number(x) == x[0] as int - 48
    ensures |x| == 2 ==> Number(x) == (x[0] as int - 48) * 10 + x[1] as int - 48
    ensures |x| == 3 ==> Number(x) == ((x[0] as int - 48) * 10 + x[1] as int - 48) * 10 + x[2] as int - 48
  {
    if |x| == 1 {
      assert x[..0] == "";
    } else if |x| == 2 {
      assert x[..1][..0] == "";
    } else {
      assert x[..2][..1][..0] == "" && x[..2][..1] == x[..1];
    }
  }

  lemma RunIsDigits(s: string)
    ensures forall i | 0 <= i < DigitRun(s) :: Digit(s[i])
  {
    if s != "" && Digit(s[0]) {
      RunIsDigits(s[1..]);
      assert forall i | 1 <= i < |s| :: s[i] == s[1..][i - 1];
    }
  }

  lemma SecondOctetText(h: string)
    ensures SecondOctetReserved(h) <==> SecondOctet(h).Some? && 16 <= SecondOctet(h).value <= 31
  {
    hide Decimal, Number;
    if SecondOctet(h).Some? && 16 <= SecondOctet(h).value <= 31 {
      var n := DigitRun(h[4..]);
      var x := h[4..4 + n];
      RunIsDigits(h[4..]);
      assert forall i | 0 <= i < n :: x[i] == h[4..][i];
      WrittenAs(x);
      var zero := if x == Decimal(Number(x)) then "" else "0";
      assert zero + Decimal(Number(x)) == x;
      assert h == "172." + (x + ".") + h[5 + n..];
      assert BeginsReserved(h, zero, Number(x));
    }
    if zero, n :| BeginsReserved(h, zero, n) { ReservedIsRead(h, n, zero); }
  }

  lemma ReservedIsRead(h: string, n: Octet, zero: string)
    requires BeginsReserved(h, zero, n)
    ensures SecondOctet(h) == Some(n)
  {
    var x := zero + Decimal(n);
    var rest := h[5 + |x|..];
    assert h[4..] == x + "." + rest;
    RunOfDigits(x, rest);
    assert h[4..4 + |x|] == x;
    NumberOfDigits(x);
    NumberOfDigits(Decimal(n));
    NumberOfDecimal(n);
  }

  /** Every name that is normal already, by what it begins with. Prefixes count, so a domain name that
      begins with fc, fd, fe80, 10. or 127. is refused as well. */
  lemma ByFirstLetter(h: string)
    requires Normalized(h) == h
    ensures h == "" ==> IsPrivateHost(h)
    ensures h != "" ==>
              (IsPrivateHost(h) <==>
               match h[0]
               case 'l' => h == "localhost"
               case ':' => h == "::1" || h == "::"
               case 'f' => |h| >= 2 && (h[1] == 'c' || h[1] == 'd' || (|h| >= 4 && h[1..4] == "e80"))
               case '0' => h == "0.0.0.0"
               case '1' =>
                 "127." <= h || "10." <= h || "192.168." <= h || "169.254." <= h || SecondOctetReserved(h)
               case _ => false)
  {
    SecondOctetText(h);
    hide SecondOctetReserved, Normalized;
    if h != "" {
      assert "fc" <= h <==> |h| >= 2 && h[0] == 'f' && h[1] == 'c';
      assert "fd" <= h <==> |h| >= 2 && h[0] == 'f' && h[1] == 'd';
      assert "fe80" <= h <==> |h| >= 4 && h[0] == 'f' && h[1..4] == "e80";
      assert "172." <= h ==> h[0] == '1';
    }
  }

  // ----- first groups of IPv6 addresses -----

  function HexChar(v: int): char
    requires 0 <= v < 16
  {
    if v < 10 then DigitChar(v) else ('a' as int + v - 10) as char
  }

  /** A group of four hexadecimal digits. */
  function Hex4(v: int): string
    requires 0 <= v < 0x1_0000
  {
    [HexChar(v / 4096), HexChar(v / 256 % 16), HexChar(v / 16 % 16), HexChar(v % 16)]
  }

  /** An IPv6 text that begins with a full group is refused exactly for fc00::/7 and for the
      one group fe80: fe81 to febf, which fe80::/10 also covers, pass. */
  lemma FirstGroup(v: int, rest: string)
    requires 0 <= v < 0x1_0000
    ensures PrivateName(Hex4(v) + ":" + rest) <==> 0xfc00 <= v < 0xfe00 || v == 0xfe80
  {
    var h := Hex4(v) + ":" + rest;
    assert h[..4] == Hex4(v) && h[4] == ':';
    HexDigits(v);
    assert "fc" <= h <==> h[0] == 'f' && h[1] == 'c';
    assert "fd" <= h <==> h[0] == 'f' && h[1] == 'd';
    assert "fe80" <= h <==> h[0] == 'f' && h[1] == 'e' && h[2] == '8' && h[3] == '0';
    assert "0.0.0.0"[1] == '.' && "127."[3] == '.' && "10."[2] == '.' && "172."[3] == '.';
    assert "192.168."[3] == '.' && "169.254."[3] == '.';
    assert "localhost"[0] == 'l' && "::1"[0] == ':' && "::"[0] == ':';
  }

  lemma HexDigits(v: int)
    requires 0 <= v < 0x1_0000
    ensures var x := Hex4(v);
            && (forall i | 0 <= i < 4 :: x[i] != '.' && x[i] != ':' && x[i] != 'l')
            && (x[0] == 'f' && x[1] == 'c' <==> 0xfc00 <= v < 0xfd00)
            && (x[0] == 'f' && x[1] == 'd' <==> 0xfd00 <= v < 0xfe00)
            && (x[0] == 'f' && x[1] == 'e' && x[2] == '8' && x[3] == '0' <==> v == 0xfe80)
  {
    assert v == v / 4096 * 4096 + v / 256 % 16 * 256 + v / 16 % 16 * 16 + v % 16;
  }
}
