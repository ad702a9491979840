/** Dotted-quad addresses and CIDR prefixes as text.

    The lease map, the cursor and the block pool hold addresses as strings, written with String()
    and read back with ParseIP / ParsePrefix. This module states that the two directions are inverse
    on exactly the printed forms, which is what lets the other modules key their maps by number. */
module Text {
  import opened Options

  const SPACE: nat := 0x1_0000_0000

  type Addr = a: nat | a < 0x1_0000_0000

  type Octet = o: nat | o < 256

  datatype Cidr = Cidr(addr: Addr, bits: nat)

  function Digit(d: nat): char
    requires d < 10
  {
    (('0' as int) + d) as char
  }

  function DigitValue(c: char): Option<nat> {
    if '0' <= c <= '9' then Some((c as int) - ('0' as int)) else None
  }

  /** Decimal, without leading zeros. */
  function PrintOctet(o: Octet): (s: string) {
    if o < 10 then [Digit(o)]
    else if o < 100 then [Digit(o / 10), Digit(o % 10)]
    else [Digit(o / 100), Digit(o / 10 % 10), Digit(o % 10)]
  }

  /** A dec-octet of RFC 3986, section 3.2.2: one to three digits, no leading zero, at most 255. */
  function ParseOctet(s: string): Option<Octet> {
    if |s| == 1 then
      match DigitValue(s[0]) case Some(x) => Some(x) case None => None
    else if |s| == 2 then
      match (DigitValue(s[0]), DigitValue(s[1]))
      case (Some(x), Some(y)) => if x == 0 then None else Some(10 * x + y)
      case _ => None
    else if |s| == 3 then
      match (DigitValue(s[0]), DigitValue(s[1]), DigitValue(s[2]))
      case (Some(x), Some(y), Some(z)) =>
        if x == 0 || 100 * x + 10 * y + z > 255 then None else Some(100 * x + 10 * y + z)
      case _ => None
    else None
  }

  /** Splits at the first occurrence of c. */
  function Cut(s: string, c: char): Option<(string, string)> {
    if s == "" then None
    else if s[0] == c then Some(("", s[1..]))
    else
      match Cut(s[1..], c)
      case None => None
      case Some((before, after)) => Some(([s[0]] + before, after))
  }

  function PrintAddr(a: Addr): string {
    PrintFields(a / 0x100_0000, a / 0x1_0000 % 256, a / 256 % 256, a % 256)
  }

  function PrintFields(a: Octet, b: Octet, c: Octet, d: Octet): string {
    PrintOctet(a) + "." + (PrintOctet(b) + "." + (PrintOctet(c) + "." + PrintOctet(d)))
  }

  function ParseAddr(s: string): Option<Addr> {
    match Cut(s, '.')
    case None => None
    case Some((f0, r0)) =>
      match Cut(r0, '.')
      case None => None
      case Some((f1, r1)) =>
        match Cut(r1, '.')
        case None => None
        case Some((f2, f3)) =>
          match (ParseOctet(f0), ParseOctet(f1), ParseOctet(f2), ParseOctet(f3))
          case (Some(a), Some(b), Some(c), Some(d)) => Some(Quad(a, b, c, d))
          case _ => None
  }

  function Quad(a: Octet, b: Octet, c: Octet, d: Octet): Addr {
    a * 0x100_0000 + b * 0x1_0000 + c * 256 + d
  }

  function PrintCidr(c: Cidr): string
    requires c.bits <= 32
  {
    PrintAddr(c.addr) + "/" + PrintOctet(c.bits)
  }

  /** An address, a slash and a prefix length of 0 to 32 (RFC 4632, section 3.1). */
  function ParseCidr(s: string): Option<Cidr> {
    match Cut(s, '/')
    case None => None
    case Some((f, r)) =>
      match (ParseAddr(f), ParseOctet(r))
      case (Some(a), Some(n)) => if n <= 32 then Some(Cidr(a, n)) else None
      case _ => None
  }

  lemma {:induction false} DigitsOf(x: nat, y: nat, z: nat)
    requires x < 10 && y < 10 && z < 10
    ensures (100 * x + 10 * y + z) / 100 == x
    ensures (100 * x + 10 * y + z) / 10 % 10 == y
    ensures (100 * x + 10 * y + z) % 10 == z
    ensures (10 * y + z) / 10 == y && (10 * y + z) % 10 == z
  {
    assert (100 * x + 10 * y + z) / 10 == 10 * x + y;
  }

  lemma {:induction false} OctetRoundTrip(o: Octet)
    ensures ParseOctet(PrintOctet(o)) == Some(o)
    ensures 1 <= |PrintOctet(o)| <= 3
    ensures '.' !in PrintOctet(o) && '/' !in PrintOctet(o)
  {
    DigitsOf(o / 100, o / 10 % 10, o % 10);
    assert o == 100 * (o / 100) + 10 * (o / 10 % 10) + o % 10;
    var s := PrintOctet(o);
    if o < 10 {
      assert DigitValue(s[0]) == Some(o);
    } else if o < 100 {
      assert DigitValue(s[0]) == Some(o / 10) && DigitValue(s[1]) == Some(o % 10);
    } else {
      assert DigitValue(s[0]) == Some(o / 100) && DigitValue(s[2]) == Some(o % 10);
      assert DigitValue(s[1]) == Some(o / 10 % 10);
    }
  }

  lemma {:induction false} OctetCanonical(s: string)
    requires ParseOctet(s).Some?
    ensures s == PrintOctet(ParseOctet(s).value)
  {
    if |s| == 2 {
      DigitsOf(0, DigitValue(s[0]).value, DigitValue(s[1]).value);
    } else if |s| == 3 {
      DigitsOf(DigitValue(s[0]).value, DigitValue(s[1]).value, DigitValue(s[2]).value);
    }
  }

  lemma {:induction false} CutJoined(f: string, c: char, r: string)
    requires c !in f
    ensures Cut(f + [c] + r, c) == Some((f, r))
  {
    var s := f + [c] + r;
    if f == "" {
      assert s[1..] == r;
    } else {
      assert s[0] == f[0] && s[1..] == f[1..] + [c] + r;
      CutJoined(f[1..], c, r);
      assert f == [f[0]] + f[1..];
    }
  }

  lemma {:induction false} CutInverse(s: string, c: char)
    requires Cut(s, c).Some?
    ensures s == Cut(s, c).value.0 + [c] + Cut(s, c).value.1 && c !in Cut(s, c).value.0
  {
    if s[0] != c {
      CutInverse(s[1..], c);
    }
  }

  lemma {:induction false} QuadOfFields(a: Addr)
    ensures a / 0x100_0000 < 256
    ensures Quad(a / 0x100_0000, a / 0x1_0000 % 256, a / 256 % 256, a % 256) == a
  {
    var x := a / 256;
    var y := x / 256;
    assert y == a / 0x1_0000 && y / 256 == a / 0x100_0000;
    assert a == 256 * x + a % 256 && x == 256 * y + x % 256 && y == 256 * (y / 256) + y % 256;
  }

  lemma {:induction false} FieldsOfQuad(a: Octet, b: Octet, c: Octet, d: Octet)
    ensures var q := Quad(a, b, c, d);
            q / 0x100_0000 == a && q / 0x1_0000 % 256 == b && q / 256 % 256 == c && q % 256 == d
  {
    var q := Quad(a, b, c, d);
    assert q / 256 == a * 0x1_0000 + b * 256 + c;
    assert q / 0x1_0000 == a * 256 + b;
  }

  lemma {:induction false} FieldsRoundTrip(a: Octet, b: Octet, c: Octet, d: Octet)
    ensures ParseAddr(PrintFields(a, b, c, d)) == Some(Quad(a, b, c, d))
    ensures 7 <= |PrintFields(a, b, c, d)| <= 15
    ensures '/' !in PrintFields(a, b, c, d)
  {
    OctetRoundTrip(a);
    OctetRoundTrip(b);
    OctetRoundTrip(c);
    OctetRoundTrip(d);
    var r1 := PrintOctet(c) + "." + PrintOctet(d);
    var r0 := PrintOctet(b) + "." + r1;
    assert PrintFields(a, b, c, d) == PrintOctet(a) + "." + r0;
    CutJoined(PrintOctet(a), '.', r0);
    CutJoined(PrintOctet(b), '.', r1);
    CutJoined(PrintOctet(c), '.', PrintOctet(d));
  }

  /** Printed addresses parse back to themselves, and are never 4 or 16 bytes long. */
  lemma {:induction false} AddrRoundTrip(a: Addr)
    ensures ParseAddr(PrintAddr(a)) == Some(a)
    ensures 7 <= |PrintAddr(a)| <= 15
    ensures '/' !in PrintAddr(a)
  {
    QuadOfFields(a);
    FieldsRoundTrip(a / 0x100_0000, a / 0x1_0000 % 256, a / 256 % 256, a % 256);
  }

  /** Nothing but the printed form parses to an address: two keys of the lease map that parse to the
      same address are the same key. */
  lemma {:induction false} AddrCanonical(s: string)
    requires ParseAddr(s).Some?
    ensures s == PrintAddr(ParseAddr(s).value)
  {
    var (f0, r0) := Cut(s, '.').value;
    var (f1, r1) := Cut(r0, '.').value;
    var (f2, f3) := Cut(r1, '.').value;
    CutInverse(s, '.');
    CutInverse(r0, '.');
    CutInverse(r1, '.');
    OctetCanonical(f0);
    OctetCanonical(f1);
    OctetCanonical(f2);
    OctetCanonical(f3);
    FieldsOfQuad(ParseOctet(f0).value, ParseOctet(f1).value, ParseOctet(f2).value, ParseOctet(f3).value);
    assert s == f0 + "." + (f1 + "." + (f2 + "." + f3));
  }

  /** Digits read from left to right in base ten. */
  function Decimal(s: string): int {
    if s == "" then 0 else 10 * Decimal(s[..|s| - 1]) + (s[|s| - 1] as int - '0' as int)
  }

  /** An octet is printed in decimal, without leading zeros. */
  lemma {:induction false} OctetIsDecimal(o: Octet)
    ensures var s := PrintOctet(o);
            && Decimal(s) == o && (forall i :: 0 <= i < |s| ==> '0' <= s[i] <= '9')
            && s != "" && (s[0] == '0' ==> s == "0")
  {
    var s := PrintOctet(o);
    DigitsOf(o / 100, o / 10 % 10, o % 10);
    assert Decimal("") == 0;
    if o < 10 {
      assert s[..0] == "";
    } else if o < 100 {
      var t := [Digit(o / 10)];
      assert s[..1] == t && t[..0] == "" && Decimal(t) == o / 10;
    } else {
      var t, u := [Digit(o / 100)], [Digit(o / 100), Digit(o / 10 % 10)];
      assert t[..0] == "" && Decimal(t) == o / 100;
      assert u[..1] == t && Decimal(u) == 10 * (o / 100) + o / 10 % 10;
      assert s[..2] == u;
    }
  }

  /** The fields of the text are the octets of the address, the most significant one first. */
  lemma {:induction false} DottedQuad(a: Octet, b: Octet, c: Octet, d: Octet)
    ensures var x := 16777216 * a + 65536 * b + 256 * c + d;
            && x < SPACE
            && PrintAddr(x) == PrintOctet(a) + "." + PrintOctet(b) + "." + PrintOctet(c) + "." + PrintOctet(d)
            && ParseAddr(PrintOctet(a) + "." + PrintOctet(b) + "." + PrintOctet(c) + "." + PrintOctet(d)) == Some(x)
  {
    FieldsOfQuad(a, b, c, d);
    AddrRoundTrip(Quad(a, b, c, d));
    hide PrintOctet, ParseAddr;
    FourFields(PrintOctet(a), PrintOctet(b), PrintOctet(c), PrintOctet(d));
  }

  lemma {:induction false} FourFields(p: string, q: string, r: string, s: string)
    ensures p + "." + (q + "." + (r + "." + s)) == p + "." + q + "." + r + "." + s
  {
  }

  lemma {:induction false} CidrRoundTrip(c: Cidr)
    requires c.bits <= 32
    ensures ParseCidr(PrintCidr(c)) == Some(c)
  {
    AddrRoundTrip(c.addr);
    OctetRoundTrip(c.bits);
    CutJoined(PrintAddr(c.addr), '/', PrintOctet(c.bits));
  }

  lemma {:induction false} CidrCanonical(s: string)
    requires ParseCidr(s).Some?
    ensures s == PrintCidr(ParseCidr(s).value)
  {
    var (f, r) := Cut(s, '/').value;
    CutInverse(s, '/');
    AddrCanonical(f);
    OctetCanonical(r);
  }

  lemma {:induction false} PrintInjective(a: Addr, b: Addr)
    requires PrintAddr(a) == PrintAddr(b)
    ensures a == b
  {
    AddrRoundTrip(a);
    AddrRoundTrip(b);
  }

  /** A map keyed by address as the JSON file keeps it: keyed by the printed form. */
  ghost function Keyed<V>(m: map<Addr, V>): (k: map<string, V>) {
    assert forall a, b :: a in m && b in m && PrintAddr(a) == PrintAddr(b) ==> a == b by {
      forall a, b | a in m && b in m && PrintAddr(a) == PrintAddr(b) ensures a == b {
        PrintInjective(a, b);
      }
    }
    map a | a in m :: PrintAddr(a) := m[a]
  }

  /** A text is a key exactly when it parses to an address of the map, whose value it then has. */
  lemma {:induction false} KeyedAt<V>(m: map<Addr, V>, s: string)
    ensures s in Keyed(m) <==> ParseAddr(s).Some? && ParseAddr(s).value in m
    ensures s in Keyed(m) ==> Keyed(m)[s] == m[ParseAddr(s).value]
  {
    hide PrintAddr, ParseAddr;
    if ParseAddr(s).Some? {
      AddrCanonical(s);
    }
    forall a: Addr ensures ParseAddr(PrintAddr(a)) == Some(a) {
      AddrRoundTrip(a);
    }
  }

  /** Looking up, adding and deleting under the printed form is what the map keyed by address does. */
  lemma {:induction false} KeyedRefines<V>(m: map<Addr, V>, a: Addr, v: V)
    ensures PrintAddr(a) in Keyed(m) <==> a in m
    ensures a in m ==> Keyed(m)[PrintAddr(a)] == m[a]
    ensures Keyed(m[a := v]) == Keyed(m)[PrintAddr(a) := v]
    ensures Keyed(m - {a}) == Keyed(m) - {PrintAddr(a)}
  {
    hide PrintAddr, ParseAddr, Keyed;
    AddrRoundTrip(a);
    forall s: string
      ensures s == PrintAddr(a) <==> ParseAddr(s) == Some(a)
      ensures s in Keyed(m[a := v]) <==> s == PrintAddr(a) || s in Keyed(m)
      ensures s in Keyed(m[a := v]) ==> Keyed(m[a := v])[s] == if s == PrintAddr(a) then v else Keyed(m)[s]
      ensures s in Keyed(m - {a}) <==> s in Keyed(m) && s != PrintAddr(a)
      ensures s in Keyed(m - {a}) ==> Keyed(m - {a})[s] == Keyed(m)[s]
    {
      KeyedAt(m, s);
      KeyedAt(m[a := v], s);
      KeyedAt(m - {a}, s);
      if ParseAddr(s).Some? {
        AddrCanonical(s);
      }
    }
    KeyedAt(m, PrintAddr(a));
  }
}
