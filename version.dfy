/**
 * The library version string of initLibraryVersion: the 32-bit version word
 * reported by EAS_Config is split into its four bytes, most significant
 * first, and printed as "%u.%u.%u.%u" into a 16-byte buffer.
 */
module Version {

  import opened Wrappers

  /** The four unsigned chars v1..v4. */
  datatype Quad = Quad(v1: bv8, v2: bv8, v3: bv8, v4: bv8)

  /** (v1 << 24) | (v2 << 16) | (v3 << 8) | v4, in 32 bits. */
  function Pack(q: Quad): bv32
  {
    (q.v1 as bv32 << 24) | (q.v2 as bv32 << 16) | (q.v3 as bv32 << 8) | q.v4 as bv32
  }

  /** The byte extraction: v1 = (libVersion >> 24) & 0xff, ..., v4 = libVersion & 0xff. */
  function Unpack(v: bv32): (q: Quad)
    ensures Pack(q) == v
  {
    Quad(((v >> 24) & 0xff) as bv8, ((v >> 16) & 0xff) as bv8, ((v >> 8) & 0xff) as bv8, (v & 0xff) as bv8)
  }

  lemma UnpackPack(q: Quad)
    ensures Unpack(Pack(q)) == q
  {
  }

  predicate IsDigit(c: char)
  {
    '0' <= c <= '9'
  }

  function DigitChar(d: nat): (c: char)
    requires d < 10
    ensures IsDigit(c)
  {
    ('0' as int + d) as char
  }

  function DigitValue(c: char): nat
    requires IsDigit(c)
  {
    c as int - '0' as int
  }

  /** The "%u" conversion: decimal digits, most significant first, no leading zero. */
  function Decimal(n: nat): (s: string)
    ensures 1 <= |s|
    ensures forall i :: 0 <= i < |s| ==> IsDigit(s[i])
    ensures n < 10 ==> |s| == 1
    ensures s[0] == '0' <==> n == 0
    decreases n
  {
    if n < 10 then [DigitChar(n)] else Decimal(n / 10) + [DigitChar(n % 10)]
  }

  predicate IsNumeral(s: string)
  {
    forall i :: 0 <= i < |s| ==> IsDigit(s[i])
  }

  /** The number a string of decimal digits denotes. */
  function ValueOf(s: string): nat
    requires IsNumeral(s)
    decreases |s|
  {
    if s == [] then 0 else 10 * ValueOf(s[..|s| - 1]) + DigitValue(s[|s| - 1])
  }

  lemma {:induction false} DecimalValue(n: nat)
    ensures ValueOf(Decimal(n)) == n
    decreases n
  {
    if n >= 10 {
      var s := Decimal(n);
      DecimalValue(n / 10);
      assert s[..|s| - 1] == Decimal(n / 10);
    }
  }

  lemma {:induction false} DecimalLength(n: nat)
    requires n < 1000
    ensures |Decimal(n)| <= 3
  {
    if n >= 10 {
      assert n / 10 < 100;
      assert |Decimal(n / 10)| <= 2 by {
        if n / 10 >= 10 {
          assert n / 10 / 10 < 10;
        }
      }
    }
  }

  /** The text "%u.%u.%u.%u" produces from the four bytes of v. */
  function Dotted(v: bv32): (s: string)
  {
    Print(Unpack(v))
  }

  /** Two fields of a format separated by one '.'. */
  function Join(a: string, b: string): string
  {
    a + "." + b
  }

  /** "%u.%u.%u.%u" of the four bytes. */
  function Print(q: Quad): string
  {
    Join(Decimal(q.v1 as nat), Join(Decimal(q.v2 as nat), Join(Decimal(q.v3 as nat), Decimal(q.v4 as nat))))
  }

  /** What snprintf leaves in a buffer of `size` chars: at most size - 1 of them before the NUL. */
  function Snprintf(s: string, size: nat): (r: string)
    requires 0 < size
    ensures |r| < size
    ensures |s| < size ==> r == s
    ensures size <= |s| ==> |r| == size - 1
    ensures r == s[..|r|]
  {
    if |s| < size then s else s[..size - 1]
  }

  const VERSION_BUFFER_SIZE: nat := 16

  /**
   * The dotted text never needs more than 15 characters, so the 16-byte
   * buffer takes it whole.
   */
  lemma DottedFits(v: bv32)
    ensures 7 <= |Dotted(v)| <= 15
    ensures Snprintf(Dotted(v), VERSION_BUFFER_SIZE) == Dotted(v)
  {
    PrintFits(Unpack(v));
  }

  /** Four numerals of one to three digits and three dots. */
  lemma PrintFits(q: Quad)
    ensures 7 <= |Print(q)| <= 15
  {
    PrintLength(q);
    DecimalLength(q.v1 as nat);
    DecimalLength(q.v2 as nat);
    DecimalLength(q.v3 as nat);
    DecimalLength(q.v4 as nat);
  }

  /** The dotted text is the four numerals and three dots. */
  lemma PrintLength(q: Quad)
    ensures |Print(q)| == |Decimal(q.v1 as nat)| + |Decimal(q.v2 as nat)| + |Decimal(q.v3 as nat)| + |Decimal(q.v4 as nat)| + 3
  {
    var a, b, c, d := Decimal(q.v1 as nat), Decimal(q.v2 as nat), Decimal(q.v3 as nat), Decimal(q.v4 as nat);
    assert |Join(c, d)| == |c| + |d| + 1;
    assert |Join(b, Join(c, d))| == |b| + |c| + |d| + 2;
  }

  /** The position of the first '.' in s. */
  function IndexOfDot(s: string): (i: nat)
    requires '.' in s
    ensures i < |s| && s[i] == '.' && '.' !in s[..i]
  {
    if s[0] == '.' then 0 else 1 + IndexOfDot(s[1..])
  }

  /** The pieces of s between dots. */
  function Split(s: string): (parts: seq<string>)
    ensures 1 <= |parts|
    decreases |s|
  {
    if '.' in s then
      var i := IndexOfDot(s);
      [s[..i]] + Split(s[i + 1..])
    else [s]
  }

  lemma SplitAt(a: string, b: string)
    requires '.' !in a
    ensures Split(Join(a, b)) == [a] + Split(b)
  {
    var s := Join(a, b);
    assert s[|a|] == '.';
    var i := IndexOfDot(s);
    assert i == |a|;
    assert s[..i] == a;
    assert s[i + 1..] == b;
  }

  lemma NoDot(s: string)
    requires IsNumeral(s)
    ensures '.' !in s
  {
  }

  /** A numeral whose value fits in an unsigned char. */
  predicate Octet(d: string)
  {
    IsNumeral(d) && ValueOf(d) < 256
  }

  /** Reads back a dotted version string: four numerals, each below 256, as the four bytes. */
  function ParseDotted(s: string): Option<Quad>
  {
    ParseParts(Split(s))
  }

  /** The bytes of the four pieces of a dotted string. */
  function ParseParts(p: seq<string>): Option<Quad>
  {
    if |p| == 4 && Octet(p[0]) && Octet(p[1]) && Octet(p[2]) && Octet(p[3])
    then Some(Quad(ValueOf(p[0]) as bv8, ValueOf(p[1]) as bv8, ValueOf(p[2]) as bv8, ValueOf(p[3]) as bv8))
    else None
  }

  lemma SplitFour(d1: string, d2: string, d3: string, d4: string)
    requires '.' !in d1 && '.' !in d2 && '.' !in d3 && '.' !in d4
    ensures Split(Join(d1, Join(d2, Join(d3, d4)))) == [d1, d2, d3, d4]
  {
    SplitThree(d2, d3, d4);
    SplitAt(d1, Join(d2, Join(d3, d4)));
  }

  lemma SplitThree(d2: string, d3: string, d4: string)
    requires '.' !in d2 && '.' !in d3 && '.' !in d4
    ensures Split(Join(d2, Join(d3, d4))) == [d2, d3, d4]
  {
    SplitTwo(d3, d4);
    SplitAt(d2, Join(d3, d4));
  }

  lemma SplitTwo(d3: string, d4: string)
    requires '.' !in d3 && '.' !in d4
    ensures Split(Join(d3, d4)) == [d3, d4]
  {
    assert Split(d4) == [d4];
    SplitAt(d3, d4);
  }

  /** A numeral printed from a byte reads back as that byte. */
  lemma ByteRoundTrip(b: bv8)
    ensures Octet(Decimal(b as nat))
    ensures ValueOf(Decimal(b as nat)) as bv8 == b
  {
    DecimalValue(b as nat);
  }

  /** Reading back the printed bytes yields them. */
  lemma PrintRoundTrip(q: Quad)
    ensures ParseDotted(Print(q)) == Some(q)
  {
    var d1, d2, d3, d4 := Decimal(q.v1 as nat), Decimal(q.v2 as nat), Decimal(q.v3 as nat), Decimal(q.v4 as nat);
    NoDot(d1); NoDot(d2); NoDot(d3); NoDot(d4);
    SplitFour(d1, d2, d3, d4);
    PartsRoundTrip(q);
  }

  /** The four numerals of q's bytes read back as q. */
  lemma PartsRoundTrip(q: Quad)
    ensures ParseParts([Decimal(q.v1 as nat), Decimal(q.v2 as nat), Decimal(q.v3 as nat), Decimal(q.v4 as nat)]) == Some(q)
  {
    ByteRoundTrip(q.v1); ByteRoundTrip(q.v2); ByteRoundTrip(q.v3); ByteRoundTrip(q.v4);
    PartsOf(Decimal(q.v1 as nat), Decimal(q.v2 as nat), Decimal(q.v3 as nat), Decimal(q.v4 as nat), q);
  }

  lemma PartsOf(d1: string, d2: string, d3: string, d4: string, q: Quad)
    requires Octet(d1) && Octet(d2) && Octet(d3) && Octet(d4)
    requires ValueOf(d1) as bv8 == q.v1 && ValueOf(d2) as bv8 == q.v2
    requires ValueOf(d3) as bv8 == q.v3 && ValueOf(d4) as bv8 == q.v4
    ensures ParseParts([d1, d2, d3, d4]) == Some(q)
  {
  }

  /**
   * The version string determines the version word: reading it back gives
   * the four bytes of libVersion, which pack back into libVersion.
   */
  lemma DottedRoundTrip(v: bv32)
    ensures ParseDotted(Dotted(v)) == Some(Unpack(v))
    ensures Pack(Unpack(v)) == v
  {
    PrintRoundTrip(Unpack(v));
  }

  /** Two different version words never print the same. */
  lemma DottedInjective(v: bv32, u: bv32)
    requires Dotted(v) == Dotted(u)
    ensures v == u
  {
    DottedRoundTrip(v);
    DottedRoundTrip(u);
  }
}
