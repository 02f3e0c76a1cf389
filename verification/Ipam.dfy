/**
 IPv4 addresses: networks, their dotted-quad texts, and the search for the least free host address in 32-bit
 arithmetic.
 */
module Ipam {
  import opened Wrappers
  import opened Text

  const TWO_32 := 0x1_0000_0000

  function Wrap(x: int): int {
    x % TWO_32
  }

  function Pow2(n: nat): nat {
    if n == 0 then 1 else 2 * Pow2(n - 1)
  }

  /** A parsed IPv4 network, with the gateway as the text the pool was created with. */
  datatype Pool = Pool(base: int, mask: nat, gateway: string)

  function Size(p: Pool): nat
    requires p.mask <= 32
  {
    Pow2(32 - p.mask)
  }

  /** Parsing a CIDR clears the host bits, so the base is a multiple of the size of the network. */
  predicate Network(p: Pool) {
    p.mask <= 32 && 0 <= p.base < TWO_32 && Pow2(32 - p.mask) > 0 && p.base % Pow2(32 - p.mask) == 0
  }

  predicate IsHost(p: Pool, a: int)
    requires p.mask <= 32
  {
    p.base < a < p.base + Size(p) - 1
  }

  function Quad(a: nat, b: nat, c: nat, d: nat): string {
    Digits(a) + "." + (Digits(b) + "." + (Digits(c) + "." + Digits(d)))
  }

  /** Dotted-quad text of an address. */
  function Dotted(a: int): string
    requires 0 <= a < TWO_32
  {
    Quad(a / 0x100_0000, a / 0x1_0000 % 0x100, a / 0x100 % 0x100, a % 0x100)
  }

  lemma QuadInjective(a: nat, b: nat, c: nat, d: nat, a': nat, b': nat, c': nat, d': nat)
    requires Quad(a, b, c, d) == Quad(a', b', c', d')
    ensures a == a' && b == b' && c == c' && d == d'
  {
    ReadFront(a, Digits(b) + "." + (Digits(c) + "." + Digits(d)),
              a', Digits(b') + "." + (Digits(c') + "." + Digits(d')));
    ReadFront(b, Digits(c) + "." + Digits(d), b', Digits(c') + "." + Digits(d'));
    ReadFront(c, Digits(d), c', Digits(d'));
    ReadDigitsOfDigits(d);
    ReadDigitsOfDigits(d');
  }

  lemma OctetsInjective(a: int, b: int)
    requires 0 <= a < TWO_32 && 0 <= b < TWO_32
    requires a / 0x100_0000 == b / 0x100_0000 && a / 0x1_0000 % 0x100 == b / 0x1_0000 % 0x100
    requires a / 0x100 % 0x100 == b / 0x100 % 0x100 && a % 0x100 == b % 0x100
    ensures a == b
  {
    Octets(a);
    Octets(b);
  }

  lemma Octets(a: int)
    requires 0 <= a < TWO_32
    ensures a == a / 0x100_0000 * 0x100_0000 + a / 0x1_0000 % 0x100 * 0x1_0000 + a / 0x100 % 0x100 * 0x100 + a % 0x100
  {
  }

  /** Different addresses have different texts. */
  lemma DottedInjective(a: int, b: int)
    requires 0 <= a < TWO_32 && 0 <= b < TWO_32 && Dotted(a) == Dotted(b)
    ensures a == b
  {
    hide Quad;
    QuadInjective(a / 0x100_0000, a / 0x1_0000 % 0x100, a / 0x100 % 0x100, a % 0x100,
                  b / 0x100_0000, b / 0x1_0000 % 0x100, b / 0x100 % 0x100, b % 0x100);
    OctetsInjective(a, b);
  }

  // ---- Reading an address ----

  predicate IsOctet(s: string) {
    IsNumeral(s) && ReadDigits(s) < 256
  }

  /** The address a text stands for: four octets in decimal between dots, the most significant first. */
  function ReadAddress(s: string): Option<int> {
    var f := Fields(s, '.');
    if |f| == 4 && IsOctet(f[0]) && IsOctet(f[1]) && IsOctet(f[2]) && IsOctet(f[3])
    then Some(((ReadDigits(f[0]) * 256 + ReadDigits(f[1])) * 256 + ReadDigits(f[2])) * 256 + ReadDigits(f[3]))
    else None
  }

  lemma OctetReadsBack(n: nat)
    requires n < 256
    ensures IsOctet(Digits(n)) && ReadDigits(Digits(n)) == n && '.' !in Digits(n)
  {
    ReadDigitsOfDigits(n);
    DigitsIsNumeral(n);
  }

  lemma QuadFields(a: nat, b: nat, c: nat, d: nat)
    requires '.' !in Digits(a) && '.' !in Digits(b) && '.' !in Digits(c) && '.' !in Digits(d)
    ensures Fields(Quad(a, b, c, d), '.') == [Digits(a), Digits(b), Digits(c), Digits(d)]
  {
    hide Digits, Fields;
    var last := Digits(c) + "." + Digits(d);
    var mid := Digits(b) + "." + last;
    assert Quad(a, b, c, d) == Digits(a) + "." + mid;
    FieldsCut(Digits(a), mid, '.');
    FieldsCut(Digits(b), last, '.');
    FieldsCut(Digits(c), Digits(d), '.');
    OneField(Digits(d), '.');
  }

  lemma ReadDotted(a: int)
    requires 0 <= a < TWO_32
    ensures ReadAddress(Dotted(a)) == Some(a)
  {
    var o1, o2, o3, o4 := a / 0x100_0000, a / 0x1_0000 % 0x100, a / 0x100 % 0x100, a % 0x100;
    OctetReadsBack(o1);
    OctetReadsBack(o2);
    OctetReadsBack(o3);
    OctetReadsBack(o4);
    QuadFields(o1, o2, o3, o4);
    Octets(a);
    hide Digits, ReadDigits, Fields, Quad;
  }

  /** Nothing but an address's own text reads as that address. */
  lemma ReadIsDotted(s: string)
    requires ReadAddress(s).Some?
    ensures var a := ReadAddress(s).value; 0 <= a < TWO_32 && s == Dotted(a)
  {
    var f := Fields(s, '.');
    FourFields(s);
    DigitsOfReadDigits(f[0]);
    DigitsOfReadDigits(f[1]);
    DigitsOfReadDigits(f[2]);
    DigitsOfReadDigits(f[3]);
    hide Digits, ReadDigits, Fields, IsNumeral;
    OctetsOf(ReadDigits(f[0]), ReadDigits(f[1]), ReadDigits(f[2]), ReadDigits(f[3]));
  }

  lemma FourFields(s: string)
    requires |Fields(s, '.')| == 4
    ensures var f := Fields(s, '.'); s == f[0] + "." + (f[1] + "." + (f[2] + "." + f[3]))
  {
    hide Fields;
    var x := FieldsJoin(s, '.');
    var y := FieldsJoin(x, '.');
    var z := FieldsJoin(y, '.');
    var _ := FieldsJoin(z, '.');
  }

  lemma OctetsOf(a: nat, b: nat, c: nat, d: nat)
    requires a < 256 && b < 256 && c < 256 && d < 256
    ensures var n := ((a * 256 + b) * 256 + c) * 256 + d;
            && n < TWO_32 && n / 0x100_0000 == a && n / 0x1_0000 % 0x100 == b && n / 0x100 % 0x100 == c
            && n % 0x100 == d
  {
  }

  /** The dotted-quad text of an address is the one text that reads as it. */
  lemma TextOfAddressIff(s: string, a: int)
    ensures ReadAddress(s) == Some(a) <==> 0 <= a < TWO_32 && s == Dotted(a)
  {
    if ReadAddress(s).Some? {
      ReadIsDotted(s);
    }
    if 0 <= a < TWO_32 {
      ReadDotted(a);
    }
    hide Dotted, ReadAddress;
  }

  // ---- No wrap-around ----

  lemma {:induction false} Pow2Splits(m: nat, n: nat)
    ensures Pow2(m + n) == Pow2(m) * Pow2(n)
  {
    if m > 0 {
      Pow2Splits(m - 1, n);
    }
  }

  lemma Pow2Of32()
    ensures Pow2(32) == TWO_32
  {
    assert Pow2(8) == 256;
    Pow2Splits(8, 8);
    Pow2Splits(16, 16);
  }

  lemma PositiveMultiple(d: int, size: int)
    requires 0 < size && 0 < d * size
    ensures size <= d * size
  {
  }

  lemma MultiplesApart(q: int, n: int, size: int)
    requires 0 < size && q * size < n * size
    ensures q * size + size <= n * size
  {
    var d := n - q;
    assert d * size == n * size - q * size;
    PositiveMultiple(d, size);
  }

  lemma AlignedFits(base: int, size: int, n: int, end: int)
    requires 0 < size && base % size == 0 && base < end && end == n * size
    ensures base + size <= end
  {
    assert base == base / size * size;
    MultiplesApart(base / size, n, size);
  }

  /** No address of a network lies beyond the 32-bit space, so the search never wraps. */
  lemma NetworkFits(p: Pool)
    requires Network(p)
    ensures 1 <= Size(p) && p.base + Size(p) <= TWO_32
  {
    Pow2Of32();
    Pow2Splits(p.mask, 32 - p.mask);
    hide Pow2;
    AlignedFits(p.base, Pow2(32 - p.mask), Pow2(p.mask), TWO_32);
  }

  // ---- The search ----

  /** The least free address among those from base + i to the last host. */
  function LeastFrom(p: Pool, taken: set<string>, i: int): Option<int>
    requires Network(p) && 1 <= i
    decreases Size(p) - i
  {
    if i >= Size(p) - 1 then None else
    NetworkFits(p);
    if Dotted(p.base + i) !in taken then Some(p.base + i) else LeastFrom(p, taken, i + 1)
  }

  function LeastFree(p: Pool, taken: set<string>): Option<int>
    requires Network(p)
  {
    LeastFrom(p, taken, 1)
  }

  lemma {:induction false} LeastFromIsLeast(p: Pool, taken: set<string>, i: int)
    requires Network(p) && 1 <= i
    ensures p.base + Size(p) <= TWO_32
    ensures match LeastFrom(p, taken, i)
            case None => forall b | IsHost(p, b) && p.base + i <= b :: Dotted(b) in taken
            case Some(a) => && IsHost(p, a) && p.base + i <= a && Dotted(a) !in taken
                            && forall b | IsHost(p, b) && p.base + i <= b < a :: Dotted(b) in taken
    decreases Size(p) - i
  {
    NetworkFits(p);
    if i < Size(p) - 1 {
      LeastFromIsLeast(p, taken, i + 1);
    }
  }

  /** The search finds the least host address that is not taken, and fails exactly when all are taken. */
  lemma LeastFreeIsLeast(p: Pool, taken: set<string>)
    requires Network(p)
    ensures p.base + Size(p) <= TWO_32
    ensures match LeastFree(p, taken)
            case None => forall b | IsHost(p, b) :: Dotted(b) in taken
            case Some(a) =>
              && IsHost(p, a) && Dotted(a) !in taken
              && forall b | IsHost(p, b) && b < a :: Dotted(b) in taken
  {
    LeastFromIsLeast(p, taken, 1);
  }

  /**
   The gateway's own address is never offered exactly when the pool spells it in dotted-quad form: another
   spelling that parses to the same address is not recognised.
   */
  lemma GatewaySparedIffDotted(p: Pool, g: int)
    requires Network(p) && p.base + Size(p) <= TWO_32 && IsHost(p, g)
    ensures (forall taken: set<string> | p.gateway in taken :: LeastFree(p, taken) != Some(g)) <==>
            p.gateway == Dotted(g)
  {
    forall taken: set<string> | p.gateway in taken
      ensures p.gateway == Dotted(g) ==> LeastFree(p, taken) != Some(g)
    {
      LeastFreeIsLeast(p, taken);
    }
    if p.gateway != Dotted(g) {
      var below := set b | p.base < b < g :: Dotted(b);
      var taken := below + {p.gateway};
      forall b | p.base < b < g
        ensures Dotted(b) != Dotted(g)
      {
        if Dotted(b) == Dotted(g) {
          DottedInjective(b, g);
        }
      }
      LeastFreeIsLeast(p, taken);
      assert LeastFree(p, taken) == Some(g);
    }
  }

  function LeastFreeName(p: Pool, taken: set<string>): Option<string>
    requires Network(p)
  {
    match LeastFree(p, taken)
    case None => None
    case Some(a) => LeastFreeIsLeast(p, taken); Some(Dotted(a))
  }

  /** A text that reads as an address strictly between the first and the last of the network. */
  predicate IsHostText(p: Pool, t: string)
    requires p.mask <= 32
  {
    && ReadAddress(t).Some?
    && p.base < ReadAddress(t).value < p.base + Pow2(32 - p.mask) - 1
  }

  /** What the search finds, in terms of what the texts read as. */
  lemma LeastFreeNameIsLeast(p: Pool, taken: set<string>)
    requires Network(p)
    ensures var found := LeastFreeName(p, taken);
            && (found.Some? ==> found.value !in taken && IsHostText(p, found.value))
            && forall t | IsHostText(p, t) && t !in taken ::
                 found.Some? && ReadAddress(found.value).value <= ReadAddress(t).value
  {
    LeastFreeIsLeast(p, taken);
    var free := LeastFree(p, taken);
    if free.Some? {
      ReadDotted(free.value);
    }
    hide Dotted, ReadAddress, Pow2, LeastFree;
    forall t | IsHostText(p, t) && t !in taken
      ensures free.Some? && free.value <= ReadAddress(t).value
    {
      ReadIsDotted(t);
      assert IsHost(p, ReadAddress(t).value);
    }
  }

  /** The size as a 32-bit word, and the loop bound computed from it: a /0 network has a size word of 0. */
  lemma SizeWord(p: Pool)
    requires Network(p)
    ensures Wrap(Wrap(Size(p)) - 1) == Size(p) - 1 < TWO_32
  {
    NetworkFits(p);
  }

  /** The loop of findNextAvailableIP, in 32-bit words. */
  method FindNextAvailableIP(p: Pool, taken: set<string>) returns (found: Option<string>)
    requires Network(p)
    ensures found == LeastFreeName(p, taken)
    ensures found.Some? ==> found.value !in taken && IsHostText(p, found.value)
    ensures forall t | IsHostText(p, t) && t !in taken ::
              found.Some? && ReadAddress(found.value).value <= ReadAddress(t).value
  {
    hide Size, Dotted, Pow2, IsHostText, ReadAddress;
    LeastFreeNameIsLeast(p, taken);
    NetworkFits(p);
    SizeWord(p);
    var totalHosts := Wrap(Size(p));
    var bound := Wrap(totalHosts - 1);
    var i := 1;
    while i < bound
      invariant 1 <= i && (i <= bound || i == 1)
      invariant LeastFrom(p, taken, i) == LeastFree(p, taken)
    {
      var ip := Dotted(Wrap(p.base + i));
      if ip !in taken {
        return Some(ip);
      }
      i := Wrap(i + 1);
    }
    found := None;
  }
}
