/** Physical flash addresses: the mixed-radix decomposition of a page number, and its printed form. */
module FlashAddress {
  import opened Arithmetic

  datatype Geometry = Geometry(channels: nat, dies: nat, planes: nat, blocks: nat, pages: nat)

  datatype Address = Address(channel: nat, die: nat, plane: nat, block: nat, page: nat)

  /** `total_pages` */
  function TotalPages(g: Geometry): nat {
    Times(Times(Times(Times(g.channels, g.dies), g.planes), g.blocks), g.pages)
  }

  predicate InRange(g: Geometry, a: Address) {
    a.channel < g.channels && a.die < g.dies && a.plane < g.planes && a.block < g.blocks && a.page < g.pages
  }

  /** The successive divisions of `allocate`. */
  function Decompose(g: Geometry, idx: nat): Address
    requires g.dies > 0 && g.planes > 0 && g.blocks > 0 && g.pages > 0
  {
    var (afterPages, page) := Split(idx, g.pages);
    var (afterBlocks, block) := Split(afterPages, g.blocks);
    var (afterPlanes, plane) := Split(afterBlocks, g.planes);
    var (channel, die) := Split(afterPlanes, g.dies);
    Address(channel, die, plane, block, page)
  }

  function Split(n: nat, radix: nat): (nat, nat)
    requires radix > 0
  {
    (n / radix, n % radix)
  }

  function Join(high: nat, low: nat, radix: nat): nat { Times(high, radix) + low }

  /** The page number of an address. */
  function Compose(g: Geometry, a: Address): nat {
    Join(Join(Join(Join(a.channel, a.die, g.dies), a.plane, g.planes), a.block, g.blocks), a.page, g.pages)
  }

  lemma SplitJoin(high: nat, low: nat, radix: nat)
    requires low < radix
    ensures Join(high, low, radix) / radix == high && Join(high, low, radix) % radix == low
  {
    QuotientUnique(Join(high, low, radix), radix, high, low);
  }

  lemma JoinSplit(n: nat, radix: nat)
    requires radix > 0
    ensures Join(n / radix, n % radix, radix) == n && n % radix < radix
  {
  }

  lemma JoinBound(high: nat, low: nat, radix: nat, bound: nat)
    requires low < radix
    ensures Join(high, low, radix) < Times(bound, radix) <==> high < bound
  {
    if high < bound {
      MulMonotone(high + 1, bound, radix);
      MulStep(high, radix);
    } else {
      MulMonotone(bound, high, radix);
    }
  }

  lemma NoZeroFactor(g: Geometry)
    requires TotalPages(g) > 0
    ensures g.channels > 0 && g.dies > 0 && g.planes > 0 && g.blocks > 0 && g.pages > 0
  {
    ZeroTimes(g.channels, g.dies);
    ZeroTimes(Times(g.channels, g.dies), g.planes);
    ZeroTimes(Times(Times(g.channels, g.dies), g.planes), g.blocks);
    ZeroTimes(Times(Times(Times(g.channels, g.dies), g.planes), g.blocks), g.pages);
  }

  lemma ZeroTimes(a: nat, b: nat)
    ensures a == 0 || b == 0 ==> Times(a, b) == 0
  {
  }

  /** Every page number below the capacity has an address in range, and is the number of that address. */
  lemma DecomposeThenCompose(g: Geometry, idx: nat)
    requires idx < TotalPages(g)
    ensures g.dies > 0 && g.planes > 0 && g.blocks > 0 && g.pages > 0
    ensures InRange(g, Decompose(g, idx)) && Compose(g, Decompose(g, idx)) == idx
  {
    NoZeroFactor(g);
    var afterPages := idx / g.pages;
    var afterBlocks := afterPages / g.blocks;
    var afterPlanes := afterBlocks / g.planes;
    JoinSplit(idx, g.pages);
    JoinSplit(afterPages, g.blocks);
    JoinSplit(afterBlocks, g.planes);
    JoinSplit(afterPlanes, g.dies);
    var a := Decompose(g, idx);
    JoinBound(afterPages, a.page, g.pages, Times(Times(Times(g.channels, g.dies), g.planes), g.blocks));
    JoinBound(afterBlocks, a.block, g.blocks, Times(Times(g.channels, g.dies), g.planes));
    JoinBound(afterPlanes, a.plane, g.planes, Times(g.channels, g.dies));
    JoinBound(a.channel, a.die, g.dies, g.channels);
  }

  /** And every address in range is that of its page number: the decomposition is a bijection. */
  lemma ComposeThenDecompose(g: Geometry, a: Address)
    requires InRange(g, a)
    ensures Compose(g, a) < TotalPages(g) && Decompose(g, Compose(g, a)) == a
  {
    var planesUp := Join(a.channel, a.die, g.dies);
    var blocksUp := Join(planesUp, a.plane, g.planes);
    var pagesUp := Join(blocksUp, a.block, g.blocks);
    SplitJoin(pagesUp, a.page, g.pages);
    SplitJoin(blocksUp, a.block, g.blocks);
    SplitJoin(planesUp, a.plane, g.planes);
    SplitJoin(a.channel, a.die, g.dies);
    JoinBound(a.channel, a.die, g.dies, g.channels);
    JoinBound(planesUp, a.plane, g.planes, Times(g.channels, g.dies));
    JoinBound(blocksUp, a.block, g.blocks, Times(Times(g.channels, g.dies), g.planes));
    JoinBound(pagesUp, a.page, g.pages, Times(Times(Times(g.channels, g.dies), g.planes), g.blocks));
  }

  // ------------------------------------------------------------------ the printed form

  const DIGITS := "0123456789"

  function Decimal(n: nat): (s: string)
    ensures s != [] && forall i :: 0 <= i < |s| ==> s[i] in DIGITS
  {
    if n < 10 then [DIGITS[n]] else Decimal(n / 10) + [DIGITS[n % 10]]
  }

  function DigitValue(c: char): nat
    requires c in DIGITS
  {
    c as nat - '0' as nat
  }

  function Value(s: string): nat
    requires forall i :: 0 <= i < |s| ==> s[i] in DIGITS
  {
    if s == [] then 0 else 10 * Value(s[..|s|-1]) + DigitValue(s[|s|-1])
  }

  lemma {:induction false} ValueOfDecimal(n: nat)
    ensures Value(Decimal(n)) == n
  {
    var s := Decimal(n);
    if n < 10 {
      assert s == [DIGITS[n]] && s[..0] == [];
      assert Value(s[..0]) == 0;
    } else {
      ValueOfDecimal(n / 10);
      assert s[..|s|-1] == Decimal(n / 10);
    }
  }

  /** `s` is the number in decimal, without leading zeros. */
  predicate Prints(s: string, n: nat) {
    && s != [] && (forall i :: 0 <= i < |s| ==> s[i] in DIGITS)
    && Value(s) == n && (|s| > 1 ==> s[0] != '0')
  }

  lemma {:induction false} DecimalPrints(n: nat)
    ensures Prints(Decimal(n), n)
    ensures n > 0 ==> Decimal(n)[0] != '0'
  {
    ValueOfDecimal(n);
    if n >= 10 { DecimalPrints(n / 10); }
  }

  /** `ch{ch}_die{die}_pl{pl}_blk{blk}_pg{pg}` */
  function Location(a: Address): string {
    "ch" + (Decimal(a.channel) + ("_die" + (Decimal(a.die) + ("_pl" + (Decimal(a.plane)
      + ("_blk" + (Decimal(a.block) + ("_pg" + Decimal(a.page)))))))))
  }

  function LeadingDigits(s: string): nat {
    if s == [] || s[0] !in DIGITS then 0 else 1 + LeadingDigits(s[1..])
  }

  lemma {:induction false} LeadingDigitsOf(d: string, x: string)
    requires forall i :: 0 <= i < |d| ==> d[i] in DIGITS
    requires x != [] ==> x[0] !in DIGITS
    ensures LeadingDigits(d + x) == |d|
  {
    if d == [] {
      assert d + x == x;
    } else {
      assert (d + x)[1..] == d[1..] + x;
      LeadingDigitsOf(d[1..], x);
    }
  }

  /** A number followed by something that does not start with a digit can be read off. */
  lemma NumberThenRest(m: nat, n: nat, x: string, y: string)
    requires Decimal(m) + x == Decimal(n) + y
    requires (x != [] ==> x[0] !in DIGITS) && (y != [] ==> y[0] !in DIGITS)
    ensures m == n && x == y
  {
    var a, b := Decimal(m), Decimal(n);
    LeadingDigitsOf(a, x);
    LeadingDigitsOf(b, y);
    assert a == (a + x)[..|a|] == (b + y)[..|b|] == b;
    assert x == (a + x)[|a|..] == (b + y)[|b|..] == y;
    ValueOfDecimal(m);
    ValueOfDecimal(n);
  }

  lemma SameTail(prefix: string, x: string, y: string)
    requires prefix + x == prefix + y
    ensures x == y
  {
    assert x == (prefix + x)[|prefix|..] == (prefix + y)[|prefix|..] == y;
  }

  /** The printed location determines the address. */
  lemma LocationInjective(a: Address, b: Address)
    requires Location(a) == Location(b)
    ensures a == b
  {
    var page, page' := "_pg" + Decimal(a.page), "_pg" + Decimal(b.page);
    var block, block' := "_blk" + (Decimal(a.block) + page), "_blk" + (Decimal(b.block) + page');
    var plane, plane' := "_pl" + (Decimal(a.plane) + block), "_pl" + (Decimal(b.plane) + block');
    var die, die' := "_die" + (Decimal(a.die) + plane), "_die" + (Decimal(b.die) + plane');
    SameTail("ch", Decimal(a.channel) + die, Decimal(b.channel) + die');
    NumberThenRest(a.channel, b.channel, die, die');
    SameTail("_die", Decimal(a.die) + plane, Decimal(b.die) + plane');
    NumberThenRest(a.die, b.die, plane, plane');
    SameTail("_pl", Decimal(a.plane) + block, Decimal(b.plane) + block');
    NumberThenRest(a.plane, b.plane, block, block');
    SameTail("_blk", Decimal(a.block) + page, Decimal(b.block) + page');
    NumberThenRest(a.block, b.block, page, page');
    SameTail("_pg", Decimal(a.page), Decimal(b.page));
    assert Decimal(a.page) + [] == Decimal(a.page) && Decimal(b.page) + [] == Decimal(b.page);
    NumberThenRest(a.page, b.page, [], []);
  }

  /** How the five numbers of a location are printed. */
  predicate IsPrinted(s: string, numbers: seq<string>) {
    |numbers| == 5
    && s == "ch" + numbers[0] + "_die" + numbers[1] + "_pl" + numbers[2] + "_blk" + numbers[3] + "_pg" + numbers[4]
  }

  lemma LocationIsPrinted(a: Address)
    ensures IsPrinted(Location(a),
                      [Decimal(a.channel), Decimal(a.die), Decimal(a.plane), Decimal(a.block), Decimal(a.page)])
  {
    Chained("ch", Decimal(a.channel), "_die", Decimal(a.die), "_pl", Decimal(a.plane), "_blk", Decimal(a.block), "_pg",
            Decimal(a.page));
  }

  lemma Chained(a: string, b: string, c: string, d: string, e: string, f: string, g: string, h: string, i: string,
                j: string)
    ensures a + (b + (c + (d + (e + (f + (g + (h + (i + j))))))))
         == a + b + c + d + e + f + g + h + i + j
  {
    assert e + (f + (g + (h + (i + j)))) == e + f + g + h + i + j;
    assert a + (b + (c + (d + (e + f + g + h + i + j)))) == a + b + c + d + (e + f + g + h + i + j);
    assert a + b + c + d + (e + f + g + h + i + j) == a + b + c + d + e + f + g + h + i + j;
  }

  lemma ComposeIs(g: Geometry, a: Address)
    ensures Compose(g, a)
         == (((a.channel * g.dies + a.die) * g.planes + a.plane) * g.blocks + a.block) * g.pages + a.page
  {
  }

  /**
   Page `idx` is at the channel, die, plane, block and page whose numbers are its digits in the mixed radix of
   the geometry, channels first, and its location prints them in that order.
   */
  lemma PageIsAt(g: Geometry, idx: nat) returns (a: Address, numbers: seq<string>)
    requires idx < TotalPages(g)
    ensures a.channel < g.channels && a.die < g.dies && a.plane < g.planes && a.block < g.blocks && a.page < g.pages
    ensures idx == (((a.channel * g.dies + a.die) * g.planes + a.plane) * g.blocks + a.block) * g.pages + a.page
    ensures g.dies > 0 && g.planes > 0 && g.blocks > 0 && g.pages > 0
    ensures IsPrinted(Location(Decompose(g, idx)), numbers)
    ensures Prints(numbers[0], a.channel) && Prints(numbers[1], a.die) && Prints(numbers[2], a.plane)
    ensures Prints(numbers[3], a.block) && Prints(numbers[4], a.page)
  {
    DecomposeThenCompose(g, idx);
    a := Decompose(g, idx);
    ComposeIs(g, a);
    numbers := [Decimal(a.channel), Decimal(a.die), Decimal(a.plane), Decimal(a.block), Decimal(a.page)];
    LocationIsPrinted(a);
    DecimalPrints(a.channel);
    DecimalPrints(a.die);
    DecimalPrints(a.plane);
    DecimalPrints(a.block);
    DecimalPrints(a.page);
  }
}
