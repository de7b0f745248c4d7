/** The boundary check of scan targets (app/modules/scans/targets.py): a network
    is the set of addresses with a given prefix (section 3.1 of RFC 4632). */
module Cidr {
  import opened Wrappers

  datatype Address = Address(version: nat, value: nat)

  /** The addresses whose value without its last `host` bits is `prefix`. */
  datatype Network = Network(version: nat, host: nat, prefix: nat)

  function Pow2(k: nat): (p: nat)
    ensures p > 0
  {
    if k == 0 then 1 else 2 * Pow2(k - 1)
  }

  predicate Contains(n: Network, a: Address) {
    a.version == n.version && a.value / Pow2(n.host) == n.prefix
  }

  function First(n: Network): Address {
    Address(n.version, n.prefix * Pow2(n.host))
  }

  function Last(n: Network): Address {
    Address(n.version, n.prefix * Pow2(n.host) + Pow2(n.host) - 1)
  }

  // ---- Arithmetic ----

  lemma DivisionIsUnique(x: nat, m: nat, q: nat, r: nat)
    requires m > 0 && r < m && x == m * q + r
    ensures x / m == q
  {
    var d: int := x / m - q;
    assert x == m * (x / m) + x % m;
    assert m * d == r - x % m;
    MultipleIsFar(m, d);
    MultipleIsFar(m, -d);
  }

  lemma MultipleIsFar(m: int, d: int)
    requires m > 0
    ensures d >= 1 ==> m * d >= m
  {
  }

  lemma HalveFirst(a: nat, m: nat)
    requires m > 0
    ensures a / (2 * m) == (a / 2) / m
  {
    var q, r := a / (2 * m), a % (2 * m);
    assert a == 2 * m * q + r;
    assert 2 * m * q == 2 * (m * q);
    assert a / 2 == m * q + r / 2;
    DivisionIsUnique(a / 2, m, q, r / 2);
  }

  /** Dropping bits in two steps. */
  lemma {:induction false} DropTwice(a: nat, j: nat, k: nat)
    ensures a / Pow2(j + k) == (a / Pow2(j)) / Pow2(k)
    decreases j
  {
    if j > 0 {
      HalveFirst(a, Pow2(j - 1 + k));
      DropTwice(a / 2, j - 1, k);
      HalveFirst(a, Pow2(j - 1));
      assert Pow2(j + k) == 2 * Pow2(j - 1 + k);
    }
  }

  /** A network is the interval between its two ends. */
  lemma ContainsIffBetween(n: Network, a: Address)
    ensures Contains(n, a) <==> a.version == n.version && First(n).value <= a.value <= Last(n).value
  {
    var m := Pow2(n.host);
    var q := a.value / m;
    assert a.value == m * q + a.value % m;
    if First(n).value <= a.value <= Last(n).value {
      DivisionIsUnique(a.value, m, n.prefix, a.value - n.prefix * m);
    }
  }

  // ---- Prefixes nest or are disjoint ----

  /** A network at least as large as a block holds all of it or nothing. */
  lemma NestedOrDisjoint(block: Network, n: Network, a: Address, b: Address)
    requires block.host <= n.host && Contains(block, a) && Contains(block, b)
    ensures Contains(n, a) <==> Contains(n, b)
  {
    DropTwice(a.value, block.host, n.host - block.host);
    DropTwice(b.value, block.host, n.host - block.host);
  }

  lemma EndsAreInside(block: Network)
    ensures Contains(block, First(block)) && Contains(block, Last(block))
  {
    ContainsIffBetween(block, First(block));
    ContainsIffBetween(block, Last(block));
  }

  // ---- The tables ----

  /** Membership in one of the listed networks. */
  predicate Listed(networks: seq<Network>, a: Address) {
    exists i | 0 <= i < |networks| :: Contains(networks[i], a)
  }

  const DEMO_PRIVATE := [
    Network(4, 24, 10), Network(4, 20, 0xAC1), Network(4, 16, 0xC0A8), Network(6, 121, 0x7E)]

  const DEMO_TRANSITION := [
    Network(6, 112, 0x2002), Network(6, 32, 0x64_ff9b_0000_0000_0000_0000), Network(6, 96, 0x2001_0000)]

  // The classifications of CPython 3.12.4 and later. In each table the networks
  // smaller than 256 addresses stand apart.

  /** Loopback, link-local, multicast and reserved; the unspecified address. */
  const DENIED4 := [Network(4, 24, 127), Network(4, 16, 0xA9FE), Network(4, 28, 0xE), Network(4, 28, 0xF)]
  const DENIED4_SMALL := [Network(4, 0, 0)]

  const SHARED4 := [Network(4, 22, 0x191)]

  const PRIVATE4 := [
    Network(4, 24, 0), Network(4, 24, 10), Network(4, 24, 127), Network(4, 16, 0xA9FE), Network(4, 20, 0xAC1),
    Network(4, 8, 0xC00000), Network(4, 8, 0xC00002), Network(4, 16, 0xC0A8), Network(4, 17, 0x6309),
    Network(4, 8, 0xC63364), Network(4, 8, 0xCB0071), Network(4, 28, 0xF)]
  const PRIVATE4_SMALL := [Network(4, 1, 0x6000_0055), Network(4, 0, 0xFFFF_FFFF)]

  const EXCEPTION4 := 0xC000_0009
  const EXCEPTIONS4_SMALL := [Network(4, 0, EXCEPTION4), Network(4, 0, EXCEPTION4 + 1)]

  /** Link-local, multicast and reserved; the loopback and the unspecified address. */
  const DENIED6 := [
    Network(6, 118, 0x3FA), Network(6, 120, 0xFF), Network(6, 120, 0), Network(6, 120, 1), Network(6, 121, 1),
    Network(6, 122, 1), Network(6, 123, 1), Network(6, 124, 1), Network(6, 125, 2), Network(6, 125, 3),
    Network(6, 125, 4), Network(6, 125, 5), Network(6, 125, 6), Network(6, 124, 0xE), Network(6, 123, 0x1E),
    Network(6, 122, 0x3E), Network(6, 119, 0x1FC)]
  const DENIED6_SMALL := [Network(6, 0, 0), Network(6, 0, 1)]

  const PRIVATE6 := [
    Network(6, 32, 0xFFFF), Network(6, 80, 0x64_ff9b_0001), Network(6, 64, 0x0100_0000_0000_0000),
    Network(6, 105, 0x100080), Network(6, 96, 0x2001_0db8), Network(6, 112, 0x2002), Network(6, 121, 0x7E),
    Network(6, 118, 0x3FA)]
  const PRIVATE6_SMALL := [Network(6, 0, 0), Network(6, 0, 1)]
  const DOCUMENTATION6 := [Network(6, 108, 0x3FFF0)]

  const EXCEPTIONS6 := [
    Network(6, 96, 0x2001_0003), Network(6, 80, 0x2001_0004_0112), Network(6, 100, 0x200_1002), Network(6, 100, 0x200_1003)]
  const EXCEPTION6: nat := 0x2001_0001 * Pow2(96) + 1
  const EXCEPTIONS6_SMALL := [Network(6, 0, EXCEPTION6), Network(6, 0, EXCEPTION6 + 1)]

  /** Two points in which the patch releases differ: whether an IPv4-mapped address
      is judged by the address it embeds, and whether 3fff::/20 is private. */
  datatype Runtime = Runtime(mapped: bool, documentation: bool)

  predicate Global4(a: Address) {
    !Listed(SHARED4, a) && (!Listed(PRIVATE4 + PRIVATE4_SMALL, a) || Listed(EXCEPTIONS4_SMALL, a))
  }

  predicate Public4(a: Address) {
    !Listed(DENIED4 + DENIED4_SMALL, a) && Global4(a)
  }

  function Private6(rt: Runtime): seq<Network> {
    PRIVATE6 + if rt.documentation then DOCUMENTATION6 else []
  }

  predicate Global6(rt: Runtime, a: Address) {
    !Listed(Private6(rt) + PRIVATE6_SMALL, a) || Listed(EXCEPTIONS6 + EXCEPTIONS6_SMALL, a)
  }

  predicate Public6(rt: Runtime, a: Address) {
    !Listed(DENIED6 + DENIED6_SMALL, a) && Global6(rt, a)
  }

  const MAPPED := Network(6, 32, 0xFFFF)

  function Embedded(a: Address): Address {
    Address(4, a.value % Pow2(32))
  }

  /** `_allowed_address` in demo mode; an embedded loopback address is private, so
      it makes no difference that only IPv6's own loopback counts as one. */
  predicate AllowedAddress(rt: Runtime, a: Address) {
    if a.version == 4 then
      !Listed(DENIED4 + DENIED4_SMALL, a) && (Global4(a) || Listed(DEMO_PRIVATE, a))
    else if rt.mapped && Contains(MAPPED, a) then Public4(Embedded(a))
    else
      && !Listed(DEMO_TRANSITION, a)
      && (Public6(rt, a) || (!Listed(DENIED6 + DENIED6_SMALL, a) && Listed(DEMO_PRIVATE, a)))
  }

  /** One of the listed networks holds both ends. */
  predicate BothIn(networks: seq<Network>, block: Network) {
    exists i | 0 <= i < |networks| :: Contains(networks[i], First(block)) && Contains(networks[i], Last(block))
  }

  /** The `is_global` of a network, which looks at its two ends only. */
  predicate GlobalNetwork(rt: Runtime, block: Network) {
    if block.version == 4 then
      && !BothIn(SHARED4, block)
      && !(BothIn(PRIVATE4 + PRIVATE4_SMALL, block)
           && !Listed(EXCEPTIONS4_SMALL, First(block)) && !Listed(EXCEPTIONS4_SMALL, Last(block)))
    else
      !(BothIn(Private6(rt) + PRIVATE6_SMALL, block)
        && !Listed(EXCEPTIONS6 + EXCEPTIONS6_SMALL, First(block)) && !Listed(EXCEPTIONS6 + EXCEPTIONS6_SMALL, Last(block)))
  }

  /** The `is_global` of an address; where a mapped one is not judged by the address
      it embeds, it still takes the privacy of that address. */
  predicate GlobalAddress(rt: Runtime, a: Address) {
    if a.version == 4 then Global4(a)
    else if Contains(MAPPED, a) then
      if rt.mapped then Global4(Embedded(a))
      else !Listed(PRIVATE4 + PRIVATE4_SMALL, Embedded(a)) || Listed(EXCEPTIONS4_SMALL, Embedded(a))
    else Global6(rt, a)
  }

  datatype Rejection = TooLarge | NotGlobal

  /** The subnet branch of `resolve_scan_target`. */
  function ResolveSubnet(demo: bool, rt: Runtime, block: Network): Result<Network, Rejection> {
    if Pow2(block.host) > 256 then Err(TooLarge)
    else if (if demo then AllowedAddress(rt, First(block)) && AllowedAddress(rt, Last(block)) else GlobalNetwork(rt, block))
    then Ok(block)
    else Err(NotGlobal)
  }

  // ---- Large networks are uniform on a block ----

  predicate AtLeast(networks: seq<Network>, host: nat) {
    forall i | 0 <= i < |networks| :: networks[i].host >= host
  }

  lemma {:induction false} PowersGrow(j: nat, k: nat)
    requires j <= k
    ensures Pow2(j) <= Pow2(k)
    decreases k
  {
    if j < k {
      PowersGrow(j, k - 1);
    }
  }

  lemma SmallBlocks(block: Network)
    ensures Pow2(block.host) <= 256 <==> block.host <= 8
  {
    assert Pow2(8) == 256 && Pow2(9) == 512;
    if block.host >= 9 {
      PowersGrow(9, block.host);
    } else {
      PowersGrow(block.host, 8);
    }
  }

  lemma ListedIsUniform(block: Network, networks: seq<Network>, a: Address, b: Address)
    requires AtLeast(networks, block.host) && Contains(block, a) && Contains(block, b)
    ensures Listed(networks, a) <==> Listed(networks, b)
  {
    forall i | 0 <= i < |networks| ensures Contains(networks[i], a) <==> Contains(networks[i], b) {
      NestedOrDisjoint(block, networks[i], a, b);
    }
  }

  lemma DemoListsAreLarge()
    ensures AtLeast(DEMO_PRIVATE, 8) && AtLeast(DEMO_TRANSITION, 8)
  {
  }

  lemma LargeListsAreUniform(block: Network, a: Address, b: Address)
    requires block.host <= 8 && Contains(block, a) && Contains(block, b)
    ensures Listed(DEMO_PRIVATE, a) <==> Listed(DEMO_PRIVATE, b)
    ensures Listed(DEMO_TRANSITION, a) <==> Listed(DEMO_TRANSITION, b)
    ensures Listed(DENIED4, a) <==> Listed(DENIED4, b)
    ensures Listed(SHARED4, a) <==> Listed(SHARED4, b)
    ensures Listed(PRIVATE4, a) <==> Listed(PRIVATE4, b)
    ensures Listed(DENIED6, a) <==> Listed(DENIED6, b)
    ensures Listed(EXCEPTIONS6, a) <==> Listed(EXCEPTIONS6, b)
  {
    DemoListsAreLarge();
    ListedIsUniform(block, DEMO_PRIVATE, a, b);
    ListedIsUniform(block, DEMO_TRANSITION, a, b);
    ListedIsUniform(block, DENIED4, a, b);
    ListedIsUniform(block, SHARED4, a, b);
    ListedIsUniform(block, PRIVATE4, a, b);
    ListedIsUniform(block, DENIED6, a, b);
    ListedIsUniform(block, EXCEPTIONS6, a, b);
  }

  lemma Private6IsUniform(rt: Runtime, block: Network, a: Address, b: Address)
    requires block.host <= 8 && Contains(block, a) && Contains(block, b)
    ensures Listed(Private6(rt), a) <==> Listed(Private6(rt), b)
  {
    assert AtLeast(Private6(rt), 8);
    ListedIsUniform(block, Private6(rt), a, b);
  }

  /** For every block of at most 256 addresses one end decides, for every address
      inside, membership in the private and in the transition networks. */
  lemma EndsDecideDemoLists(block: Network, a: Address)
    requires Pow2(block.host) <= 256 && Contains(block, a)
    ensures Listed(DEMO_PRIVATE, a) <==> Listed(DEMO_PRIVATE, First(block))
    ensures Listed(DEMO_PRIVATE, a) <==> Listed(DEMO_PRIVATE, Last(block))
    ensures Listed(DEMO_TRANSITION, a) <==> Listed(DEMO_TRANSITION, First(block))
    ensures Listed(DEMO_TRANSITION, a) <==> Listed(DEMO_TRANSITION, Last(block))
  {
    SmallBlocks(block);
    EndsAreInside(block);
    LargeListsAreUniform(block, a, First(block));
    LargeListsAreUniform(block, a, Last(block));
  }

  // ---- The small networks ----

  lemma ListedConcat(n: seq<Network>, m: seq<Network>, a: Address)
    ensures Listed(n + m, a) <==> Listed(n, a) || Listed(m, a)
  {
    if i :| 0 <= i < |n| && Contains(n[i], a) {
      assert Contains((n + m)[i], a);
    }
    if i :| 0 <= i < |m| && Contains(m[i], a) {
      assert Contains((n + m)[|n| + i], a);
    }
  }

  lemma ListedAt(networks: seq<Network>, i: nat, a: Address)
    requires i < |networks| && Contains(networks[i], a)
    ensures Listed(networks, a)
  {
  }

  predicate Isolated(first: nat, a: Address) {
    a.value == first || a.value == first + 1
  }

  predicate Coarse4(a: Address) {
    !Listed(DENIED4, a) && !Listed(SHARED4, a) && !Listed(PRIVATE4, a)
  }

  lemma Powers()
    ensures Pow2(0) == 1 && Pow2(1) == 2 && Pow2(8) == 0x100 && Pow2(16) == 0x1_0000 && Pow2(17) == 0x2_0000
    ensures Pow2(20) == 0x10_0000 && Pow2(22) == 0x40_0000 && Pow2(24) == 0x100_0000 && Pow2(28) == 0x1000_0000
  {
  }

  /** One address of a small network, seen by the large ones. */
  lemma Concrete4(a: Address, i: nat)
    requires a.version == 4 && i < |PRIVATE4| && PRIVATE4[i].host in {8, 24, 28}
    requires a.value / Pow2(PRIVATE4[i].host) == PRIVATE4[i].prefix
    ensures Listed(PRIVATE4, a)
  {
    ListedAt(PRIVATE4, i, a);
  }

  lemma NotDemo4(a: Address)
    requires a.version == 4 && a.value in {0, 0xC000_0009, 0xC000_000A, 0xC000_00AA, 0xC000_00AB, 0xFFFF_FFFF}
    ensures !Listed(DEMO_PRIVATE, a)
  {
    Powers();
    assert !Contains(DEMO_PRIVATE[0], a) && !Contains(DEMO_PRIVATE[1], a);
    assert !Contains(DEMO_PRIVATE[2], a) && !Contains(DEMO_PRIVATE[3], a);
  }

  lemma NotDenied4(a: Address)
    requires a.version == 4 && Isolated(EXCEPTION4, a)
    ensures !Listed(DENIED4, a) && !Listed(DENIED4_SMALL, a) && !Listed(SHARED4, a)
  {
    Powers();
    assert !Contains(DENIED4[0], a) && !Contains(DENIED4[1], a) && !Contains(DENIED4[2], a) && !Contains(DENIED4[3], a);
    assert !Contains(SHARED4[0], a) && !Contains(DENIED4_SMALL[0], a);
  }

  lemma SmallValues4(a: Address)
    requires a.version == 4
    ensures Listed(DENIED4_SMALL, a) <==> a.value == 0
    ensures Listed(PRIVATE4_SMALL, a) <==> a.value in {0xC000_00AA, 0xC000_00AB, 0xFFFF_FFFF}
    ensures Listed(EXCEPTIONS4_SMALL, a) <==> Isolated(EXCEPTION4, a)
  {
    Powers();
    assert Contains(DENIED4_SMALL[0], a) <==> a.value == 0;
    assert Contains(PRIVATE4_SMALL[0], a) <==> a.value in {0xC000_00AA, 0xC000_00AB};
    assert Contains(PRIVATE4_SMALL[1], a) <==> a.value == 0xFFFF_FFFF;
    assert Contains(EXCEPTIONS4_SMALL[0], a) <==> a.value == EXCEPTION4;
    assert Contains(EXCEPTIONS4_SMALL[1], a) <==> a.value == EXCEPTION4 + 1;
  }

  /** The small networks of IPv4 only matter for two isolated global addresses. */
  lemma SmallNetworks4(a: Address)
    requires a.version == 4
    ensures Listed(DENIED4_SMALL, a) || Listed(PRIVATE4_SMALL, a) || Listed(EXCEPTIONS4_SMALL, a) ==>
              Listed(PRIVATE4, a) && !Listed(DEMO_PRIVATE, a)
  {
    SmallValues4(a);
    if a.value in {0, 0xC000_0009, 0xC000_000A, 0xC000_00AA, 0xC000_00AB, 0xFFFF_FFFF} {
      NotDemo4(a);
      Powers();
      Concrete4(a, if a.value == 0 then 0 else if a.value == 0xFFFF_FFFF then 11 else 5);
    }
  }

  lemma Allowed4(a: Address)
    requires a.version == 4
    ensures Public4(a) <==> Coarse4(a) || Isolated(EXCEPTION4, a)
    ensures !Listed(DENIED4 + DENIED4_SMALL, a) && (Global4(a) || Listed(DEMO_PRIVATE, a))
            <==> Coarse4(a) || (!Listed(DENIED4, a) && Listed(DEMO_PRIVATE, a)) || Isolated(EXCEPTION4, a)
  {
    SmallNetworks4(a);
    SmallValues4(a);
    if Isolated(EXCEPTION4, a) {
      NotDenied4(a);
    }
    ListedConcat(DENIED4, DENIED4_SMALL, a);
    ListedConcat(PRIVATE4, PRIVATE4_SMALL, a);
  }

  /** A block whose two ends are two isolated neighbours, the first of them odd, is
      one address. */
  lemma IsolatedEnds(block: Network, first: nat, a: Address)
    requires first % 2 == 1 && Contains(block, a)
    requires Isolated(first, First(block)) && Isolated(first, Last(block))
    ensures a == First(block)
  {
    ContainsIffBetween(block, a);
    assert Pow2(block.host) == 1 || Pow2(block.host) == 2;
    if block.host > 0 {
      EvenFirst(block);
    }
  }

  lemma EvenFirst(block: Network)
    requires block.host > 0
    ensures First(block).value % 2 == 0
  {
    var half := Pow2(block.host - 1);
    assert First(block).value == block.prefix * (2 * half) == 2 * (block.prefix * half);
  }

  // ---- The two ends decide ----

  lemma Inside4(block: Network, a: Address)
    requires block.version == 4 && block.host <= 8 && Contains(block, a)
    ensures Public4(First(block)) && Public4(Last(block)) ==> Public4(a)
    ensures forall rt :: AllowedAddress(rt, First(block)) && AllowedAddress(rt, Last(block)) ==> AllowedAddress(rt, a)
  {
    EndsAreInside(block);
    Allowed4(First(block));
    Allowed4(Last(block));
    Allowed4(a);
    LargeListsAreUniform(block, a, First(block));
    LargeListsAreUniform(block, a, Last(block));
    if Isolated(EXCEPTION4, First(block)) && Isolated(EXCEPTION4, Last(block)) {
      IsolatedEnds(block, EXCEPTION4, a);
    }
  }

  lemma LowestAreDenied(a: Address)
    requires a.version == 6 && a.value <= 1
    ensures Listed(DENIED6, a)
  {
    PowersGrow(1, 120);
    assert Pow2(1) == 2;
    DivisionIsUnique(a.value, Pow2(120), 0, a.value);
    ListedAt(DENIED6, 2, a);
  }

  lemma SmallNetworks6(rt: Runtime, a: Address)
    requires a.version == 6
    ensures Listed(DENIED6_SMALL, a) || Listed(PRIVATE6_SMALL, a) ==> Listed(DENIED6, a)
    ensures Listed(EXCEPTIONS6_SMALL, a) <==> Isolated(EXCEPTION6, a)
  {
    assert Pow2(0) == 1;
    if a.value <= 1 {
      LowestAreDenied(a);
    }
    assert Contains(DENIED6_SMALL[0], a) || Contains(DENIED6_SMALL[1], a) <==> a.value <= 1;
    assert Contains(PRIVATE6_SMALL[0], a) || Contains(PRIVATE6_SMALL[1], a) <==> a.value <= 1;
    assert Contains(EXCEPTIONS6_SMALL[0], a) <==> a.value == EXCEPTION6;
    assert Contains(EXCEPTIONS6_SMALL[1], a) <==> a.value == EXCEPTION6 + 1;
  }

  lemma Allowed6(rt: Runtime, a: Address)
    requires a.version == 6
    ensures Public6(rt, a) <==>
            !Listed(DENIED6, a) && (!Listed(Private6(rt), a) || Listed(EXCEPTIONS6, a) || Isolated(EXCEPTION6, a))
    ensures Listed(DENIED6 + DENIED6_SMALL, a) <==> Listed(DENIED6, a)
  {
    SmallNetworks6(rt, a);
    ListedConcat(DENIED6, DENIED6_SMALL, a);
    ListedConcat(Private6(rt), PRIVATE6_SMALL, a);
    ListedConcat(EXCEPTIONS6, EXCEPTIONS6_SMALL, a);
  }

  predicate Judged6(rt: Runtime, a: Address) {
    !Listed(DEMO_TRANSITION, a)
    && (Public6(rt, a) || (!Listed(DENIED6 + DENIED6_SMALL, a) && Listed(DEMO_PRIVATE, a)))
  }

  lemma Inside6(rt: Runtime, block: Network, a: Address)
    requires block.version == 6 && block.host <= 8 && Contains(block, a)
    ensures Judged6(rt, First(block)) && Judged6(rt, Last(block)) ==> Judged6(rt, a)
  {
    EndsAreInside(block);
    Allowed6(rt, First(block));
    Allowed6(rt, Last(block));
    Allowed6(rt, a);
    LargeListsAreUniform(block, a, First(block));
    LargeListsAreUniform(block, a, Last(block));
    Private6IsUniform(rt, block, a, First(block));
    Private6IsUniform(rt, block, a, Last(block));
    if Isolated(EXCEPTION6, First(block)) && Isolated(EXCEPTION6, Last(block)) {
      OneException6(block, a);
    }
  }

  lemma OneException6(block: Network, a: Address)
    requires Contains(block, a) && Isolated(EXCEPTION6, First(block)) && Isolated(EXCEPTION6, Last(block))
    ensures a == First(block)
  {
    OddAbove(0x2001_0001, 96);
    IsolatedEnds(block, EXCEPTION6, a);
  }

  lemma OddAbove(top: nat, k: nat)
    requires k > 0
    ensures (top * Pow2(k) + 1) % 2 == 1
  {
    OddProduct(top, Pow2(k - 1));
  }

  lemma OddProduct(top: nat, half: nat)
    ensures (top * (2 * half) + 1) % 2 == 1
  {
    assert top * (2 * half) == 2 * (top * half);
  }

  /** Splitting a block's prefix below the mapped prefix. */
  lemma MappedPrefix(block: Network, a: Address) returns (low: nat)
    requires block.host <= 8 && Contains(block, a) && Contains(MAPPED, a)
    ensures low < Pow2(32 - block.host) && block.prefix == 0xFFFF * Pow2(32 - block.host) + low
  {
    var h := block.host;
    DropTwice(a.value, h, 32 - h);
    low := block.prefix % Pow2(32 - h);
    assert block.prefix / Pow2(32 - h) == 0xFFFF;
    assert block.prefix == Pow2(32 - h) * (block.prefix / Pow2(32 - h)) + low;
  }

  /** A block of mapped addresses embeds a block of IPv4 addresses. */
  lemma EmbeddedBlock(block: Network, a: Address) returns (inner: Network)
    requires block.host <= 8 && Contains(block, a) && Contains(MAPPED, a)
    ensures inner.version == 4 && inner.host == block.host && Contains(inner, Embedded(a))
    ensures Embedded(First(block)) == First(inner) && Embedded(Last(block)) == Last(inner)
  {
    var m := Pow2(block.host);
    var low := MappedPrefix(block, a);
    inner := Network(4, block.host, low);
    EmbeddedAt(block, low, First(block), 0);
    EmbeddedAt(block, low, Last(block), m - 1);
    var r := Offset(block, a);
    EmbeddedAt(block, low, a, r);
    AtOffset(inner, Embedded(a), r);
  }

  lemma Offset(n: Network, a: Address) returns (r: nat)
    requires Contains(n, a)
    ensures r < Pow2(n.host) && a.value == n.prefix * Pow2(n.host) + r
  {
    var m := Pow2(n.host);
    r := a.value % m;
    assert a.value == m * (a.value / m) + r;
  }

  lemma AtOffset(n: Network, a: Address, r: nat)
    requires a.version == n.version && r < Pow2(n.host) && a.value == n.prefix * Pow2(n.host) + r
    ensures Contains(n, a)
  {
    DivisionIsUnique(a.value, Pow2(n.host), n.prefix, r);
  }

  lemma EmbeddedAt(block: Network, low: nat, a: Address, r: nat)
    requires block.host <= 8 && low < Pow2(32 - block.host) && block.prefix == 0xFFFF * Pow2(32 - block.host) + low
    requires r < Pow2(block.host) && a.value == block.prefix * Pow2(block.host) + r
    ensures Embedded(a).value == low * Pow2(block.host) + r
  {
    PowerSum(32 - block.host, block.host);
    LowPart(block.prefix, Pow2(block.host), Pow2(32 - block.host), Pow2(32), low, r);
  }

  lemma {:induction false} PowerSum(j: nat, k: nat)
    ensures Pow2(j + k) == Pow2(j) * Pow2(k)
    decreases j
  {
    if j > 0 {
      PowerSum(j - 1, k);
      DoubleProduct(Pow2(j - 1), Pow2(k));
    }
  }

  lemma DoubleProduct(x: nat, y: nat)
    ensures 2 * (x * y) == (2 * x) * y
  {
  }

  lemma LowPart(prefix: nat, m: nat, n: nat, all: nat, low: nat, r: nat)
    requires m > 0 && all == n * m && low < n && r < m && prefix == 0xFFFF * n + low
    ensures (prefix * m + r) % all == low * m + r
  {
    Distribute(0xFFFF, n, low, m);
    Monotone(low + 1, n, m);
    Distribute(1, low, 1, m);
    var x := prefix * m + r;
    assert x == all * 0xFFFF + (low * m + r);
    DivisionIsUnique(x, all, 0xFFFF, low * m + r);
    assert x == all * (x / all) + x % all;
  }

  lemma Distribute(k: nat, n: nat, low: nat, m: nat)
    ensures (k * n + low) * m == k * (n * m) + low * m
  {
  }

  lemma Monotone(x: nat, y: nat, m: nat)
    requires x <= y
    ensures x * m <= y * m
  {
  }

  lemma InsideMapped(rt: Runtime, block: Network, a: Address)
    requires block.version == 6 && block.host <= 8 && Contains(block, a) && Contains(MAPPED, a) && rt.mapped
    ensures AllowedAddress(rt, First(block)) && AllowedAddress(rt, Last(block)) ==> AllowedAddress(rt, a)
  {
    EndsAreInside(block);
    NestedOrDisjoint(block, MAPPED, a, First(block));
    NestedOrDisjoint(block, MAPPED, a, Last(block));
    var inner := EmbeddedBlock(block, a);
    Inside4(inner, Embedded(a));
  }

  lemma InsideAllowed(rt: Runtime, block: Network, a: Address)
    requires block.version in {4, 6} && block.host <= 8 && Contains(block, a)
    ensures AllowedAddress(rt, First(block)) && AllowedAddress(rt, Last(block)) ==> AllowedAddress(rt, a)
  {
    if block.version == 4 {
      Inside4(block, a);
    } else if rt.mapped && Contains(MAPPED, a) {
      InsideMapped(rt, block, a);
    } else {
      EndsAreInside(block);
      NestedOrDisjoint(block, MAPPED, a, First(block));
      NestedOrDisjoint(block, MAPPED, a, Last(block));
      Inside6(rt, block, a);
    }
  }

  /** In demo mode the check of the two ends accepts a block of at most 256 addresses
      exactly when every address inside is allowed. */
  lemma EndsDecideWholeBlock(rt: Runtime, block: Network)
    requires block.version in {4, 6} && Pow2(block.host) <= 256
    ensures ResolveSubnet(true, rt, block).Ok? <==> forall a | Contains(block, a) :: AllowedAddress(rt, a)
  {
    SmallBlocks(block);
    EndsAreInside(block);
    forall a | Contains(block, a)
      ensures AllowedAddress(rt, First(block)) && AllowedAddress(rt, Last(block)) ==> AllowedAddress(rt, a)
    {
      InsideAllowed(rt, block, a);
    }
  }

  /** A mapped address lies in no other network of its version that is larger. */
  lemma MappedIsNotInLarger(a: Address, n: Network)
    requires Contains(MAPPED, a) && n.version == 6 && n.host >= 48 && n.prefix > 0
    ensures !Contains(n, a)
  {
    PowersGrow(16, n.host - 32);
    Powers();
    DropTwice(a.value, 32, n.host - 32);
    DivisionIsUnique(0xFFFF, Pow2(n.host - 32), 0, 0xFFFF);
  }

  lemma MappedIsNoTransition(a: Address)
    requires Contains(MAPPED, a)
    ensures !Listed(DEMO_TRANSITION, a)
  {
    MappedIsNotInLarger(a, Network(6, 112, 0x2002));
    MappedIsNotInLarger(a, Network(6, 96, 0x2001_0000));
    assert !Contains(Network(6, 32, 0x64_ff9b_0000_0000_0000_0000), a);
    assert forall n | n in DEMO_TRANSITION :: !Contains(n, a);
  }

  /** So an accepted demo block holds no transition address, and an IPv4 one whose
      first end is not public is private throughout. */
  lemma AcceptedBlocksHideNothing(rt: Runtime, block: Network, a: Address)
    requires block.version in {4, 6} && ResolveSubnet(true, rt, block).Ok? && Contains(block, a)
    ensures !Listed(DEMO_TRANSITION, a)
    ensures block.version == 4 && !Public4(First(block)) ==> Listed(DEMO_PRIVATE, a)
  {
    EndsDecideWholeBlock(rt, block);
    EndsDecideDemoLists(block, a);
    EndsAreInside(block);
    if block.version == 6 && Contains(MAPPED, a) {
      MappedIsNoTransition(a);
    }
  }
}
