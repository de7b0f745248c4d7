/** Outside demo mode a subnet is accepted if the network is global
    (app/modules/scans/targets.py), which the host language decides by its two ends.
    Which accepted blocks hold an address that is not global. */
module CidrGlobal {
  import opened Wrappers
  import opened Cidr

  /** 192.0.0.8/31 and 192.0.0.10/31, each with one of the two exceptions at an end. */
  const HIDING4 := [Network(4, 1, 0x6000_0004), Network(4, 1, 0x6000_0005)]

  /** 2001:1::/127 and 2001:1::2/127 likewise. */
  const BESIDE_EXCEPTION6: nat := 0x2001_0001 * Pow2(95)

  /** The blocks that start with the unspecified and the loopback address, which share
      no private network, are the others. */
  predicate Hiding(block: Network) {
    || block in HIDING4
    || block == Network(6, 1, BESIDE_EXCEPTION6) || block == Network(6, 1, BESIDE_EXCEPTION6 + 1)
    || (block.version == 6 && block.prefix == 0 && 1 <= block.host <= 8)
  }

  // ---- Ends ----

  lemma BothInIsListed(networks: seq<Network>, block: Network)
    requires AtLeast(networks, block.host)
    ensures BothIn(networks, block) <==> Listed(networks, First(block))
  {
    EndsAreInside(block);
    if i :| 0 <= i < |networks| && Contains(networks[i], First(block)) {
      NestedOrDisjoint(block, networks[i], First(block), Last(block));
    }
  }

  lemma BothInConcat(n: seq<Network>, m: seq<Network>, block: Network)
    ensures BothIn(n + m, block) <==> BothIn(n, block) || BothIn(m, block)
  {
    if i :| 0 <= i < |n| && Contains(n[i], First(block)) && Contains(n[i], Last(block)) {
      assert Contains((n + m)[i], First(block)) && Contains((n + m)[i], Last(block));
    }
    if i :| 0 <= i < |m| && Contains(m[i], First(block)) && Contains(m[i], Last(block)) {
      assert Contains((n + m)[|n| + i], First(block)) && Contains((n + m)[|n| + i], Last(block));
    }
  }

  lemma BothInNeedsFirst(networks: seq<Network>, block: Network)
    requires BothIn(networks, block)
    ensures Listed(networks, First(block)) && Listed(networks, Last(block))
  {
  }

  /** A multiple of the block's size below and above it. */
  lemma QuarterEnds(block: Network)
    requires block.host >= 2
    ensures First(block).value % 4 == 0 && Last(block).value % 4 == 3
  {
    var quarter := Pow2(block.host - 2);
    assert Pow2(block.host) == 2 * Pow2(block.host - 1) == 4 * quarter;
    QuarterProduct(block.prefix, quarter);
  }

  lemma QuarterProduct(x: nat, quarter: nat)
    requires quarter > 0
    ensures (x * (4 * quarter)) % 4 == 0 && (x * (4 * quarter) + 4 * quarter - 1) % 4 == 3
  {
    assert x * (4 * quarter) == 4 * (x * quarter);
    assert x * (4 * quarter) + 4 * quarter - 1 == 4 * (x * quarter + quarter - 1) + 3;
  }

  /** A block with one of two neighbours at an end, the first odd of the form 4k + 1,
      that holds more than the two, is a pair. */
  lemma PairBeside(block: Network, first: nat, a: Address)
    requires first % 4 == 1 && Contains(block, a) && !Isolated(first, a)
    requires Isolated(first, First(block)) || Isolated(first, Last(block))
    ensures block.host == 1 && (2 * block.prefix == first - 1 || 2 * block.prefix == first + 1)
  {
    ContainsIffBetween(block, a);
    if block.host >= 2 {
      QuarterEnds(block);
    }
    assert block.host == 0 ==> First(block) == Last(block);
    assert block.host == 1 ==> Pow2(block.host) == 2;
  }

  // ---- Version 4 ----

  lemma Global4Is(a: Address)
    requires a.version == 4
    ensures Global4(a) <==> !Listed(SHARED4, a) && (!Listed(PRIVATE4, a) || Isolated(EXCEPTION4, a))
  {
    SmallNetworks4(a);
    SmallValues4(a);
    ListedConcat(PRIVATE4, PRIVATE4_SMALL, a);
  }

  lemma GlobalNetwork4Is(rt: Runtime, block: Network)
    requires block.version == 4 && block.host <= 8
    ensures GlobalNetwork(rt, block) <==>
            && !Listed(SHARED4, First(block))
            && (!Listed(PRIVATE4, First(block)) || Isolated(EXCEPTION4, First(block)) || Isolated(EXCEPTION4, Last(block)))
  {
    BothInIsListed(SHARED4, block);
    BothInIsListed(PRIVATE4, block);
    BothInConcat(PRIVATE4, PRIVATE4_SMALL, block);
    SmallValues4(First(block));
    SmallValues4(Last(block));
    if BothIn(PRIVATE4_SMALL, block) {
      BothInNeedsFirst(PRIVATE4_SMALL, block);
      SmallNetworks4(First(block));
    }
  }

  lemma Hides4(rt: Runtime, block: Network, a: Address)
    requires block.version == 4 && block.host <= 8 && Contains(block, a) && !Global4(a) && GlobalNetwork(rt, block)
    ensures block in HIDING4
  {
    Global4Is(a);
    GlobalNetwork4Is(rt, block);
    EndsAreInside(block);
    LargeListsAreUniform(block, a, First(block));
    PairBeside(block, EXCEPTION4, a);
    assert block == HIDING4[0] || block == HIDING4[1];
  }

  /** The neighbour of the exception in a hiding pair. */
  lemma Hidden4(rt: Runtime, block: Network) returns (a: Address)
    requires block in HIDING4
    ensures Contains(block, a) && !Global4(a) && GlobalNetwork(rt, block)
  {
    a := if block == HIDING4[0] then First(block) else Last(block);
    EndsAreInside(block);
    Powers();
    assert a.value == 0xC000_0008 || a.value == 0xC000_000B;
    Concrete4(a, 5);
    LargeListsAreUniform(block, a, First(block));
    assert !Contains(SHARED4[0], a);
    Global4Is(a);
    GlobalNetwork4Is(rt, block);
  }

  // ---- Version 6 ----

  lemma SmallValues6(a: Address)
    requires a.version == 6
    ensures Listed(PRIVATE6_SMALL, a) <==> a.value <= 1
    ensures Listed(EXCEPTIONS6_SMALL, a) <==> Isolated(EXCEPTION6, a)
  {
    assert Pow2(0) == 1;
    assert Contains(PRIVATE6_SMALL[0], a) || Contains(PRIVATE6_SMALL[1], a) <==> a.value <= 1;
    assert Contains(EXCEPTIONS6_SMALL[0], a) <==> a.value == EXCEPTION6;
    assert Contains(EXCEPTIONS6_SMALL[1], a) <==> a.value == EXCEPTION6 + 1;
  }

  predicate Excepted6(a: Address) {
    Listed(EXCEPTIONS6, a) || Isolated(EXCEPTION6, a)
  }

  lemma Global6Is(rt: Runtime, a: Address)
    requires a.version == 6
    ensures Global6(rt, a) <==> (!Listed(Private6(rt), a) && a.value > 1) || Excepted6(a)
  {
    SmallValues6(a);
    ListedConcat(Private6(rt), PRIVATE6_SMALL, a);
    ListedConcat(EXCEPTIONS6, EXCEPTIONS6_SMALL, a);
  }

  lemma GlobalNetwork6Is(rt: Runtime, block: Network)
    requires block.version == 6 && block.host <= 8
    ensures GlobalNetwork(rt, block) <==>
            || (!Listed(Private6(rt), First(block)) && !(block.host == 0 && block.prefix <= 1))
            || Excepted6(First(block)) || Excepted6(Last(block))
  {
    assert AtLeast(Private6(rt), 8);
    BothInIsListed(Private6(rt), block);
    BothInConcat(Private6(rt), PRIVATE6_SMALL, block);
    SmallPair6(block);
    SmallValues6(First(block));
    SmallValues6(Last(block));
    ListedConcat(EXCEPTIONS6, EXCEPTIONS6_SMALL, First(block));
    ListedConcat(EXCEPTIONS6, EXCEPTIONS6_SMALL, Last(block));
  }

  /** Only a single address lies in one of the two networks of one address. */
  lemma SmallPair6(block: Network)
    requires block.version == 6
    ensures BothIn(PRIVATE6_SMALL, block) <==> block.host == 0 && block.prefix <= 1
  {
    assert Pow2(0) == 1;
    if BothIn(PRIVATE6_SMALL, block) {
      assert First(block) == Last(block);
      assert Pow2(block.host) == 1;
    }
    if block.host == 0 && block.prefix <= 1 {
      assert Contains(PRIVATE6_SMALL[block.prefix], First(block)) && Contains(PRIVATE6_SMALL[block.prefix], Last(block));
    }
  }

  /** Mapped addresses are no exceptions. */
  lemma MappedIsNotExcepted(a: Address)
    requires Contains(MAPPED, a)
    ensures !Excepted6(a)
  {
    forall i | 0 <= i < |EXCEPTIONS6| ensures !Contains(EXCEPTIONS6[i], a) {
      MappedIsNotInLarger(a, EXCEPTIONS6[i]);
    }
    if Isolated(EXCEPTION6, a) {
      ExceptionIsIn(a);
      MappedIsNotInLarger(a, Network(6, 96, 0x2001_0001));
    }
  }

  /** The addresses around the two small exceptions. */
  lemma ExceptionIsIn(a: Address)
    requires a.version == 6 && EXCEPTION6 - 1 <= a.value <= EXCEPTION6 + 2
    ensures Contains(Network(6, 96, 0x2001_0001), a)
  {
    PowersGrow(2, 96);
    assert Pow2(2) == 4;
    DivisionIsUnique(a.value, Pow2(96), 0x2001_0001, a.value - 0x2001_0001 * Pow2(96));
  }

  lemma MappedIsRejected(rt: Runtime, block: Network, a: Address)
    requires block.version == 6 && block.host <= 8 && Contains(block, a) && Contains(MAPPED, a)
    ensures Contains(MAPPED, First(block)) && !GlobalNetwork(rt, block)
  {
    EndsAreInside(block);
    NestedOrDisjoint(block, MAPPED, a, First(block));
    NestedOrDisjoint(block, MAPPED, a, Last(block));
    MappedIsNotExcepted(First(block));
    MappedIsNotExcepted(Last(block));
    assert Private6(rt)[0] == MAPPED;
    ListedAt(Private6(rt), 0, First(block));
    GlobalNetwork6Is(rt, block);
    assert block.host == 0 && block.prefix <= 1 ==> !Contains(MAPPED, First(block)) by {
      assert Pow2(0) == 1;
      if block.host == 0 && block.prefix <= 1 {
        LowIsNotMapped(First(block));
      }
    }
  }

  lemma LowIsNotMapped(a: Address)
    requires a.version == 6 && a.value <= 1
    ensures !Contains(MAPPED, a)
  {
    PowersGrow(1, 32);
    assert Pow2(1) == 2;
    DivisionIsUnique(a.value, Pow2(32), 0, a.value);
  }

  lemma Hides6(rt: Runtime, block: Network, a: Address)
    requires block.version == 6 && block.host <= 8 && Contains(block, a) && !GlobalAddress(rt, a) && GlobalNetwork(rt, block)
    ensures Hiding(block)
  {
    assert !Contains(MAPPED, a) by {
      if Contains(MAPPED, a) {
        MappedIsRejected(rt, block, a);
      }
    }
    Global6Is(rt, a);
    GlobalNetwork6Is(rt, block);
    EndsAreInside(block);
    LargeListsAreUniform(block, a, First(block));
    LargeListsAreUniform(block, a, Last(block));
    Private6IsUniform(rt, block, a, First(block));
    if Isolated(EXCEPTION6, First(block)) || Isolated(EXCEPTION6, Last(block)) {
      BesideException6(block, a);
    } else {
      LowBlock(block, a);
    }
  }

  lemma BesideException6(block: Network, a: Address)
    requires block.version == 6 && Contains(block, a) && !Isolated(EXCEPTION6, a)
    requires Isolated(EXCEPTION6, First(block)) || Isolated(EXCEPTION6, Last(block))
    ensures block == Network(6, 1, BESIDE_EXCEPTION6) || block == Network(6, 1, BESIDE_EXCEPTION6 + 1)
  {
    ExceptionForm();
    PairBeside(block, EXCEPTION6, a);
  }

  lemma ExceptionForm()
    ensures EXCEPTION6 % 4 == 1 && EXCEPTION6 == 2 * BESIDE_EXCEPTION6 + 1
  {
    var quarter := Pow2(94);
    assert Pow2(96) == 2 * Pow2(95) && Pow2(95) == 2 * quarter;
    FormOf(0x2001_0001, quarter);
  }

  lemma FormOf(top: nat, quarter: nat)
    ensures (top * (2 * (2 * quarter)) + 1) % 4 == 1 && top * (2 * (2 * quarter)) == 2 * (top * (2 * quarter))
  {
    assert top * (2 * (2 * quarter)) == 4 * (top * quarter);
    assert top * (2 * quarter) == 2 * (top * quarter);
  }

  /** A block with one of the two lowest addresses that is not that address alone. */
  lemma LowBlock(block: Network, a: Address)
    requires block.version == 6 && Contains(block, a) && a.value <= 1 && !(block.host == 0 && block.prefix <= 1)
    ensures block.prefix == 0 && block.host >= 1
  {
    assert Pow2(0) == 1 && Pow2(1) == 2;
    if block.host >= 1 {
      PowersGrow(1, block.host);
      DivisionIsUnique(a.value, Pow2(block.host), 0, a.value);
    }
  }

  /** The lowest address of a low block. */
  lemma HiddenLow(rt: Runtime, block: Network)
    requires block.version == 6 && block.prefix == 0 && 1 <= block.host <= 8
    ensures Contains(block, First(block)) && !GlobalAddress(rt, First(block)) && GlobalNetwork(rt, block)
  {
    var a := First(block);
    EndsAreInside(block);
    LowIsNotMapped(a);
    ZeroIsNowhere(Private6(rt), a);
    ZeroIsNowhere(EXCEPTIONS6, a);
    Global6Is(rt, a);
    GlobalNetwork6Is(rt, block);
  }

  lemma ZeroIsNowhere(networks: seq<Network>, a: Address)
    requires a.value == 0 && forall i | 0 <= i < |networks| :: networks[i].prefix > 0
    ensures !Listed(networks, a)
  {
    forall i | 0 <= i < |networks| ensures !Contains(networks[i], a) {
      DivisionIsUnique(0, Pow2(networks[i].host), 0, 0);
    }
  }

  /** The neighbour of the exception in a hiding pair. */
  lemma HiddenBeside(rt: Runtime, block: Network) returns (a: Address)
    requires block == Network(6, 1, BESIDE_EXCEPTION6) || block == Network(6, 1, BESIDE_EXCEPTION6 + 1)
    ensures Contains(block, a) && !GlobalAddress(rt, a) && GlobalNetwork(rt, block)
  {
    ExceptionForm();
    assert Pow2(1) == 2;
    a := if block.prefix == BESIDE_EXCEPTION6 then First(block) else Last(block);
    EndsAreInside(block);
    ExceptionIsIn(a);
    BesideIsPrivate(rt, a);
    if Contains(MAPPED, a) {
      MappedIsNotInLarger(a, Network(6, 96, 0x2001_0001));
    }
    Global6Is(rt, a);
    GlobalNetwork6Is(rt, block);
  }

  lemma BesideIsPrivate(rt: Runtime, a: Address)
    requires a.version == 6 && Contains(Network(6, 96, 0x2001_0001), a)
    ensures Listed(Private6(rt), a) && !Listed(EXCEPTIONS6, a)
  {
    DropTwice(a.value, 96, 9);
    assert Pow2(9) == 512;
    ListedAt(Private6(rt), 3, a);
    BesideIsNotExcepted(a);
  }

  lemma BesideIsNotExcepted(a: Address)
    requires a.version == 6 && Contains(Network(6, 96, 0x2001_0001), a)
    ensures !Listed(EXCEPTIONS6, a)
  {
    assert !Contains(EXCEPTIONS6[0], a);
    DropTwice(a.value, 96, 4);
    assert Pow2(4) == 16;
    assert !Contains(EXCEPTIONS6[2], a) && !Contains(EXCEPTIONS6[3], a);
    BesideIsNotInSecond(a);
  }

  lemma BesideIsNotInSecond(a: Address)
    requires a.version == 6 && Contains(Network(6, 96, 0x2001_0001), a)
    ensures !Contains(EXCEPTIONS6[1], a)
  {
    DropTwice(a.value, 80, 16);
    Powers();
  }

  // ---- Both ----

  /** Outside demo mode exactly these accepted blocks hold an address that is not global. */
  lemma HidesIff(rt: Runtime, block: Network)
    requires block.version in {4, 6}
    ensures ResolveSubnet(false, rt, block).Ok? && (exists a | Contains(block, a) :: !GlobalAddress(rt, a)) <==> Hiding(block)
  {
    SmallBlocks(block);
    if ResolveSubnet(false, rt, block).Ok? {
      if a :| Contains(block, a) && !GlobalAddress(rt, a) {
        if block.version == 4 {
          Hides4(rt, block, a);
        } else {
          Hides6(rt, block, a);
        }
      }
    }
    if Hiding(block) {
      var a := Hidden(rt, block);
    }
  }

  lemma Hidden(rt: Runtime, block: Network) returns (a: Address)
    requires Hiding(block)
    ensures block.host <= 8 && Contains(block, a) && !GlobalAddress(rt, a) && GlobalNetwork(rt, block)
  {
    if block in HIDING4 {
      a := Hidden4(rt, block);
    } else if block.prefix == 0 {
      a := First(block);
      HiddenLow(rt, block);
    } else {
      a := HiddenBeside(rt, block);
    }
  }

  /** And a block of global addresses is accepted exactly if they are not mapped ones. */
  lemma GlobalBlocksPass(rt: Runtime, block: Network)
    requires block.version in {4, 6} && Pow2(block.host) <= 256
    requires forall a | Contains(block, a) :: GlobalAddress(rt, a)
    ensures ResolveSubnet(false, rt, block).Ok? <==> !Contains(MAPPED, First(block))
  {
    SmallBlocks(block);
    EndsAreInside(block);
    if block.version == 4 {
      Global4Is(First(block));
      GlobalNetwork4Is(rt, block);
    } else if Contains(MAPPED, First(block)) {
      MappedIsRejected(rt, block, First(block));
    } else {
      Global6Is(rt, First(block));
      GlobalNetwork6Is(rt, block);
      assert block.host == 0 ==> First(block).value == block.prefix by {
        assert Pow2(0) == 1;
      }
    }
  }

  /** ::/120 is accepted, with the unspecified and the loopback address in it. */
  lemma LowestBlockIsAccepted(rt: Runtime)
    ensures var block := Network(6, 8, 0);
            && ResolveSubnet(false, rt, block).Ok?
            && Contains(block, Address(6, 0)) && !GlobalAddress(rt, Address(6, 0))
            && Contains(block, Address(6, 1)) && !GlobalAddress(rt, Address(6, 1))
  {
    var block := Network(6, 8, 0);
    Powers();
    HiddenLow(rt, block);
    assert First(block) == Address(6, 0);
    var a := Address(6, 1);
    LowIsNotMapped(a);
    ZeroIsNowhere(EXCEPTIONS6, First(block));
    EndsAreInside(block);
    assert Contains(block, a);
    LargeListsAreUniform(block, a, First(block));
    Global6Is(rt, a);
    ExceptionForm();
  }
}
