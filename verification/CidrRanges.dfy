/** The target policy written out: which IPv4 addresses demo mode allows, range by
    range, and which IPv6 ones, prefix by prefix (app/modules/scans/targets.py). */
module CidrRanges {
  import opened Wrappers
  import opened Cidr

  /** The address a.b.c.d as a number. */
  function Dotted(a: nat, b: nat, c: nat, d: nat): nat {
    ((a * 256 + b) * 256 + c) * 256 + d
  }

  predicate From(low: nat, a: Address, high: nat) {
    low <= a.value <= high
  }

  lemma InNetwork(n: Network, a: Address)
    requires n.version == a.version == 4 && n.host in {0, 1, 8, 16, 17, 20, 22, 24, 28}
    ensures Contains(n, a) <==> n.prefix * Pow2(n.host) <= a.value <= n.prefix * Pow2(n.host) + Pow2(n.host) - 1
  {
    ContainsIffBetween(n, a);
  }

  lemma DeniedRanges(a: Address)
    requires a.version == 4
    ensures Listed(DENIED4 + DENIED4_SMALL, a) <==>
            || From(Dotted(127, 0, 0, 0), a, Dotted(127, 255, 255, 255))
            || From(Dotted(169, 254, 0, 0), a, Dotted(169, 254, 255, 255))
            || From(Dotted(224, 0, 0, 0), a, Dotted(255, 255, 255, 255)) || a.value == 0
  {
    Powers();
    ListedConcat(DENIED4, DENIED4_SMALL, a);
    SmallValues4(a);
    InNetwork(DENIED4[0], a);
    InNetwork(DENIED4[1], a);
    InNetwork(DENIED4[2], a);
    InNetwork(DENIED4[3], a);
  }

  lemma DemoRanges(a: Address)
    requires a.version == 4
    ensures Listed(DEMO_PRIVATE, a) <==>
            || From(Dotted(10, 0, 0, 0), a, Dotted(10, 255, 255, 255))
            || From(Dotted(172, 16, 0, 0), a, Dotted(172, 31, 255, 255))
            || From(Dotted(192, 168, 0, 0), a, Dotted(192, 168, 255, 255))
  {
    Powers();
    InNetwork(DEMO_PRIVATE[0], a);
    InNetwork(DEMO_PRIVATE[1], a);
    InNetwork(DEMO_PRIVATE[2], a);
    assert !Contains(DEMO_PRIVATE[3], a);
  }

  /** Private in the sense of the host language, the three ranges of demo mode apart. */
  predicate Special(a: Address) {
    || From(Dotted(0, 0, 0, 0), a, Dotted(0, 255, 255, 255))
    || From(Dotted(127, 0, 0, 0), a, Dotted(127, 255, 255, 255))
    || From(Dotted(169, 254, 0, 0), a, Dotted(169, 254, 255, 255))
    || From(Dotted(192, 0, 0, 0), a, Dotted(192, 0, 0, 255)) || From(Dotted(192, 0, 2, 0), a, Dotted(192, 0, 2, 255))
    || From(Dotted(198, 18, 0, 0), a, Dotted(198, 19, 255, 255))
    || From(Dotted(198, 51, 100, 0), a, Dotted(198, 51, 100, 255))
    || From(Dotted(203, 0, 113, 0), a, Dotted(203, 0, 113, 255))
    || From(Dotted(240, 0, 0, 0), a, Dotted(255, 255, 255, 255))
  }

  lemma PrivateRanges(a: Address)
    requires a.version == 4
    ensures Listed(PRIVATE4, a) <==> Special(a) || Listed(DEMO_PRIVATE, a)
  {
    Powers();
    DemoRanges(a);
    forall i | 0 <= i < |PRIVATE4|
      ensures Contains(PRIVATE4[i], a)
              <==> PRIVATE4[i].prefix * Pow2(PRIVATE4[i].host) <= a.value
                   <= PRIVATE4[i].prefix * Pow2(PRIVATE4[i].host) + Pow2(PRIVATE4[i].host) - 1
    {
      InNetwork(PRIVATE4[i], a);
    }
    EachPrivateRange(a);
  }

  lemma EachPrivateRange(a: Address)
    requires a.version == 4
    ensures Listed(PRIVATE4, a) <==>
            || Contains(PRIVATE4[0], a) || Contains(PRIVATE4[1], a) || Contains(PRIVATE4[2], a) || Contains(PRIVATE4[3], a)
            || Contains(PRIVATE4[4], a) || Contains(PRIVATE4[5], a) || Contains(PRIVATE4[6], a) || Contains(PRIVATE4[7], a)
            || Contains(PRIVATE4[8], a) || Contains(PRIVATE4[9], a) || Contains(PRIVATE4[10], a) || Contains(PRIVATE4[11], a)
  {
  }

  /** In demo mode an IPv4 address is a target exactly if it is in one of the three
      private ranges, or is neither special, nor shared, nor multicast; two
      addresses of 192.0.0.0/24 are global all the same. */
  lemma AllowedFour(rt: Runtime, a: Address)
    requires a.version == 4
    ensures AllowedAddress(rt, a) <==>
            || From(Dotted(10, 0, 0, 0), a, Dotted(10, 255, 255, 255))
            || From(Dotted(172, 16, 0, 0), a, Dotted(172, 31, 255, 255))
            || From(Dotted(192, 168, 0, 0), a, Dotted(192, 168, 255, 255))
            || From(Dotted(192, 0, 0, 9), a, Dotted(192, 0, 0, 10))
            || (&& !Special(a) && !From(Dotted(100, 64, 0, 0), a, Dotted(100, 127, 255, 255))
                && !From(Dotted(224, 0, 0, 0), a, Dotted(255, 255, 255, 255)))
  {
    Powers();
    DeniedRanges(a);
    DemoRanges(a);
    PrivateRanges(a);
    SmallValues4(a);
    ListedConcat(PRIVATE4, PRIVATE4_SMALL, a);
    InNetwork(SHARED4[0], a);
  }

  /** The prefixes that `is_private` knows, in IPv6. */
  lemma PrivateSix(rt: Runtime, a: Address)
    ensures Listed(Private6(rt), a) <==> Listed(PRIVATE6, a) || (rt.documentation && Listed(DOCUMENTATION6, a))
  {
    ListedConcat(PRIVATE6, DOCUMENTATION6, a);
    assert PRIVATE6 + [] == PRIVATE6;
  }

  predicate Begins(a: Address, prefix: nat, host: nat) {
    a.value / Pow2(host) == prefix
  }

  /** In demo mode an IPv6 address is a target only outside 2002::/16, 64:ff9b::/96 and
      2001::/32, unless it is judged by the IPv4 address it embeds; and then exactly if
      it is not denied and is global or in fc00::/7. */
  lemma AllowedSix(rt: Runtime, a: Address)
    requires a.version == 6
    ensures rt.mapped && Begins(a, 0xFFFF, 32) ==>
              (AllowedAddress(rt, a) <==> Public4(Address(4, a.value % Pow2(32))))
    ensures !(rt.mapped && Begins(a, 0xFFFF, 32)) ==>
              (AllowedAddress(rt, a) <==>
               && !Begins(a, 0x2002, 112) && !Begins(a, 0x64_ff9b_0000_0000_0000_0000, 32) && !Begins(a, 0x2001_0000, 96)
               && !Listed(DENIED6 + DENIED6_SMALL, a)
               && (|| Begins(a, 0x7E, 121) || Listed(EXCEPTIONS6 + EXCEPTIONS6_SMALL, a)
                   || (!Listed(PRIVATE6 + PRIVATE6_SMALL, a) && !(rt.documentation && Begins(a, 0x3FFF0, 108)))))
  {
    TransitionPrefixes(a);
    DemoPrefix(a);
    NotPrivateSix(rt, a);
  }

  lemma DemoPrefix(a: Address)
    requires a.version == 6
    ensures Listed(DEMO_PRIVATE, a) <==> Begins(a, 0x7E, 121)
  {
    assert !Contains(DEMO_PRIVATE[0], a) && !Contains(DEMO_PRIVATE[1], a) && !Contains(DEMO_PRIVATE[2], a);
    assert Contains(DEMO_PRIVATE[3], a) <==> Begins(a, 0x7E, 121);
  }

  lemma NotPrivateSix(rt: Runtime, a: Address)
    requires a.version == 6
    ensures !Listed(Private6(rt) + PRIVATE6_SMALL, a)
            <==> !Listed(PRIVATE6 + PRIVATE6_SMALL, a) && !(rt.documentation && Begins(a, 0x3FFF0, 108))
  {
    assert Listed(DOCUMENTATION6, a) <==> Begins(a, 0x3FFF0, 108) by {
      assert Contains(DOCUMENTATION6[0], a) <==> Begins(a, 0x3FFF0, 108);
    }
    PrivateSix(rt, a);
    ListedConcat(Private6(rt), PRIVATE6_SMALL, a);
    ListedConcat(PRIVATE6, PRIVATE6_SMALL, a);
  }

  lemma TransitionPrefixes(a: Address)
    requires a.version == 6
    ensures Listed(DEMO_TRANSITION, a) <==>
            Begins(a, 0x2002, 112) || Begins(a, 0x64_ff9b_0000_0000_0000_0000, 32) || Begins(a, 0x2001_0000, 96)
  {
    assert Contains(DEMO_TRANSITION[0], a) <==> Begins(a, 0x2002, 112);
    assert Contains(DEMO_TRANSITION[1], a) <==> Begins(a, 0x64_ff9b_0000_0000_0000_0000, 32);
    assert Contains(DEMO_TRANSITION[2], a) <==> Begins(a, 0x2001_0000, 96);
  }

  /** The two addresses that are global inside a special range. */
  predicate Exempt(a: Address) {
    From(Dotted(192, 0, 0, 9), a, Dotted(192, 0, 0, 10))
  }

  /** Private: special or in one of the three ranges. */
  predicate Private(a: Address) {
    || Special(a) || From(Dotted(10, 0, 0, 0), a, Dotted(10, 255, 255, 255))
    || From(Dotted(172, 16, 0, 0), a, Dotted(172, 31, 255, 255))
    || From(Dotted(192, 168, 0, 0), a, Dotted(192, 168, 255, 255))
  }

  lemma PrivateFour(a: Address)
    requires a.version == 4
    ensures Listed(PRIVATE4 + PRIVATE4_SMALL, a) <==> Private(a)
    ensures Listed(EXCEPTIONS4_SMALL, a) <==> Exempt(a)
  {
    PrivateRanges(a);
    DemoRanges(a);
    SmallValues4(a);
    ListedConcat(PRIVATE4, PRIVATE4_SMALL, a);
  }

  /** Which IPv4 addresses are global, and how an IPv6 one that embeds an IPv4 address
      is judged: by that address, or by its privacy alone. */
  lemma GlobalFour(rt: Runtime, a: Address)
    ensures a.version == 4 ==>
              (GlobalAddress(rt, a) <==>
               !From(Dotted(100, 64, 0, 0), a, Dotted(100, 127, 255, 255)) && (!Private(a) || Exempt(a)))
    ensures a.version == 6 && Begins(a, 0xFFFF, 32) ==>
              var inner := Address(4, a.value % Pow2(32));
              GlobalAddress(rt, a) <==> if rt.mapped then GlobalAddress(rt, inner) else !Private(inner) || Exempt(inner)
    ensures a.version == 6 && !Begins(a, 0xFFFF, 32) ==>
              (GlobalAddress(rt, a) <==>
               || Listed(EXCEPTIONS6 + EXCEPTIONS6_SMALL, a)
               || (!Listed(PRIVATE6 + PRIVATE6_SMALL, a) && !(rt.documentation && Begins(a, 0x3FFF0, 108))))
  {
    Powers();
    if a.version == 4 {
      PrivateFour(a);
      InNetwork(SHARED4[0], a);
    } else if Begins(a, 0xFFFF, 32) {
      PrivateFour(Address(4, a.value % Pow2(32)));
    } else {
      if a.version == 6 {
        NotPrivateSix(rt, a);
      }
    }
  }

  /** Which subnets are targets: at most 256 addresses; in demo mode both ends allowed,
      otherwise global as a network. */
  lemma ResolvedIff(demo: bool, rt: Runtime, block: Network)
    ensures ResolveSubnet(demo, rt, block).Ok? <==>
            block.host <= 8 && if demo then AllowedAddress(rt, First(block)) && AllowedAddress(rt, Last(block))
                               else GlobalNetwork(rt, block)
    ensures ResolveSubnet(demo, rt, block).Ok? ==> ResolveSubnet(demo, rt, block).value == block
    ensures ResolveSubnet(demo, rt, block).Err? ==>
              ResolveSubnet(demo, rt, block).error == if block.host > 8 then TooLarge else NotGlobal
  {
    SmallBlocks(block);
  }
}
