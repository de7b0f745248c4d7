/** The bounded readers of the scanner's pipes (app/modules/scans/nmap/runner.py)
    and the split of its addresses (app/modules/scans/nmap/command.py). */
module Streams {
  import opened Wrappers

  const CHUNK := 65536
  const TAIL := 4096

  /** A pipe that will still deliver `rest` and then end. */
  class StreamReader {
    var rest: seq<int>

    /** Up to `n` bytes, as many as are `ready`, at least one before the end. */
    method Read(n: nat, ready: nat) returns (chunk: seq<int>)
      requires n > 0
      modifies this
      ensures old(rest) == chunk + rest && |chunk| <= n
      ensures chunk == [] <==> old(rest) == []
    {
      var size := if ready == 0 then 1 else ready;
      size := if size > n then n else size;
      size := if size > |rest| then |rest| else size;
      chunk, rest := rest[..size], rest[size..];
    }
  }

  datatype RunError = OutputTooLarge

  /** `_stdout`: fails exactly when the pipe holds more than `cap` bytes, however
      they arrive, having taken at most one byte too many. */
  method ReadStdout(stream: StreamReader, cap: nat, ready: nat -> nat) returns (r: Result<seq<int>, RunError>)
    modifies stream
    ensures r == if |old(stream.rest)| > cap then Err(OutputTooLarge) else Ok(old(stream.rest))
    ensures |old(stream.rest)| - |stream.rest| <= cap + 1
  {
    var output: seq<int> := [];
    ghost var all := stream.rest;
    var round := 0;
    var chunk := stream.Read(Min(CHUNK, cap - |output| + 1), ready(round));
    while chunk != []
      invariant output + chunk + stream.rest == all && |output| <= cap
      invariant |output| + |chunk| <= cap + 1
      invariant chunk == [] ==> stream.rest == []
      decreases |chunk| + |stream.rest|
    {
      if |output| + |chunk| > cap {
        return Err(OutputTooLarge);
      }
      output := output + chunk;
      round := round + 1;
      chunk := stream.Read(Min(CHUNK, cap - |output| + 1), ready(round));
    }
    assert output == all;
    r := Ok(output);
  }

  function LastOf(s: seq<int>, n: nat): seq<int> {
    if |s| <= n then s else s[|s| - n..]
  }

  /** Keeping the end of the end is keeping the end. */
  lemma LastOfConcat(s: seq<int>, t: seq<int>, n: nat)
    ensures LastOf(LastOf(s, n) + t, n) == LastOf(s + t, n)
  {
  }

  /** `_stderr`: the last 4096 bytes of everything. */
  method ReadStderr(stream: StreamReader, ready: nat -> nat) returns (tail: seq<int>)
    modifies stream
    ensures tail == (if |old(stream.rest)| > 4096 then old(stream.rest)[|old(stream.rest)| - 4096..] else old(stream.rest))
    ensures stream.rest == []
  {
    tail := [];
    ghost var all, read: seq<int> := stream.rest, [];
    var round := 0;
    var chunk := stream.Read(CHUNK, ready(round));
    while chunk != []
      invariant read + chunk + stream.rest == all
      invariant tail == LastOf(read, TAIL)
      invariant chunk == [] ==> stream.rest == []
      decreases |chunk| + |stream.rest|
    {
      LastOfConcat(read, chunk, TAIL);
      tail := LastOf(tail + chunk, TAIL);
      read := read + chunk;
      round := round + 1;
      chunk := stream.Read(CHUNK, ready(round));
    }
    assert read == all;
  }

  // ---- Address families ----

  function Family(addresses: seq<string>, version: string -> int, v: int): seq<string> {
    if addresses == [] then []
    else (if version(addresses[0]) == v then [addresses[0]] else []) + Family(addresses[1..], version, v)
  }

  function NonEmpty(s: seq<string>): seq<seq<string>> {
    if s == [] then [] else [s]
  }

  /** `split_by_family`; every literal has been validated as version 4 or 6. */
  method SplitByFamily(addresses: seq<string>, version: string -> int) returns (groups: seq<seq<string>>)
    requires forall a | a in addresses :: version(a) == 4 || version(a) == 6
    ensures groups == NonEmpty(Family(addresses, version, 4)) + NonEmpty(Family(addresses, version, 6))
  {
    var four, six: seq<string> := [], [];
    for i := 0 to |addresses|
      invariant Family(addresses, version, 4) == four + Family(addresses[i..], version, 4)
      invariant Family(addresses, version, 6) == six + Family(addresses[i..], version, 6)
    {
      FamilyStep(addresses, i, version, 4, four);
      FamilyStep(addresses, i, version, 6, six);
      assert addresses[i] in addresses;
      if version(addresses[i]) == 4 {
        four := four + [addresses[i]];
      } else {
        six := six + [addresses[i]];
      }
    }
    assert four == Family(addresses, version, 4) && six == Family(addresses, version, 6);
    groups := NonEmpty(four) + NonEmpty(six);
  }

  lemma FamilyStep(addresses: seq<string>, n: nat, version: string -> int, v: int, found: seq<string>)
    requires n < |addresses|
    ensures found + Family(addresses[n..], version, v)
            == (if version(addresses[n]) == v then found + [addresses[n]] else found) + Family(addresses[n + 1..], version, v)
  {
    assert addresses[n..][1..] == addresses[n + 1..];
  }

  lemma {:induction false} FamilyMembers(addresses: seq<string>, version: string -> int, v: int)
    ensures forall a :: a in Family(addresses, version, v) <==> a in addresses && version(a) == v
  {
    if addresses != [] {
      FamilyMembers(addresses[1..], version, v);
    }
  }

  /** Within a family the addresses keep their order. */
  lemma {:induction false} FamilyKeepsOrder(addresses: seq<string>, more: seq<string>, version: string -> int, v: int)
    ensures Family(addresses + more, version, v) == Family(addresses, version, v) + Family(more, version, v)
  {
    if addresses == [] {
      assert addresses + more == more;
    } else {
      assert (addresses + more)[1..] == addresses[1..] + more;
      FamilyKeepsOrder(addresses[1..], more, version, v);
    }
  }

  lemma FamilyOfOne(address: string, version: string -> int, v: int)
    ensures Family([address], version, v) == if version(address) == v then [address] else []
  {
    var one: seq<string> := [address];
    assert one[1..] == [];
  }

  /** The two families lose and invent no address. */
  lemma {:induction false} FamiliesPartition(addresses: seq<string>, version: string -> int)
    requires forall a | a in addresses :: version(a) == 4 || version(a) == 6
    ensures multiset(Family(addresses, version, 4)) + multiset(Family(addresses, version, 6)) == multiset(addresses)
  {
    if addresses != [] {
      FamiliesPartition(addresses[1..], version);
      assert addresses == [addresses[0]] + addresses[1..];
    }
  }

  /** The command builder's check for more than one group finds exactly the mixes. */
  lemma MixedIffTwoGroups(addresses: seq<string>, version: string -> int)
    requires forall a | a in addresses :: version(a) == 4 || version(a) == 6
    ensures |NonEmpty(Family(addresses, version, 4)) + NonEmpty(Family(addresses, version, 6))| > 1
            <==> exists a, b | a in addresses && b in addresses :: version(a) != version(b)
  {
    FamilyMembers(addresses, version, 4);
    FamilyMembers(addresses, version, 6);
    var four, six := Family(addresses, version, 4), Family(addresses, version, 6);
    if four != [] && six != [] {
      assert four[0] in four && six[0] in six;
    }
  }
}
