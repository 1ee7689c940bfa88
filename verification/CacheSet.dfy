/** One associative set: tag search, free-way search and LRU ranks, as values and as the in-place class. */
module CacheSets {
  import opened ChiTypes

  /** A way: its tag and the line body stored under it. */
  datatype CacheLine = CacheLine(tag: nat, body: Line) {
    predicate Valid() { body.state != I }
  }

  function EmptyLine(): CacheLine { CacheLine(0, Line(I, ZeroData(), {})) }

  /** Nothing is left in the way. */
  ghost predicate IsBlank(line: CacheLine) {
    && line.tag == 0 && line.body.state == I && line.body.sharers == {}
    && forall i :: 0 <= i < 64 ==> line.body.data[i] == 0
  }

  /** The value of a set: its ways and, for every way, its LRU rank (the highest rank is most recent). */
  datatype SetValue = SetValue(lines: seq<CacheLine>, lru: seq<int>)

  predicate Matches(line: CacheLine, tag: nat) { line.Valid() && line.tag == tag }

  /** First way at or after `i` that holds `tag`, or -1. */
  function FindTag(lines: seq<CacheLine>, tag: nat, i: nat := 0): (way: int)
    requires i <= |lines|
    ensures way == -1 || i <= way < |lines|
    ensures way >= 0 ==> Matches(lines[way], tag)
    ensures forall j :: i <= j < (if way < 0 then |lines| else way) ==> !Matches(lines[j], tag)
    decreases |lines| - i
  {
    if i == |lines| then -1 else if Matches(lines[i], tag) then i else FindTag(lines, tag, i + 1)
  }

  /** First free way at or after `i`, or -1. */
  function FindFree(lines: seq<CacheLine>, i: nat := 0): (way: int)
    requires i <= |lines|
    ensures way == -1 || i <= way < |lines|
    ensures way >= 0 ==> !lines[way].Valid()
    ensures forall j :: i <= j < (if way < 0 then |lines| else way) ==> lines[j].Valid()
    decreases |lines| - i
  {
    if i == |lines| then -1 else if !lines[i].Valid() then i else FindFree(lines, i + 1)
  }

  /** The way among the first `n` with the lowest rank; the last of them should ranks be equal. */
  function Victim(lru: seq<int>, n: nat): (way: nat)
    requires 1 <= n <= |lru|
    ensures way < n
    ensures forall j :: 0 <= j < n ==> lru[way] <= lru[j]
    ensures forall j :: way < j < n ==> lru[way] < lru[j]
  {
    if n == 1 then 0
    else
      var best := Victim(lru, n - 1);
      if lru[n - 1] <= lru[best] then n - 1 else best
  }

  /** Moves `way` to the top rank and closes the gap it leaves. */
  function Touched(lru: seq<int>, way: nat): (r: seq<int>)
    requires way < |lru|
    ensures |r| == |lru|
  {
    seq(|lru|, j requires 0 <= j < |lru| =>
      if j == way then |lru| - 1 else if lru[j] > lru[way] then lru[j] - 1 else lru[j])
  }

  function InitialRanks(ways: nat): (r: seq<int>)
    ensures |r| == ways
  {
    seq(ways, i => i)
  }

  /** The ranks are a permutation of 0..n-1. */
  ghost predicate Ranked(lru: seq<int>) {
    && (forall i :: 0 <= i < |lru| ==> 0 <= lru[i] < |lru|)
    && (forall i, j :: 0 <= i < j < |lru| ==> lru[i] != lru[j])
  }

  class CacheSet {
    const numWays: nat
    const lines: array<CacheLine>
    const lru: array<int>

    ghost predicate Valid() {
      lines.Length == numWays && lru.Length == numWays
    }

    ghost function State(): SetValue
      reads lines, lru
    {
      SetValue(lines[..], lru[..])
    }

    constructor (ways: nat)
      ensures Valid() && numWays == ways && fresh(lines) && fresh(lru)
      ensures State() == SetValue(seq(ways, i => EmptyLine()), InitialRanks(ways))
      ensures forall w :: 0 <= w < ways ==> IsBlank(lines[w]) && lru[w] == w
    {
      numWays := ways;
      lines := new CacheLine[ways](i => EmptyLine());
      lru := new int[ways](i => i);
      new;
      assert lines[..] == seq(ways, i => EmptyLine());
      assert lru[..] == InitialRanks(ways);
      assert forall w :: 0 <= w < ways ==> lines[w] == EmptyLine();
    }

    method Lookup(tag: nat) returns (way: int)
      requires Valid()
      ensures way == FindTag(lines[..], tag)
    {
      for i := 0 to numWays
        invariant forall j :: 0 <= j < i ==> !Matches(lines[..][j], tag)
      {
        if lines[i].Valid() && lines[i].tag == tag {
          assert Matches(lines[..][i], tag);
          return i;
        }
      }
      return -1;
    }

    method Touch(way: nat)
      requires Valid() && way < numWays
      modifies lru
      ensures Valid()
      ensures lru[..] == Touched(old(lru[..]), way)
    {
      var was := lru[way];
      for j := 0 to numWays
        invariant forall k :: 0 <= k < j ==>
                    lru[k] == if old(lru[k]) > was then old(lru[k]) - 1 else old(lru[k])
        invariant forall k :: j <= k < numWays ==> lru[k] == old(lru[k])
      {
        if lru[j] > was {
          lru[j] := lru[j] - 1;
        }
      }
      lru[way] := numWays - 1;
      assert lru[..] == Touched(old(lru[..]), way);
    }

    method VictimWay() returns (way: nat)
      requires Valid() && numWays >= 1
      ensures way == Victim(lru[..], numWays)
    {
      way := 0;
      for i := 1 to numWays
        invariant way == Victim(lru[..], i)
      {
        if lru[i] <= lru[way] {
          way := i;
        }
      }
    }

    method FindInvalid() returns (way: int)
      requires Valid()
      ensures way == FindFree(lines[..])
    {
      for i := 0 to numWays
        invariant forall j :: 0 <= j < i ==> lines[..][j].Valid()
      {
        if !lines[i].Valid() {
          assert !lines[..][i].Valid();
          return i;
        }
      }
      return -1;
    }
  }
}
