/** The vocabulary shared by the cache and the protocol engine: identifiers, line states, opcodes. */
module ChiTypes {
  const SNOOP_ID_BASE: nat := 10000
  const MEM_ID_BASE: nat := 20000
  const ID_LIMIT: nat := 0x1_0000_0000

  type NodeID = n: nat | n < 0x1_0000
  type TxnID = n: nat | n < 0x1_0000_0000
  type Addr = n: nat | n < 0x1_0000_0000_0000_0000

  /** A 64-byte line number: an address without its six offset bits. */
  type LineNo = nat

  /** The payload of one cache line. */
  type Data = d: seq<bv8> | |d| == 64 witness seq(64, i => 0)

  function ZeroData(): Data { seq(64, i => 0) }

  datatype Option<+T> = None | Some(value: T)

  datatype LineState = I | UC | SC | UD | SD

  predicate Dirty(s: LineState) { s == UD || s == SD }

  predicate Shared(s: LineState) { s == SC || s == SD }

  predicate Unique(s: LineState) { s == UC || s == UD }

  /** Opcodes a request can carry. `Other` stands for every opcode without a handler of its own. */
  datatype Opcode =
    | ReadShared | ReadUnique | CleanUnique | WriteBackFull | ReadNotSharedDirty
    | WriteUniqueFull | WriteEvictFull | ReadOnce | ReadNoSnp | WriteNoSnp | Other

  datatype Txn = Txn(txnID: TxnID, opcode: Opcode, addr: Addr, src: NodeID)

  /** What the directory knows about one resident line. */
  datatype Line = Line(state: LineState, data: Data, sharers: set<NodeID>)

  function LineOf(addr: Addr): LineNo { addr / 64 }

  /** The counters are 32-bit unsigned: they wrap. */
  function NextId(id: TxnID): TxnID { if id + 1 == ID_LIMIT then 0 else id + 1 }

  // ---------- ordered sets: the source keeps sharers in a std::set, which iterates in ascending order ----------

  predicate IsLeast(m: NodeID, s: set<NodeID>) { m in s && forall x <- s :: m <= x }

  lemma {:induction false} LeastExists(s: set<NodeID>)
    requires s != {}
    ensures exists m :: IsLeast(m, s)
  {
    var y :| y in s;
    if s == {y} {
      assert IsLeast(y, s);
    } else {
      LeastExists(s - {y});
      var m :| IsLeast(m, s - {y});
      assert forall x <- s :: x == y || x in s - {y};
      assert IsLeast(if m <= y then m else y, s);
    }
  }

  function Least(s: set<NodeID>): (m: NodeID)
    requires s != {}
    ensures IsLeast(m, s)
  {
    LeastExists(s);
    var m :| IsLeast(m, s);
    m
  }

  ghost predicate Increasing(order: seq<NodeID>) {
    forall i, j :: 0 <= i < j < |order| ==> order[i] < order[j]
  }

  /** A least member in front of an ordering of the rest makes an ordering of the whole. */
  lemma LeastFirst(s: set<NodeID>, m: NodeID, rest: seq<NodeID>)
    requires IsLeast(m, s) && Increasing(rest) && |rest| == |s - {m}|
    requires forall x :: x in rest <==> x in s - {m}
    ensures |[m] + rest| == |s| && Increasing([m] + rest)
    ensures forall x :: x in [m] + rest <==> x in s
  {
    var order := [m] + rest;
    forall i, j | 0 <= i < j < |order| ensures order[i] < order[j] {
      assert order[j] == rest[j - 1] && rest[j - 1] in s - {m};
      assert i > 0 ==> order[i] == rest[i - 1];
    }
  }

  /** The members of `s` in iteration order. */
  function Ascending(s: set<NodeID>): (order: seq<NodeID>)
    ensures |order| == |s|
    ensures forall x :: x in order <==> x in s
    ensures Increasing(order)
  {
    if s == {} then [] else
      var m := Least(s);
      LeastFirst(s, m, Ascending(s - {m}));
      [m] + Ascending(s - {m})
  }
}
