/** The protocol engine object: its handlers, step by step, each proved to carry out the specified step. */
module ProtocolEngines {
  import opened ChiTypes
  import opened CacheStore
  import opened L2Caches
  import Spec = EngineSpec
  import opened EngineSpec

  // ---------- iterating over the sharers of a line ----------

  /** The visited nodes other than the requester, in order. */
  function Others(order: seq<NodeID>, req: NodeID): (r: seq<NodeID>)
    ensures forall x :: x in r <==> x in order && x != req
  {
    if order == [] then []
    else
      var rest := Others(order[..|order| - 1], req);
      if order[|order| - 1] == req then rest else rest + [order[|order| - 1]]
  }

  lemma OthersNext(order: seq<NodeID>, i: nat, req: NodeID)
    requires i < |order|
    ensures Others(order[..i + 1], req) ==
            if order[i] == req then Others(order[..i], req) else Others(order[..i], req) + [order[i]]
  {
    assert order[..i + 1][..i] == order[..i];
  }

  lemma {:induction false} OthersIncrease(order: seq<NodeID>, req: NodeID)
    requires Increasing(order)
    ensures Increasing(Others(order, req))
  {
    if order != [] {
      var rest := Others(order[..|order| - 1], req);
      OthersIncrease(order[..|order| - 1], req);
      assert forall i :: 0 <= i < |rest| ==> rest[i] in order[..|order| - 1];
    }
  }

  ghost predicate SameMembers(a: seq<NodeID>, b: seq<NodeID>) { forall x :: x in a <==> x in b }

  lemma LastsAgree(a: seq<NodeID>, b: seq<NodeID>)
    requires Increasing(a) && Increasing(b) && SameMembers(a, b) && a != []
    ensures b != [] && a[|a| - 1] == b[|b| - 1]
  {
    var x := a[|a| - 1];
    assert x in a && x in b;
    var y := b[|b| - 1];
    assert y in b && y in a;
  }

  lemma Inhabited(a: seq<NodeID>)
    ensures a != [] ==> exists x :: x in a
  {
    if a != [] { assert a[0] in a; }
  }

  lemma WithoutLast(a: seq<NodeID>, x: NodeID)
    requires Increasing(a) && a != []
    ensures Increasing(a[..|a| - 1]) && (x in a[..|a| - 1] <==> x in a && x != a[|a| - 1])
  {
  }

  lemma {:induction false} IncreasingUnique(a: seq<NodeID>, b: seq<NodeID>)
    requires Increasing(a) && Increasing(b) && SameMembers(a, b)
    ensures a == b
  {
    hide Increasing;
    if a == [] {
      Inhabited(b);
    } else {
      LastsAgree(a, b);
      var a', b' := a[..|a| - 1], b[..|b| - 1];
      forall z ensures z in a' <==> z in b' {
        WithoutLast(a, z);
        WithoutLast(b, z);
      }
      WithoutLast(a, 0);
      WithoutLast(b, 0);
      IncreasingUnique(a', b');
      assert a == a' + [a[|a| - 1]] && b == b' + [b[|b| - 1]];
    }
  }

  lemma OthersOfSharers(sharers: set<NodeID>, req: NodeID)
    ensures Others(Ascending(sharers), req) == Ascending(sharers - {req})
  {
    hide Increasing;
    OthersIncrease(Ascending(sharers), req);
    IncreasingUnique(Others(Ascending(sharers), req), Ascending(sharers - {req}));
  }

  lemma IssueNone(t: Tables, txn: Txn, kind: SnoopKind, order: seq<NodeID>, ret: bool)
    ensures IssueSnoops(t, txn, kind, Others(order[..0], txn.src), ret) == Issued(t, [])
  {
  }

  lemma IssueOneMore(t: Tables, txn: Txn, kind: SnoopKind, order: seq<NodeID>, node: NodeID, ret: bool)
    ensures var done := IssueSnoops(t, txn, kind, order, ret);
            IssueSnoops(t, txn, kind, order + [node], ret) == Issued(
              done.t.(snoopToOrig := done.t.snoopToOrig[done.t.nextSnoop := txn.txnID],
                      nextSnoop := NextId(done.t.nextSnoop)),
              done.actions + [SendSnoop(kind, txn.addr, done.t.nextSnoop, node, ret)])
  {
    assert (order + [node])[..|order + [node]| - 1] == order;
  }

  // ---------- short operation lists ----------

  lemma ApplyFirst(st: Store, l: LineNo, a: Op, rest: seq<Op>)
    requires ValidStore(st)
    ensures ApplyOps(st, l, [a] + rest) == ApplyOps(Apply(st, l, a), l, rest)
  {
    assert ([a] + rest)[1..] == rest;
  }

  lemma ApplyTwo(st: Store, l: LineNo, a: Op, b: Op)
    requires ValidStore(st)
    ensures ApplyOps(st, l, [a]) == Apply(st, l, a)
    ensures ApplyOps(st, l, [a, b]) == Apply(Apply(st, l, a), l, b)
  {
    ApplyFirst(st, l, a, []);
    ApplyFirst(st, l, a, [b]);
    assert [a] + [b] == [a, b] && [a] + [] == [a];
  }

  lemma ApplyFour(st: Store, l: LineNo, a: Op, b: Op, c: Op, d: Op)
    requires ValidStore(st)
    ensures ApplyOps(st, l, [a, b, c]) == Apply(Apply(Apply(st, l, a), l, b), l, c)
    ensures ApplyOps(st, l, [a, b, c, d]) == Apply(Apply(Apply(Apply(st, l, a), l, b), l, c), l, d)
  {
    var st' := Apply(st, l, a);
    ApplyTwo(Apply(st', l, b), l, c, d);
    ApplyTwo(st', l, b, c);
    ApplyFirst(st', l, b, [c, d]);
    ApplyFirst(st, l, a, [b, c]);
    ApplyFirst(st, l, a, [b, c, d]);
    assert [b] + [c, d] == [b, c, d] && [a] + [b, c] == [a, b, c] && [a] + [b, c, d] == [a, b, c, d];
  }

  lemma HasSets(st: Store)
    requires ValidStore(st)
    ensures |st.sets| >= 1
  {
  }

  class ChiProtocolEngine {
    const cache: L2Cache
    var pending: map<TxnID, PendingTxn>
    var snoopToOrig: map<TxnID, TxnID>
    var memToOrig: map<TxnID, TxnID>
    var snoopRespCounted: set<TxnID>
    var nextSnoopTxnId: TxnID
    var nextInternalTxnId: TxnID

    ghost predicate Valid()
      reads this, cache.Repr
    {
      this !in cache.Repr && cache.Valid()
    }

    ghost function Tables(): Spec.Tables
      reads this
    {
      Spec.Tables(pending, snoopToOrig, memToOrig, snoopRespCounted, nextSnoopTxnId, nextInternalTxnId)
    }

    ghost function Model(): Engine
      requires cache.Structured()
      reads this, cache.Repr
    {
      Engine(Tables(), cache.Model())
    }

    constructor (cache: L2Cache)
      requires cache.Valid()
      ensures Valid() && this.cache == cache && Tables() == INITIAL_TABLES
      ensures Model() == Engine(INITIAL_TABLES, cache.Model())
      ensures nextSnoopTxnId == 10000 && nextInternalTxnId == 20000
      ensures pending == map[] && snoopToOrig == map[] && memToOrig == map[] && snoopRespCounted == {}
    {
      this.cache := cache;
      pending, snoopToOrig, memToOrig, snoopRespCounted := map[], map[], map[], {};
      nextSnoopTxnId, nextInternalTxnId := SNOOP_ID_BASE, MEM_ID_BASE;
    }

    /** What a handler must have done: the specified tables, operations and actions, from the state before. */
    ghost predicate Did(was: Store, addr: Addr, out: Out, actions: seq<Action>)
      requires cache.Valid() && ValidStore(was)
      reads this, cache.Repr
    {
      && Tables() == out.t
      && cache.Model() == ApplyOps(was, LineOf(addr), out.ops)
      && actions == out.actions
    }

    method CountOthers(sharers: set<NodeID>, req: NodeID) returns (count: nat)
      ensures count == |sharers - {req}|
    {
      var order := Ascending(sharers);
      count := 0;
      for i := 0 to |order|
        invariant count == |Others(order[..i], req)|
      {
        if order[i] != req {
          count := count + 1;
        }
        OthersNext(order, i, req);
      }
      OthersOfSharers(sharers, req);
      assert order[..|order|] == order;
    }

    method SendOneSnoop(txn: Txn, kind: SnoopKind, node: NodeID, ret: bool) returns (a: Action)
      modifies this`snoopToOrig, this`nextSnoopTxnId
      ensures a == SendSnoop(kind, txn.addr, old(nextSnoopTxnId), node, ret)
      ensures Tables() == old(Tables()).(snoopToOrig := old(snoopToOrig)[old(nextSnoopTxnId) := txn.txnID],
                                         nextSnoop := NextId(old(nextSnoopTxnId)))
    {
      var snoopId := nextSnoopTxnId;
      nextSnoopTxnId := NextId(nextSnoopTxnId);
      snoopToOrig := snoopToOrig[snoopId := txn.txnID];
      a := SendSnoop(kind, txn.addr, snoopId, node, ret);
    }

    method SendSnoops(txn: Txn, kind: SnoopKind, sharers: set<NodeID>, ret: bool) returns (actions: seq<Action>)
      modifies this`snoopToOrig, this`nextSnoopTxnId
      ensures var issued := IssueSnoops(old(Tables()), txn, kind, Ascending(sharers - {txn.src}), ret);
              Tables() == issued.t && actions == issued.actions
    {
      hide IssueSnoops, Others, Ascending;
      var order := Ascending(sharers);
      ghost var was := Tables();
      IssueNone(was, txn, kind, order, ret);
      ghost var done := Issued(was, []);
      actions := [];
      for i := 0 to |order|
        invariant done == IssueSnoops(was, txn, kind, Others(order[..i], txn.src), ret)
        invariant Tables() == done.t && actions == done.actions
      {
        OthersNext(order, i, txn.src);
        if order[i] != txn.src {
          IssueOneMore(was, txn, kind, Others(order[..i], txn.src), order[i], ret);
          var a := SendOneSnoop(txn, kind, order[i], ret);
          actions := actions + [a];
          done := Issued(Tables(), actions);
        }
      }
      OthersOfSharers(sharers, txn.src);
      assert order[..|order|] == order;
    }

    method Fetch(txn: Txn, target: LineState) returns (actions: seq<Action>)
      modifies this
      ensures actions == Spec.Fetch(old(Tables()), txn, target, []).actions
      ensures Tables() == AwaitMemory(old(Tables()), txn, WaitMemData, target)
    {
      var memId := nextInternalTxnId;
      nextInternalTxnId := NextId(nextInternalTxnId);
      memToOrig := memToOrig[memId := txn.txnID];
      pending := pending[memId := PendingTxn(txn, WaitMemData, target, 0, 0)];
      actions := [SendReadNoSnp(txn.addr, memId)];
    }

    method StartSnoops(txn: Txn, target: LineState, kind: SnoopKind, sharers: set<NodeID>, count: nat, ret: bool)
      returns (actions: seq<Action>)
      requires count == |sharers - {txn.src}|
      modifies this
      ensures var out := Spec.Snoop(old(Tables()), txn, target, kind, sharers - {txn.src}, ret);
              Tables() == out.t && actions == out.actions && out.ops == [Touch]
    {
      pending := pending[txn.txnID := PendingTxn(txn, WaitSnoopResp, target, count, if ret then count else 0)];
      actions := SendSnoops(txn, kind, sharers, ret);
    }

    /** CompData built from what the cache holds now. */
    method CompDataNow(txn: Txn) returns (a: Action)
      requires Valid()
      ensures a == CompDataFor(txn, View(cache.Model(), LineOf(txn.addr)))
    {
      var state := cache.GetState(txn.addr);
      var data := cache.GetData(txn.addr);
      a := SendCompData(txn.addr, txn.txnID, txn.src, state, data);
    }

    /** The line was looked up and found; `was` is the store before the lookup. */
    ghost predicate LookedUp(was: Store, l: LineNo, line: Line)
      reads this, cache.Repr
    {
      Valid() && ValidStore(was) && View(was, l) == Some(line) && cache.Model() == Apply(was, l, Touch)
    }

    method ServeShared(txn: Txn, line: Line, ghost was: Store) returns (actions: seq<Action>)
      requires LookedUp(was, LineOf(txn.addr), line)
      modifies cache.Repr
      ensures Valid() && Did(was, txn.addr, Spec.ServeShared(Tables(), line, txn), actions)
    {
      ghost var l, out := LineOf(txn.addr), Spec.ServeShared(Tables(), line, txn);
      ApplyTwo(was, l, Touch, Op.AddSharer(txn.src));
      ApplyFour(was, l, Touch, Op.AddSharer(txn.src), SetLineState(if line.state == UD then SD else SC), Touch);
      ApplyOpsRefineMap(was, l, out.ops, l);
      cache.AddSharer(txn.addr, txn.src);
      if line.state == UC || line.state == UD {
        cache.SetState(txn.addr, if line.state == UD then SD else SC);
      }
      var a := CompDataNow(txn);
      actions := [a];
    }

    method HandleReadShared(txn: Txn) returns (ok: bool, actions: seq<Action>)
      requires Valid()
      modifies this, cache.Repr
      ensures Valid() && ok == !Lookup(old(cache.Model()), LineOf(txn.addr)).MissEvictDirty?
      ensures ok ==> Did(old(cache.Model()), txn.addr,
                Spec.HandleReadShared(old(Tables()), View(old(cache.Model()), LineOf(txn.addr)), txn), actions)
      ensures !ok ==> Tables() == old(Tables()) && cache.Model() == old(cache.Model()) && actions == []
    {
      hide L2Cache.Structured, ValidStore, Apply, View, ApplyOps, Lookup, ViewOps, IssueSnoops, Ascending, Spec.Snoop,
           Spec.ServeShared, Spec.ServeUnique, Spec.CleanDirtyLine;
      ghost var was, l := cache.Model(), LineOf(txn.addr);
      LookupSeesView(was, l);
      ApplyTwo(was, l, Touch, Touch);
      var resp := cache.Lookup(txn.addr);
      match resp {
        case MissEvictDirty(_, _, _) =>
          ok, actions := false, [];
        case Miss =>
          actions := Fetch(txn, SC);
          ok := true;
        case Hit(line) =>
          ok := true;
          var sharers, count := {}, 0;
          if Dirty(line.state) {
            sharers := cache.GetSharers(txn.addr);
            count := CountOthers(sharers, txn.src);
          }
          if count > 0 {
            actions := StartSnoops(txn, SC, SnpCleanInvalid, sharers, count, true);
          } else {
            actions := ServeShared(txn, line, was);
          }
      }
    }

    method ServeUnique(txn: Txn, line: Line, ghost was: Store) returns (actions: seq<Action>)
      requires LookedUp(was, LineOf(txn.addr), line)
      modifies cache.Repr
      ensures Valid() && Did(was, txn.addr, Spec.ServeUnique(Tables(), line, txn), actions)
    {
      hide L2Cache.Structured, ValidStore, Apply, View, ApplyOps, ViewOps;
      ghost var l, out := LineOf(txn.addr), Spec.ServeUnique(Tables(), line, txn);
      ApplyFour(was, l, Touch, SetLineState(UD), Op.ClearSharers, Op.AddSharer(txn.src));
      ApplyOpsRefineMap(was, l, out.ops, l);
      cache.SetState(txn.addr, UD);
      cache.ClearSharers(txn.addr);
      cache.AddSharer(txn.addr, txn.src);
      var data := cache.GetData(txn.addr);
      actions := [SendCompData(txn.addr, txn.txnID, txn.src, UD, data)];
    }

    method HandleReadUnique(txn: Txn) returns (ok: bool, actions: seq<Action>)
      requires Valid()
      modifies this, cache.Repr
      ensures Valid() && ok == !Lookup(old(cache.Model()), LineOf(txn.addr)).MissEvictDirty?
      ensures ok ==> Did(old(cache.Model()), txn.addr,
                Spec.HandleReadUnique(old(Tables()), View(old(cache.Model()), LineOf(txn.addr)), txn), actions)
      ensures !ok ==> Tables() == old(Tables()) && cache.Model() == old(cache.Model()) && actions == []
    {
      hide L2Cache.Structured, ValidStore, Apply, View, ApplyOps, Lookup, ViewOps, IssueSnoops, Ascending, Spec.Snoop,
           Spec.ServeShared, Spec.ServeUnique, Spec.CleanDirtyLine;
      ghost var was, l := cache.Model(), LineOf(txn.addr);
      LookupSeesView(was, l);
      ApplyTwo(was, l, Touch, Touch);
      var resp := cache.Lookup(txn.addr);
      match resp {
        case MissEvictDirty(_, _, _) =>
          ok, actions := false, [];
        case Miss =>
          actions := Fetch(txn, UD);
          ok := true;
        case Hit(line) =>
          ok := true;
          var sharers := cache.GetSharers(txn.addr);
          var count := CountOthers(sharers, txn.src);
          if count == 0 {
            actions := ServeUnique(txn, line, was);
          } else {
            actions := StartSnoops(txn, UD, SnpUnique, sharers, count, Dirty(line.state));
          }
      }
    }

    method HandleReadOnce(txn: Txn) returns (ok: bool, actions: seq<Action>)
      requires Valid()
      modifies this, cache.Repr
      ensures Valid() && ok == !Lookup(old(cache.Model()), LineOf(txn.addr)).MissEvictDirty?
      ensures ok ==> Did(old(cache.Model()), txn.addr,
                Spec.HandleReadOnce(old(Tables()), View(old(cache.Model()), LineOf(txn.addr)), txn), actions)
      ensures !ok ==> Tables() == old(Tables()) && cache.Model() == old(cache.Model()) && actions == []
    {
      hide L2Cache.Structured, ValidStore, Apply, View, ApplyOps, Lookup, ViewOps, IssueSnoops, Ascending, Spec.Snoop,
           Spec.ServeShared, Spec.ServeUnique, Spec.CleanDirtyLine;
      ghost var was, l := cache.Model(), LineOf(txn.addr);
      LookupSeesView(was, l);
      ApplyTwo(was, l, Touch, Touch);
      var resp := cache.Lookup(txn.addr);
      match resp {
        case MissEvictDirty(_, _, _) =>
          ok, actions := false, [];
        case Miss =>
          actions := Fetch(txn, SC);
          ok := true;
        case Hit(line) =>
          ok := true;
          var sharers, count := {}, 0;
          if Dirty(line.state) {
            sharers := cache.GetSharers(txn.addr);
            count := CountOthers(sharers, txn.src);
          }
          if count > 0 {
            actions := StartSnoops(txn, SC, SnpOnce, sharers, count, true);
          } else {
            var a := CompDataNow(txn);
            actions := [a];
          }
      }
    }

    /** The dirty copy goes to memory and the line turns clean; the requester is answered at once. */
    method CleanDirtyLine(txn: Txn, line: Line, ghost was: Store) returns (actions: seq<Action>)
      requires LookedUp(was, LineOf(txn.addr), line) && line.state == UD
      modifies this, cache.Repr
      ensures Valid() && Did(was, txn.addr, Spec.CleanDirtyLine(old(Tables()), line, txn), actions)
    {
      hide L2Cache.Structured, ValidStore, Apply, View, ApplyOps, ViewOps;
      ghost var l := LineOf(txn.addr);
      ApplyTwo(was, l, Touch, SetLineState(UC));
      ApplyOpsRefineMap(was, l, [Touch, SetLineState(UC)], l);
      var memId := nextInternalTxnId;
      nextInternalTxnId := NextId(nextInternalTxnId);
      memToOrig := memToOrig[memId := txn.txnID];
      pending := pending[memId := PendingTxn(txn, WaitMemWriteAck, UC, 0, 0)];
      cache.SetState(txn.addr, UC);
      var data := cache.GetData(txn.addr);
      actions := [SendWriteNoSnp(txn.addr, memId, data), SendComp(txn.addr, txn.txnID, txn.src)];
    }

    method TakeOverSharedLine(txn: Txn, ghost line: Line, ghost was: Store)
      requires LookedUp(was, LineOf(txn.addr), line)
      modifies cache.Repr
      ensures Valid() && cache.Model() ==
              ApplyOps(was, LineOf(txn.addr), [Touch, Op.ClearSharers, SetLineState(UC), Op.AddSharer(txn.src)])
    {
      hide L2Cache.Structured, ValidStore, Apply, View, ApplyOps;
      ApplyFour(was, LineOf(txn.addr), Touch, Op.ClearSharers, SetLineState(UC), Op.AddSharer(txn.src));
      cache.ClearSharers(txn.addr);
      cache.SetState(txn.addr, UC);
      cache.AddSharer(txn.addr, txn.src);
    }

    method HandleCleanUnique(txn: Txn) returns (ok: bool, actions: seq<Action>)
      requires Valid()
      modifies this, cache.Repr
      ensures Valid() && ok == !Lookup(old(cache.Model()), LineOf(txn.addr)).MissEvictDirty?
      ensures ok ==> Did(old(cache.Model()), txn.addr,
                Spec.HandleCleanUnique(old(Tables()), View(old(cache.Model()), LineOf(txn.addr)), txn), actions)
      ensures !ok ==> Tables() == old(Tables()) && cache.Model() == old(cache.Model()) && actions == []
    {
      hide L2Cache.Structured, ValidStore, Apply, View, ApplyOps, Lookup, ViewOps, IssueSnoops, Ascending, Spec.Snoop,
           Spec.ServeShared, Spec.ServeUnique, Spec.CleanDirtyLine;
      ghost var was, l := cache.Model(), LineOf(txn.addr);
      LookupSeesView(was, l);
      ApplyTwo(was, l, Touch, Touch);
      var resp := cache.Lookup(txn.addr);
      match resp {
        case MissEvictDirty(_, _, _) =>
          ok, actions := false, [];
        case Miss =>
          actions := Fetch(txn, UC);
          ok := true;
        case Hit(line) =>
          ok := true;
          if line.state == UC {
            actions := [SendComp(txn.addr, txn.txnID, txn.src)];
          } else if line.state == UD {
            actions := CleanDirtyLine(txn, line, was);
          } else {
            var sharers := cache.GetSharers(txn.addr);
            var count := CountOthers(sharers, txn.src);
            if count == 0 {
              TakeOverSharedLine(txn, line, was);
              actions := [SendComp(txn.addr, txn.txnID, txn.src)];
            } else {
              var kind := if line.state == SD then SnpNotSharedDirty else SnpCleanInvalid;
              actions := StartSnoops(txn, UC, kind, sharers, count, line.state == SD);
            }
          }
      }
    }

    method HandleWrite(txn: Txn) returns (actions: seq<Action>)
      modifies this
      ensures Tables() == Spec.HandleWrite(old(Tables()), txn).t
      ensures actions == Spec.HandleWrite(old(Tables()), txn).actions
    {
      pending := pending[txn.txnID := PendingTxn(txn, WaitL1Data, I, 0, 0)];
      actions := if txn.opcode == WriteNoSnp then [] else [SendCompDBIDResp(txn.addr, txn.txnID, txn.src)];
    }

    /** First entry point. `ok` is false where the source's assertion against dirty victims fails. */
    method RecvRequest(txn: Txn) returns (ok: bool, actions: seq<Action>)
      requires Valid()
      modifies this, cache.Repr
      ensures Valid() && ok == !Aborts(old(Model()), Request(txn))
      ensures ok ==>
                Model() == Next(old(Model()), Request(txn)) && actions == StepOut(old(Model()), Request(txn)).actions
      ensures !ok ==> Model() == old(Model()) && actions == []
    {
      hide L2Cache.Structured, ValidStore, Apply, View, Lookup, ViewOps, ApplyOps, Spec.HandleReadShared,
           Spec.HandleReadUnique, Spec.HandleReadOnce, Spec.HandleCleanUnique;
      ghost var was := cache.Model();
      NoOps(was, LineOf(txn.addr));
      match txn.opcode {
        case ReadShared => ok, actions := HandleReadShared(txn);
        case ReadNoSnp => ok, actions := HandleReadShared(txn);
        case ReadUnique => ok, actions := HandleReadUnique(txn);
        case ReadNotSharedDirty => ok, actions := HandleReadUnique(txn);
        case CleanUnique => ok, actions := HandleCleanUnique(txn);
        case ReadOnce => ok, actions := HandleReadOnce(txn);
        case Other =>
          actions := Fetch(txn, SC);
          ok := true;
        case _ =>
          actions := HandleWrite(txn);
          ok := true;
      }
    }

    /** Erases every snoop of `orig`, and its mark as answered, while walking the table. */
    method EraseSnoopsOf(orig: TxnID)
      modifies this`snoopToOrig, this`snoopRespCounted
      ensures snoopToOrig == DropValue(old(snoopToOrig), orig)
      ensures snoopRespCounted ==
              set k | k in old(snoopRespCounted) && !(k in old(snoopToOrig) && old(snoopToOrig)[k] == orig)
    {
      var todo := snoopToOrig.Keys;
      while todo != {}
        invariant todo <= old(snoopToOrig).Keys
        invariant forall k :: k in snoopToOrig <==>
                    k in old(snoopToOrig) && (k in todo || old(snoopToOrig)[k] != orig)
        invariant forall k :: k in snoopToOrig ==> snoopToOrig[k] == old(snoopToOrig)[k]
        invariant forall k :: k in snoopRespCounted <==>
                    k in old(snoopRespCounted) && (k in snoopToOrig || k !in old(snoopToOrig))
        decreases todo
      {
        var k :| k in todo;
        todo := todo - {k};
        if snoopToOrig[k] == orig {
          snoopRespCounted := snoopRespCounted - {k};
          snoopToOrig := snoopToOrig - {k};
        }
      }
    }

    /** Erases every memory entry standing for `orig`, and the one under the key `also`, while walking the table. */
    method EraseMemEntriesOf(orig: TxnID, also: Option<TxnID>)
      modifies this`memToOrig
      ensures memToOrig == map k | k in old(memToOrig) && old(memToOrig)[k] != orig
              && also != Some(k) :: old(memToOrig)[k]
    {
      var todo := memToOrig.Keys;
      while todo != {}
        invariant todo <= old(memToOrig).Keys
        invariant forall k :: k in memToOrig <==>
                    k in old(memToOrig) && (k in todo || (old(memToOrig)[k] != orig && also != Some(k)))
        invariant forall k :: k in memToOrig ==> memToOrig[k] == old(memToOrig)[k]
        decreases todo
      {
        var k :| k in todo;
        todo := todo - {k};
        if memToOrig[k] == orig || also == Some(k) {
          memToOrig := memToOrig - {k};
        }
      }
    }

    /** All answers are in: finish the transaction. `was` and `ops` record the cache operations of this step so far. */
    method CompletePending(orig: TxnID, ghost was: Store, ghost ops: seq<Op>) returns (actions: seq<Action>)
      requires Valid() && orig in pending && ValidStore(was) && |ops| <= 1
      requires cache.Model() == ApplyOps(was, LineOf(pending[orig].req.addr), ops)
      modifies this, cache.Repr
      ensures Valid() && Tables() == Complete(old(Tables()), None, orig).t
      ensures var l := LineOf(old(pending)[orig].req.addr);
              var out := Complete(old(Tables()), View(old(cache.Model()), l), orig);
              cache.Model() == ApplyOps(was, l, ops + out.ops) && actions == out.actions
    {
      hide L2Cache.Structured, ValidStore, Apply, View, ApplyOps, ViewOps;
      var pt := pending[orig];
      ghost var l, before := LineOf(pt.req.addr), cache.Model();
      HasSets(before);
      ghost var out := Complete(Tables(), View(before, l), orig);
      ApplyTwo(before, l, ClearSharers, SetLineState(pt.target));
      ApplyFour(before, l, Op.ClearSharers, SetLineState(pt.target), Op.AddSharer(pt.req.src), Touch);
      ApplyOpsRefineMap(before, l, out.ops, l);
      ApplyMore(was, l, ops, out.ops);
      EraseSnoopsOf(orig);
      cache.ClearSharers(pt.req.addr);
      cache.SetState(pt.req.addr, pt.target);
      if pt.req.opcode != ReadOnce {
        cache.AddSharer(pt.req.addr, pt.req.src);
      }
      if pt.req.opcode == CleanUnique {
        actions := [SendComp(pt.req.addr, pt.req.txnID, pt.req.src)];
      } else {
        var a := CompDataNow(pt.req);
        actions := [a];
      }
      pending := pending - {orig};
    }

    /** The address fallback: some entry waiting for write data of this very address, in whatever order they come. */
    method FindWriteByAddress(addr: Addr) returns (fb: Option<TxnID>)
      ensures match fb
              case Some(k) => k in pending && pending[k].state == WaitL1Data && pending[k].req.addr == addr
              case None => forall k :: k in pending ==> pending[k].state != WaitL1Data || pending[k].req.addr != addr
      ensures FallbackOk(Tables(), addr, fb)
    {
      var todo := pending.Keys;
      while todo != {}
        invariant todo <= pending.Keys
        invariant forall k :: k in pending && k !in todo ==> !AwaitsWriteOf(Tables(), k, addr)
        decreases todo
      {
        var k :| k in todo;
        todo := todo - {k};
        if pending[k].state == WaitL1Data && pending[k].req.addr == addr {
          return Some(k);
        }
      }
      return None;
    }

    method TakeSnoopData(orig: TxnID, txnId: TxnID, data: Data) returns (actions: seq<Action>)
      requires Valid() && orig in pending
      modifies this, cache.Repr
      ensures var l := LineOf(old(pending)[orig].req.addr);
              var out := RecvSnoopData(old(Tables()), View(old(cache.Model()), l), orig, txnId, data);
              Valid() && Did(old(cache.Model()), old(pending)[orig].req.addr, out, actions)
    {
      hide L2Cache.Structured, ValidStore, Apply, View, ApplyOps, ViewOps, ApplyView;
      var pt := pending[orig];
      ghost var was, l := cache.Model(), LineOf(pt.req.addr);
      ApplyTwo(was, l, Op.Fill(pt.target, data), Touch);
      ApplyRefinesMap(was, l, Op.Fill(pt.target, data), l);
      cache.Fill(pt.req.addr, pt.target, data);
      pt := pt.(beats := pt.beats - 1);
      if txnId !in snoopRespCounted {
        pt := pt.(snoops := pt.snoops - 1);
        snoopRespCounted := snoopRespCounted + {txnId};
      }
      pending := pending[orig := pt];
      assert snoopRespCounted == old(snoopRespCounted) + {txnId};
      actions := [];
      if pt.snoops <= 0 && pt.beats <= 0 {
        snoopRespCounted := snoopRespCounted - {txnId};
        actions := CompletePending(orig, was, [Op.Fill(pt.target, data)]);
      }
    }

    method TakeWriteData(key: TxnID, data: Data)
      requires Valid() && key in pending
      modifies this, cache.Repr
      ensures var out := RecvWriteData(old(Tables()), key, data);
              Valid() && Did(old(cache.Model()), old(pending)[key].req.addr, out, [])
    {
      hide L2Cache.Structured, ValidStore, Apply, ApplyOps;
      var req := pending[key].req;
      ApplyTwo(cache.Model(), LineOf(req.addr), Op.Fill(UD, data), Op.AddSharer(req.src));
      cache.Fill(req.addr, UD, data);
      cache.AddSharer(req.addr, req.src);
      pending := pending - {key};
    }

    method TakeMemData(key: TxnID, data: Data) returns (actions: seq<Action>)
      requires Valid() && key in pending
      modifies this, cache.Repr
      ensures var l := LineOf(old(pending)[key].req.addr);
              var out := RecvMemData(old(Tables()), View(old(cache.Model()), l), key, data);
              Valid() && Did(old(cache.Model()), old(pending)[key].req.addr, out, actions)
    {
      hide L2Cache.Structured, ValidStore, Apply, View, ApplyOps, ViewOps;
      var pt := pending[key];
      ghost var was, l := cache.Model(), LineOf(pt.req.addr);
      HasSets(was);
      ghost var out := RecvMemData(Tables(), View(was, l), key, data);
      ApplyTwo(was, l, Op.Fill(pt.target, data), Op.AddSharer(pt.req.src));
      ApplyOpsRefineMap(was, l, out.ops, l);
      cache.Fill(pt.req.addr, pt.target, data);
      if pt.req.opcode != ReadOnce {
        cache.AddSharer(pt.req.addr, pt.req.src);
      }
      if pt.req.opcode == CleanUnique {
        actions := [SendComp(pt.req.addr, pt.req.txnID, pt.req.src)];
      } else {
        var a := CompDataNow(pt.req);
        actions := [a];
      }
      pending := pending - {key};
      EraseMemEntriesOf(pt.req.txnID, None);
      assert memToOrig == out.t.memToOrig;
    }

    /** Second entry point: snoop data, write data (by id, else by address) or memory data, in this order. */
    method RecvData(txnId: TxnID, addr: Addr, data: Data) returns (actions: seq<Action>, ghost fb: Option<TxnID>)
      requires Valid()
      modifies this, cache.Repr
      ensures Valid() && FallbackOk(old(Tables()), addr, fb)
      ensures Model() == Next(old(Model()), DataBeat(txnId, addr, data, fb))
      ensures actions == StepOut(old(Model()), DataBeat(txnId, addr, data, fb)).actions
    {
      hide L2Cache.Structured, ValidStore, Apply, View, ApplyOps, ViewOps, RecvSnoopData, RecvMemData, RecvWriteData;
      fb := SomeFallback(Tables(), addr);
      actions := [];
      if txnId in snoopToOrig {
        if snoopToOrig[txnId] in pending {
          actions := TakeSnoopData(snoopToOrig[txnId], txnId, data);
        }
      } else if txnId in pending {
        if pending[txnId].state == WaitL1Data {
          TakeWriteData(txnId, data);
          WriteDataIsSilent(old(Tables()), txnId, data);
        } else if pending[txnId].state == WaitMemData {
          actions := TakeMemData(txnId, data);
        }
      } else {
        var hit := FindWriteByAddress(addr);
        fb := hit;
        if hit.Some? {
          TakeWriteData(hit.value, data);
          WriteDataIsSilent(old(Tables()), hit.value, data);
        }
      }
    }

    method TakeSnoopResponse(orig: TxnID) returns (actions: seq<Action>)
      requires Valid() && orig in pending
      modifies this, cache.Repr
      ensures var l := LineOf(old(pending)[orig].req.addr);
              var out := RecvSnoopResponse(old(Tables()), View(old(cache.Model()), l), orig);
              Valid() && Did(old(cache.Model()), old(pending)[orig].req.addr, out, actions)
    {
      hide L2Cache.Structured, ValidStore, Apply, View, ApplyOps, ViewOps;
      var pt := pending[orig];
      ghost var was, l := cache.Model(), LineOf(pt.req.addr);
      NoOps(was, l);
      pt := pt.(snoops := pt.snoops - 1);
      pending := pending[orig := pt];
      actions := [];
      if pt.snoops <= 0 && pt.beats <= 0 {
        actions := CompletePending(orig, was, []);
        assert forall ops: seq<Op> :: [] + ops == ops;
      }
    }

    /** Third entry point: a snoop response or a write acknowledgement; anything else is ignored. */
    method RecvResponse(txnId: TxnID) returns (actions: seq<Action>)
      requires Valid()
      modifies this, cache.Repr
      ensures Valid() && Model() == Next(old(Model()), Response(txnId))
      ensures actions == StepOut(old(Model()), Response(txnId)).actions
    {
      hide L2Cache.Structured, ValidStore, Apply, View, ApplyOps, ViewOps, RecvSnoopResponse;
      actions := [];
      if txnId in snoopToOrig {
        if snoopToOrig[txnId] in pending {
          actions := TakeSnoopResponse(snoopToOrig[txnId]);
        }
      } else if txnId in pending && pending[txnId].state == WaitMemWriteAck {
        NoOps(cache.Model(), LineOf(pending[txnId].req.addr));
        pending := pending - {txnId};
        EraseMemEntriesOf(txnId, Some(txnId));
        assert Tables().memToOrig == RecvWriteAck(old(Tables()), txnId).t.memToOrig;
      }
    }

    /** The direct invalidation that stands for an Evict. */
    method Invalidate(addr: Addr)
      requires Valid()
      modifies cache.Repr
      ensures Valid() && Model() == Next(old(Model()), Msg.Evict(addr))
    {
      hide L2Cache.Structured, ValidStore, Apply, ApplyOps;
      ApplyTwo(cache.Model(), LineOf(addr), Op.Invalidate, Touch);
      cache.Invalidate(addr);
    }
  }

  lemma WriteDataIsSilent(t: Tables, key: TxnID, data: Data)
    requires key in t.pending
    ensures RecvWriteData(t, key, data).actions == []
  {
  }

  lemma {:induction false} ApplyMore(st: Store, l: LineNo, a: seq<Op>, b: seq<Op>)
    requires ValidStore(st)
    ensures ApplyOps(st, l, a + b) == ApplyOps(ApplyOps(st, l, a), l, b)
    decreases |a|
  {
    if a == [] {
      assert a + b == b;
    } else {
      assert (a + b)[1..] == a[1..] + b;
      ApplyMore(Apply(st, l, a[0]), l, a[1..], b);
    }
  }

  lemma NoOps(st: Store, l: LineNo)
    requires ValidStore(st)
    ensures ApplyOps(st, l, []) == st
  {
  }

  /** A lookup hits exactly on the viewed line, and a miss changes nothing. */
  lemma LookupSeesView(st: Store, l: LineNo)
    requires ValidStore(st)
    ensures Lookup(st, l).Hit? <==> View(st, l).Some?
    ensures Lookup(st, l).Hit? ==> View(st, l) == Some(Lookup(st, l).line)
    ensures View(Apply(st, l, Touch), l) == View(st, l)
    ensures View(st, l) == None ==> Apply(st, l, Touch) == st
  {
    ApplyRefinesMap(st, l, Touch, l);
  }
}
