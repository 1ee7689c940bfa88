/** True LRU under engine traffic: in any run, a line that a request looked up and found, or that a data beat filled, is
    not dropped before every other way of its set has been used since. */
module EngineRecency {
  import opened ChiTypes
  import opened CacheSets
  import opened CacheStore
  import opened LruRecency
  import opened StoreRecency
  import opened EngineSpec
  import opened EngineTables
  import opened Directory
  import opened Reactions

  /** The line a message uses: a read or CleanUnique request the one it finds, a data beat the one it fills. */
  function Used(e: Engine, m: Msg): Option<LineNo>
    requires ValidStore(e.store)
  {
    match m
    case Request(txn) =>
      if txn.opcode in {ReadShared, ReadNoSnp, ReadUnique, ReadNotSharedDirty, ReadOnce, CleanUnique}
        && View(e.store, LineOf(txn.addr)).Some?
      then Some(LineOf(txn.addr)) else None
    case DataBeat(_, _, _, _) => LineFor(e.t, m)
    case _ => None
  }

  // ---------- the operations of a step ----------

  /** The operation touches no way, fills nothing and removes nothing. */
  predicate Quiet(op: Op) {
    op.AddSharer? || op.RemoveSharer? || op.ClearSharers? || op.WriteData? || (op.SetLineState? && op.state != I)
  }

  ghost predicate AllQuiet(ops: seq<Op>) { forall k :: 0 <= k < |ops| ==> Quiet(ops[k]) }

  /** A used line is touched or filled by the first operation; all others, and those of any other message but an
      eviction or a lookup that misses, are quiet. */
  ghost predicate UsesFirst(ops: seq<Op>, m: Msg, v: Option<Line>, target: Option<TxnID>) {
    match m
    case Request(txn) =>
      if txn.opcode in {ReadShared, ReadNoSnp, ReadUnique, ReadNotSharedDirty, ReadOnce, CleanUnique}
      then ops != [] && ops[0] == Touch && AllQuiet(ops[1..]) && (v == None ==> ops == [Touch])
      else ops == []
    case DataBeat(_, _, data, _) =>
      if target.Some? then ops != [] && ops[0].Fill? && ops[0].state != I && AllQuiet(ops[1..]) else ops == []
    case Response(_) => AllQuiet(ops)
    case Evict(_) => ops == [Invalidate]
  }

  lemma RequestUsesFirst(t: Tables, v: Option<Line>, txn: Txn)
    ensures UsesFirst(RecvRequest(t, v, txn).ops, Request(txn), v, None)
  {
    hide RecvRequest, SnoopTargets, AllQuiet, LooksUpFirst;
    RequestOps(t, v, txn);
    LooksUpMeans(RecvRequest(t, v, txn).ops);
    NothingIsQuiet();
    assert [Touch][1..] == [];
    if v.Some? && txn.opcode == CleanUnique && v.value.state == UD { CleaningLooksUp(v.value); }
    if v.Some? && KeyUsed(t, v, txn) == None { ServedLooksUp(t, v.value, txn); }
    WritesSnoopNobody(v, txn);
  }

  lemma LooksUpMeans(ops: seq<Op>)
    ensures LooksUpFirst(ops) ==> ops != [] && ops[0] == Touch && AllQuiet(ops[1..])
  {
  }

  lemma CompleteIsQuiet(t: Tables, v: Option<Line>, k: TxnID)
    requires k in t.pending && t.pending[k].target != I
    ensures AllQuiet(Complete(t, v, k).ops)
  {
    hide ViewOps;
  }

  lemma DeliveryUsesFirst(t: Tables, v: Option<Line>, m: Msg)
    requires Consistent(t) && Deliverable(t, m) && !m.Request?
    ensures UsesFirst(Step(t, v, m).ops, m, v, Target(t, m))
  {
    hide ViewOps, ApplyView, Complete, Consistent, Finished, AllQuiet;
    RoutingIsExact(t, if m.DataBeat? || m.Response? then m.txnId else 0, if m.DataBeat? then m.fb else None);
    NothingIsQuiet();
    if m.DataBeat? {
      match DataRoute(t, m.txnId, m.fb)
      case NoRoute =>
      case SnoopData(k) => SnoopDataUsesFirst(t, v, k, m.txnId, m.data);
      case WriteBack(k) => AddIsQuiet([Fill(UD, m.data)], t.pending[k].req.src);
      case MemData(k) =>
        KnownTarget(t, k);
        AddIsQuiet([Fill(t.pending[k].target, m.data)], t.pending[k].req.src);
    } else if m.Response? && m.txnId in t.snoopToOrig {
      var k := t.snoopToOrig[m.txnId];
      KnownTarget(t, k);
      CompleteIsQuiet(t.(pending := t.pending[k := t.pending[k].(snoops := t.pending[k].snoops - 1)]), v, k);
    }
  }

  lemma SnoopDataUsesFirst(t: Tables, v: Option<Line>, k: TxnID, id: TxnID, data: Data)
    requires Consistent(t) && k in t.pending && t.pending[k].state == WaitSnoopResp
    ensures var ops := RecvSnoopData(t, v, k, id, data).ops;
            ops != [] && ops[0].Fill? && ops[0].state != I && AllQuiet(ops[1..])
  {
    hide ViewOps, ApplyView, Complete, Consistent, Finished, AllQuiet;
    KnownTarget(t, k);
    NothingIsQuiet();
    var pt, fill := t.pending[k], Fill(t.pending[k].target, data);
    var pt' := pt.(beats := pt.beats - 1, snoops := if id in t.counted then pt.snoops else pt.snoops - 1);
    var t' := t.(pending := t.pending[k := pt'], counted := t.counted + {id} - {id});
    CompleteIsQuiet(t', ApplyView(v, fill), k);
    var done := Complete(t', ApplyView(v, fill), k);
    assert ([fill] + done.ops)[1..] == done.ops && [fill][1..] == [];
  }

  lemma KnownTarget(t: Tables, k: TxnID)
    requires Consistent(t) && k in t.pending && t.pending[k].state != WaitL1Data
    ensures t.pending[k].target != I
  {
    assert EntryOk(t, k);
  }

  lemma NothingIsQuiet()
    ensures AllQuiet([])
  {
  }

  lemma AddIsQuiet(first: seq<Op>, node: NodeID)
    requires |first| == 1
    ensures AllQuiet((first + [AddSharer(node)])[1..]) && first + [AddSharer(node)] == [first[0], AddSharer(node)]
    ensures AllQuiet(first[1..])
  {
  }

  // ---------- what they do to ways and ranks ----------

  /** Every line sits where it sat, and the ranks are the same. */
  ghost predicate SameWays(st: Store, st': Store)
    requires ValidStore(st) && ValidStore(st')
  {
    && st'.numWays == st.numWays && |st'.sets| == |st.sets|
    && (forall l: LineNo, w: nat :: SitsIn(st', l, w) <==> SitsIn(st, l, w))
    && (forall i :: 0 <= i < |st.sets| ==> st'.sets[i].lru == st.sets[i].lru)
  }

  lemma QuietKeepsWays(st: Store, l: LineNo, op: Op)
    requires ValidStore(st) && Quiet(op)
    ensures SameWays(st, Apply(st, l, op))
  {
    var st', n := Apply(st, l, op), |st.sets|;
    var i, f := SetOf(n, l), FindTag(Home(st, l).lines, TagOf(n, l));
    forall k: LineNo, w: nat ensures SitsIn(st', k, w) <==> SitsIn(st, k, w) {
      if SetOf(n, k) == i && w == f && w < st.numWays {
        assert Home(st', k).lines[w].tag == Home(st, k).lines[w].tag;
      }
    }
  }

  lemma {:induction false} AllQuietKeepWays(st: Store, l: LineNo, ops: seq<Op>)
    requires ValidStore(st) && AllQuiet(ops)
    ensures SameWays(st, ApplyOps(st, l, ops))
    decreases |ops|
  {
    hide Apply, SitsIn, Quiet;
    if ops != [] {
      QuietKeepsWays(st, l, ops[0]);
      AllQuietKeepWays(Apply(st, l, ops[0]), l, ops[1..]);
    }
  }

  /** The ways of set `i` that a step uses, at most one: the one in which the used line then sits. */
  ghost function WaysOf(e: Engine, m: Msg, i: nat): (h: seq<nat>)
    requires Steppable(e, m) && i < |e.store.sets|
    ensures |h| <= 1 && forall w :: w in h ==> w < e.store.numWays
  {
    match Used(e, m)
    case None => []
    case Some(l) =>
      var way := FindTag(Home(Next(e, m).store, l).lines, TagOf(|e.store.sets|, l));
      if SetOf(|e.store.sets|, l) == i && way >= 0 then [way] else []
  }

  /** A step touches exactly the way it uses. */
  lemma StepTouches(e: Engine, m: Msg, i: nat)
    requires Admits(e, m) && Consistent(e.t) && i < |e.store.sets|
    ensures var h := WaysOf(e, m, i);
            Next(e, m).store.sets[i].lru == if h == [] then e.store.sets[i].lru else Touched(e.store.sets[i].lru, h[0])
    ensures Used(e, m).Some? && SetOf(|e.store.sets|, Used(e, m).value) == i ==> |WaysOf(e, m, i)| == 1
  {
    hide Step, Apply, Touched, Touches, SitsIn, View, Consistent, Quiet;
    StepUsesFirst(e, m);
    var ops := StepOut(e, m).ops;
    match LineFor(e.t, m)
    case None =>
    case Some(l) =>
      if m.Evict? {
        EvictTouchesNothing(e.store, l, i);
      } else if Used(e, m) == None {
        UnusedTouchesNothing(e, m, l, i);
      } else {
        FirstTouches(e.store, l, ops[0], ops[1..], i);
      }
  }

  lemma StepUsesFirst(e: Engine, m: Msg)
    requires Admits(e, m) && Consistent(e.t)
    ensures UsesFirst(StepOut(e, m).ops, m, ViewFor(e, m), Target(e.t, m))
  {
    hide Consistent, RecvRequest, RecvData, RecvResponse, ViewFor, UsesFirst, RequestOk;
    if m.Request? { RequestUsesFirst(e.t, ViewFor(e, m), m.txn); } else { DeliveryUsesFirst(e.t, ViewFor(e, m), m); }
  }

  lemma EvictTouchesNothing(st: Store, l: LineNo, i: nat)
    requires ValidStore(st) && i < |st.sets|
    ensures ApplyOps(st, l, [Invalidate]).sets[i].lru == st.sets[i].lru
  {
    hide View;
    assert [Invalidate][1..] == [];
    StateEdits(st, l, I);
  }

  lemma UnusedTouchesNothing(e: Engine, m: Msg, l: LineNo, i: nat)
    requires Admits(e, m) && i < |e.store.sets| && LineFor(e.t, m) == Some(l) && Used(e, m) == None && !m.Evict?
    requires UsesFirst(StepOut(e, m).ops, m, View(e.store, l), Target(e.t, m))
    ensures ApplyOps(e.store, l, StepOut(e, m).ops).sets[i].lru == e.store.sets[i].lru
  {
    hide Step, View, Apply, Quiet, SitsIn;
    var ops := StepOut(e, m).ops;
    if m.Response? {
      AllQuietKeepWays(e.store, l, ops);
    } else if ops != [] {
      assert ops == [Touch] && ops[1..] == [];
      MissTouchesNothing(e.store, l);
    }
  }

  lemma MissTouchesNothing(st: Store, l: LineNo)
    requires ValidStore(st) && View(st, l) == None
    ensures Apply(st, l, Touch) == st
  {
  }

  /** A hit or a fill touches the way in which its line sits at the end of the step. */
  lemma FirstTouches(st: Store, l: LineNo, first: Op, rest: seq<Op>, i: nat)
    requires ValidStore(st) && i < |st.sets| && AllQuiet(rest)
    requires (first == Touch && View(st, l).Some?) || (first.Fill? && first.state != I)
    ensures var st' := ApplyOps(st, l, [first] + rest);
            var way := FindTag(Home(st', l).lines, TagOf(|st.sets|, l));
            && way >= 0 && SitsIn(st', l, way)
            && st'.sets[i].lru == if SetOf(|st.sets|, l) == i then Touched(st.sets[i].lru, way) else st.sets[i].lru
  {
    hide Apply, Touched, SitsIn, Quiet, View, ApplyView;
    var st1 := Apply(st, l, first);
    assert ([first] + rest)[1..] == rest;
    FirstLeavesLine(st, l, first);
    AccessTouchesItsWay(st, Access(l, first));
    ApplyTouches(st, Access(l, first), i);
    AllQuietKeepWays(st1, l, rest);
    var way := FindTag(Home(st1, l).lines, TagOf(|st.sets|, l));
    SittingIsViewed(ApplyOps(st1, l, rest), l, way);
  }

  lemma FirstLeavesLine(st: Store, l: LineNo, first: Op)
    requires ValidStore(st)
    requires (first == Touch && View(st, l).Some?) || (first.Fill? && first.state != I)
    ensures View(Apply(st, l, first), l).Some?
  {
    hide View, Apply;
    ResidentState(st, l);
    ApplyRefinesMap(st, l, first, l);
  }

  // ---------- where a line sits ----------

  /** A step takes line `l` out of way `w` only by evicting it or by filling another line into the victim `w`. */
  lemma SitsUnlessVictim(e: Engine, m: Msg, l: LineNo, w: nat)
    requires Admits(e, m) && Consistent(e.t) && SitsIn(e.store, l, w) && !(m.Evict? && LineOf(m.addr) == l)
    requires Victim(Home(e.store, l).lru, e.store.numWays) != w
    ensures SitsIn(Next(e, m).store, l, w)
  {
    hide Step, Apply, SitsIn, View, Consistent, Quiet, Victim, FallbackOk;
    StepUsesFirst(e, m);
    var ops := StepOut(e, m).ops;
    match LineFor(e.t, m)
    case None =>
    case Some(k) =>
      if ops != [] {
        if m.Response? {
          AllQuietKeepWays(e.store, k, ops);
        } else {
          FirstKeepsSitting(e.store, k, ops[0], ops[1..], l, w);
        }
      }
  }

  lemma FirstKeepsSitting(st: Store, k: LineNo, first: Op, rest: seq<Op>, l: LineNo, w: nat)
    requires ValidStore(st) && SitsIn(st, l, w) && AllQuiet(rest)
    requires first == Touch || (first.Fill? && first.state != I) || (first == Invalidate && k != l)
    requires Victim(Home(st, l).lru, st.numWays) != w
    ensures SitsIn(ApplyOps(st, k, [first] + rest), l, w)
  {
    hide Apply, SitsIn, Quiet, Victim;
    assert ([first] + rest)[1..] == rest;
    StaysUnlessVictim(st, l, w, Access(k, first));
    AllQuietKeepWays(Apply(st, k, first), k, rest);
  }

  // ---------- runs ----------

  /** The ways of set `i` used in the first `n` steps, in order. */
  ghost function WaysUsed(es: seq<Engine>, ms: seq<Msg>, i: nat, n: nat): (h: seq<nat>)
    requires IsRun(es, ms) && n <= |ms| && ValidStore(es[0].store) && i < |es[0].store.sets|
    ensures forall k :: 0 <= k < |h| ==> h[k] < es[0].store.numWays
  {
    if n == 0 then []
    else
      SameShape(es, ms, n - 1);
      var h, more := WaysUsed(es, ms, i, n - 1), WaysOf(es[n - 1], ms[n - 1], i);
      assert forall k :: 0 <= k < |more| ==> more[k] in more;
      h + more
  }

  lemma {:induction false} SameShape(es: seq<Engine>, ms: seq<Msg>, n: nat)
    requires IsRun(es, ms) && n <= |ms| && ValidStore(es[0].store)
    ensures ValidStore(es[n].store) && es[n].store.numWays == es[0].store.numWays
    ensures |es[n].store.sets| == |es[0].store.sets|
  {
    hide Admits, Next;
    if n > 0 {
      SameShape(es, ms, n - 1);
      assert Admits(es[n - 1], ms[n - 1]);
      AdmitsSteps(es[n - 1], ms[n - 1]);
    }
  }

  lemma AdmitsSteps(e: Engine, m: Msg)
    requires Admits(e, m)
    ensures Steppable(e, m)
  {
    hide MsgOk;
  }

  /** In every run from an empty array the ranks of each set replay the ways used. */
  lemma {:induction false} RanksReplayUses(es: seq<Engine>, ms: seq<Msg>, i: nat, n: nat)
    requires IsRun(es, ms) && n <= |ms| && Empty(es[0].store) && es[0].t == INITIAL_TABLES && i < |es[0].store.sets|
    ensures ValidStore(es[n].store) && |es[n].store.sets| == |es[0].store.sets|
    ensures es[n].store.sets[i].lru == Replay(es[0].store.numWays, WaysUsed(es, ms, i, n))
  {
    hide Admits, Next, WaysOf, Touched, Consistent;
    SameShape(es, ms, n);
    if n > 0 {
      RanksReplayUses(es, ms, i, n - 1);
      RunConsistent(es, ms, n - 1);
      var e, m := es[n - 1], ms[n - 1];
      assert Admits(e, m);
      AdmitsSteps(e, m);
      SameShape(es, ms, n - 1);
      StepTouches(e, m, i);
      var h, more := WaysUsed(es, ms, i, n - 1), WaysOf(e, m, i);
      if more == [] {
        assert h + more == h;
      } else {
        assert more == [more[0]] && more[0] in more;
        ReplayMore(es[0].store.numWays, h, more[0]);
      }
    }
  }

  /** Step `k` uses a line of set `i` that then sits in way `w`. */
  ghost predicate UsesWay(es: seq<Engine>, ms: seq<Msg>, k: nat, i: nat, w: nat)
    requires IsRun(es, ms) && k < |ms| && ValidStore(es[k].store) && ValidStore(es[k + 1].store)
  {
    var l := Used(es[k], ms[k]);
    l.Some? && SetOf(|es[k].store.sets|, l.value) == i && SitsIn(es[k + 1].store, l.value, w)
  }

  /** Some step from `j` on and before `n` does. */
  ghost predicate UsedBetween(es: seq<Engine>, ms: seq<Msg>, j: nat, n: nat, i: nat, w: nat)
    requires IsRun(es, ms) && n <= |ms|
  {
    exists k :: j <= k < n && ValidStore(es[k].store) && ValidStore(es[k + 1].store) && UsesWay(es, ms, k, i, w)
  }

  lemma BetweenGrows(es: seq<Engine>, ms: seq<Msg>, j: nat, n: nat, i: nat, w: nat)
    requires IsRun(es, ms) && j < n <= |ms|
    ensures UsedBetween(es, ms, j, n - 1, i, w) ==> UsedBetween(es, ms, j, n, i, w)
    ensures ValidStore(es[n - 1].store) && ValidStore(es[n].store) && UsesWay(es, ms, n - 1, i, w) ==>
              UsedBetween(es, ms, j, n, i, w)
  {
    hide IsRun, UsesWay, ValidStore;
  }

  lemma WayOfIsUsed(es: seq<Engine>, ms: seq<Msg>, k: nat, i: nat)
    requires IsRun(es, ms) && k < |ms| && ValidStore(es[0].store) && i < |es[0].store.sets|
    ensures Steppable(es[k], ms[k]) && ValidStore(es[k + 1].store) && i < |es[k].store.sets|
    ensures forall w :: w in WaysOf(es[k], ms[k], i) ==> UsesWay(es, ms, k, i, w)
  {
    hide MsgOk, View, Step, ApplyOps, LineFor;
    assert Admits(es[k], ms[k]);
    SameShape(es, ms, k);
    SameShape(es, ms, k + 1);
  }

  lemma AddedAtEnd(h: seq<nat>, before: seq<nat>, more: seq<nat>)
    requires |h| <= |before| && before[..|h|] == h
    ensures |h| <= |before + more| && (before + more)[..|h|] == h
    ensures forall w :: w in (before + more)[|h|..] ==> w in before[|h|..] || w in more
  {
    assert (before + more)[|h|..] == before[|h|..] + more;
  }

  /** After the first `j` steps, only the ways used in later steps are added. */
  lemma {:induction false} UsesGrow(es: seq<Engine>, ms: seq<Msg>, i: nat, j: nat, n: nat)
    requires IsRun(es, ms) && j <= n <= |ms| && ValidStore(es[0].store) && i < |es[0].store.sets|
    ensures var h, all := WaysUsed(es, ms, i, j), WaysUsed(es, ms, i, n);
            && |h| <= |all| && all[..|h|] == h
            && forall w :: w in all[|h|..] ==> UsedBetween(es, ms, j, n, i, w)
    decreases n
  {
    hide WaysOf, UsesWay, Admits, UsedBetween, ValidStore;
    if j < n {
      UsesGrow(es, ms, i, j, n - 1);
      WayOfIsUsed(es, ms, n - 1, i);
      SameShape(es, ms, n - 1);
      SameShape(es, ms, n);
      var h, before, more := WaysUsed(es, ms, i, j), WaysUsed(es, ms, i, n - 1), WaysOf(es[n - 1], ms[n - 1], i);
      var all := WaysUsed(es, ms, i, n);
      AddedAtEnd(h, before, more);
      assert all == before + more;
      forall w | w in all[|h|..] ensures UsedBetween(es, ms, j, n, i, w) { BetweenGrows(es, ms, j, n, i, w); }
    }
  }

  /** The way that step `j` used is not the victim while some other way has not been used since. */
  lemma UsedWayIsNotVictim(es: seq<Engine>, ms: seq<Msg>, j: nat, n: nat, i: nat, w: nat, other: nat)
    requires IsRun(es, ms) && j < n <= |ms| && Empty(es[0].store) && es[0].t == INITIAL_TABLES
    requires i < |es[0].store.sets| && Steppable(es[j], ms[j]) && i < |es[j].store.sets|
    requires WaysOf(es[j], ms[j], i) == [w] && other < es[0].store.numWays && other != w
    requires !UsedBetween(es, ms, j + 1, n, i, other)
    ensures ValidStore(es[n].store) && i < |es[n].store.sets|
    ensures Victim(es[n].store.sets[i].lru, es[n].store.numWays) != w
  {
    hide Admits, WaysOf, UsedBetween, Empty, Replay, Next;
    EmptyIsValid(es[0].store);
    SameShape(es, ms, n);
    RanksReplayUses(es, ms, i, n);
    UsesGrow(es, ms, i, j + 1, n);
    var h, all := WaysUsed(es, ms, i, j + 1), WaysUsed(es, ms, i, n);
    var later := all[|h|..];
    assert h == h[..|h| - 1] + [w] && h[|h| - 1] == w && all == h + later;
    assert other !in later;
    SomeOtherIsMissing(es[0].store.numWays, w, other, later);
    TouchedWaySurvives(es[0].store.numWays, h[..|h| - 1], w, later);
  }

  /** The line that step `j` used sits where it sat as long as it is not evicted and some other way of its set is not
      used. */
  lemma {:induction false} UsedLineSits(es: seq<Engine>, ms: seq<Msg>, j: nat, n: nat, l: LineNo, w: nat, other: nat)
    requires IsRun(es, ms) && j < n <= |ms| && Empty(es[0].store) && es[0].t == INITIAL_TABLES
    requires ValidStore(es[j].store) && Used(es[j], ms[j]) == Some(l)
    requires ValidStore(es[j + 1].store) && SitsIn(es[j + 1].store, l, w)
    requires forall k :: j < k < n && ms[k].Evict? ==> LineOf(ms[k].addr) != l
    requires other < es[0].store.numWays && other != w
    requires !UsedBetween(es, ms, j + 1, n, SetOf(|es[0].store.sets|, l), other)
    ensures ValidStore(es[n].store) && SitsIn(es[n].store, l, w)
    decreases n
  {
    hide Admits, WaysOf, UsedBetween, Empty, Next, SitsIn, Used, Consistent;
    EmptyIsValid(es[0].store);
    SameShape(es, ms, n);
    if n > j + 1 {
      BetweenGrows(es, ms, j + 1, n, SetOf(|es[0].store.sets|, l), other);
      UsedLineSits(es, ms, j, n - 1, l, w, other);
      var i, e, m := SetOf(|es[0].store.sets|, l), es[n - 1], ms[n - 1];
      SameShape(es, ms, n - 1);
      assert Admits(es[j], ms[j]) && Admits(e, m);
      AdmitsSteps(es[j], ms[j]);
      AdmitsSteps(e, m);
      SameShape(es, ms, j);
      WayOfUsed(es[j], ms[j], l, w);
      UsedWayIsNotVictim(es, ms, j, n - 1, i, w, other);
      RunConsistent(es, ms, n - 1);
      SitsUnlessVictim(e, m, l, w);
    }
  }

  lemma WayOfUsed(e: Engine, m: Msg, l: LineNo, w: nat)
    requires Steppable(e, m) && Used(e, m) == Some(l) && SitsIn(Next(e, m).store, l, w)
    ensures WaysOf(e, m, SetOf(|e.store.sets|, l)) == [w]
  {
    hide Next, Used, SitsIn;
    SittingIsViewed(Next(e, m).store, l, w);
    SitsWhere(e, m, l, w);
  }

  lemma SitsWhere(e: Engine, m: Msg, l: LineNo, w: nat)
    requires Steppable(e, m) && SitsIn(Next(e, m).store, l, w)
    ensures |Next(e, m).store.sets| == |e.store.sets| && w < e.store.numWays
  {
    hide Next;
  }

  /** True LRU over engine runs. If a line that step `j` looked up and found, or filled, is gone `n` steps into the run
      though nobody evicted it, then every other way of its set has been used in between. */
  lemma GoneOnlyAfterAllOthers(es: seq<Engine>, ms: seq<Msg>, j: nat, n: nat, l: LineNo, other: nat)
    requires IsRun(es, ms) && j < n <= |ms| && Empty(es[0].store) && es[0].t == INITIAL_TABLES
    requires ValidStore(es[j].store) && Used(es[j], ms[j]) == Some(l)
    requires forall k :: j < k < n && ms[k].Evict? ==> LineOf(ms[k].addr) != l
    requires ValidStore(es[n].store) && View(es[n].store, l) == None
    requires other < es[0].store.numWays
    ensures ValidStore(es[j + 1].store) && View(es[j + 1].store, l).Some?
    ensures SitsIn(es[j + 1].store, l, other) || UsedBetween(es, ms, j + 1, n, SetOf(|es[0].store.sets|, l), other)
  {
    hide Admits, UsedBetween, Empty, Next, SitsIn, Used, Consistent, View, WaysOf;
    EmptyIsValid(es[0].store);
    SameShape(es, ms, j + 1);
    assert Admits(es[j], ms[j]);
    RunConsistent(es, ms, j);
    var w := UsedSits(es[j], ms[j], l);
    SittingIsViewed(es[j + 1].store, l, w);
    if other != w && !UsedBetween(es, ms, j + 1, n, SetOf(|es[0].store.sets|, l), other) {
      UsedLineSits(es, ms, j, n, l, w, other);
      SittingIsViewed(es[n].store, l, w);
      assert false;
    }
  }

  lemma UsedSits(e: Engine, m: Msg, l: LineNo) returns (w: nat)
    requires Admits(e, m) && Consistent(e.t) && Used(e, m) == Some(l)
    ensures SitsIn(Next(e, m).store, l, w)
  {
    hide Next, Consistent, MsgOk, Used, Step;
    AdmitsSteps(e, m);
    StepTouches(e, m, SetOf(|e.store.sets|, l));
    w := WaysOf(e, m, SetOf(|e.store.sets|, l))[0];
  }
}
