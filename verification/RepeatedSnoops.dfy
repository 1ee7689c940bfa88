/** When a repeated snoop beat can occur at all: never in an orderly run, where a data snoop has a single target, but
    it does after a write from a node that is not the sole sharer. */
module RepeatedSnoops {
  import opened ChiTypes
  import opened CacheSets
  import opened CacheStore
  import opened EngineSpec
  import opened EngineTables
  import opened Directory
  import opened SnoopBarrier
  import opened WorkingSet
  import opened LineFrames
  import opened LateBeats
  import opened ExtraBeats
  import opened Coherence
  import opened Outcomes
  import opened Progress
  import opened RequesterWorld

  // ---------- orderly runs ----------

  /** No snoop is marked as answered with data, and whoever waits for data has asked one node only. */
  ghost predicate Unmarked(n: Net) {
    && n.e.t.counted == {}
    && (forall k :: k in n.e.t.pending && n.e.t.pending[k].state == WaitSnoopResp ==>
          SnoopsOf(n.e.t, k) * n.wants == {} || |SnoopsOf(n.e.t, k)| == 1)
  }

  /** A free dirty line in order has at most one node to snoop. */
  lemma DirtyLineHasOneTarget(v: Option<Line>, txn: Txn)
    requires LineOk(v) && v.Some? && Dirty(v.value.state)
    ensures |SnoopTargets(v, txn)| <= 1
  {
    var targets := SnoopTargets(v, txn);
    if targets != {} {
      var x :| x in targets;
      assert targets == {x};
    }
  }

  lemma SnoopOnlySends(t: Tables, v: Option<Line>, txn: Txn)
    requires Consistent(t) && RequestOk(t, v, txn)
    ensures var out := RecvRequest(t, v, txn);
            && out.t.counted == t.counted
            && (SentWanting(out.actions) != {} ==> v.Some? && Dirty(v.value.state))
            && (forall id <- SentWanting(out.actions) :: id >= t.nextSnoop)
  {
    hide RecvRequest, SnoopStep, SnoopTargets, Sent, SentWanting, IdRange, EntryOk, SnoopEntryOk, MemEntryOk;
    RequestShape(t, v, txn);
    if !IsWrite(txn.opcode) && SnoopTargets(v, txn) != {} {
      SnoopStepEffect(t, v.value, txn);
      SnoopStepSends(t, v.value, txn);
    } else {
      NoSnoopsSent(t, v, txn);
    }
  }

  /** The snoops of the entries after a request: old ones as before, a new one its targets. */
  lemma SnoopsAfterRequest(t: Tables, v: Option<Line>, txn: Txn, k: TxnID)
    requires Consistent(t) && RequestOk(t, v, txn)
    requires k in RecvRequest(t, v, txn).t.pending && RecvRequest(t, v, txn).t.pending[k].state == WaitSnoopResp
    ensures var t' := RecvRequest(t, v, txn).t;
            if k in t.pending then t.pending[k].state == WaitSnoopResp && SnoopsOf(t', k) == SnoopsOf(t, k)
            else v.Some? && SnoopsOf(t', k) == IdRange(t.nextSnoop, |SnoopTargets(v, txn)|)
  {
    hide RecvRequest, SnoopStep, SnoopTargets, Sent, SentWanting, IdRange, EntryOk, MemEntryOk, SnoopEntry, Ascending;
    RequestShape(t, v, txn);
    assert forall j :: j in t.snoopToOrig ==> SnoopEntryOk(t, j);
    if !IsWrite(txn.opcode) && SnoopTargets(v, txn) != {} {
      SnoopStepEffect(t, v.value, txn);
    } else {
      NoSnoopsSent(t, v, txn);
    }
  }

  lemma RequestKeepsUnmarked(n: Net, m: Msg)
    requires Sound(n) && DirectoryOk(n.e) && Unmarked(n) && NetAdmits(n, m) && m.Request?
             && Orderly(n.e.t, ViewFor(n.e, m), m)
    ensures Unmarked(NetNext(n, m))
  {
    hide RecvRequest, View, ApplyOps, Counts, Consistent, Sent, SentWanting, SnoopTargets, RequestOk, IdRange, LineOk,
         OneTxnPerLine;
    var t, v, txn := n.e.t, ViewFor(n.e, m), m.txn;
    BarrierIsConsistent(t, n.open, n.wants);
    StepIsRequest(t, v, m);
    SnoopOnlySends(t, v, txn);
    FreeLineIsOk(n.e, LineOf(txn.addr));
    var n' := NetNext(n, m);
    forall k | k in n'.e.t.pending && n'.e.t.pending[k].state == WaitSnoopResp
      ensures SnoopsOf(n'.e.t, k) * n'.wants == {} || |SnoopsOf(n'.e.t, k)| == 1
    {
      SnoopsAfterRequest(t, v, txn, k);
      OldWants(n, SentWanting(RecvRequest(t, v, txn).actions), k);
      if k !in t.pending && SentWanting(RecvRequest(t, v, txn).actions) != {} {
        DirtyLineHasOneTarget(v, txn);
      }
    }
  }

  lemma FreeLineIsOk(e: Engine, l: LineNo)
    requires DirectoryOk(e) && LineFree(e.t, l)
    ensures LineOk(View(e.store, l))
  {
    hide View, LineOk, Consistent;
    assert LineInv(e.t, l, View(e.store, l));
  }

  /** Snoops sent later are not among those of an entry in flight, nor are fresh ids among the wants so far. */
  lemma OldWants(n: Net, sent: set<TxnID>, k: TxnID)
    requires Sound(n) && forall id <- sent :: id >= n.e.t.nextSnoop
    ensures SnoopsOf(n.e.t, k) * (n.wants + sent) == SnoopsOf(n.e.t, k) * n.wants
    ensures forall s: set<TxnID> :: (forall id <- s :: id >= n.e.t.nextSnoop) ==> s * n.wants == {}
  {
    assert forall id :: id in n.e.t.snoopToOrig ==> SnoopEntryOk(n.e.t, id);
  }

  /** A beat for the only snoop of a transaction that nobody has answered completes it, and leaves no mark. */
  lemma OnlyBeatCompletes(n: Net, m: Msg)
    requires Sound(n) && Unmarked(n) && NetAdmits(n, m) && m.DataBeat? && m.txnId in n.e.t.snoopToOrig
    ensures NetNext(n, m).e.t.counted == {}
    ensures NetNext(n, m).e.t.snoopToOrig.Keys <= n.e.t.snoopToOrig.Keys
    ensures n.e.t.snoopToOrig[m.txnId] !in NetNext(n, m).e.t.pending
  {
    hide Consistent, Step, View, ViewFor, ApplyOps, Sent, SentWanting, Barrier, MsgOk;
    var t, id := n.e.t, m.txnId;
    OwnerOf(t, n.open, n.wants, id);
    var k := t.snoopToOrig[id];
    var mine := SnoopsOf(t, k);
    assert id in mine && id in mine * n.wants;
    OnlyMember(mine, id);
    assert mine * n.open == {id} by {
      assert CountsAre(t.pending[k], mine, mine * n.open, mine * n.wants, mine * t.counted);
    }
    CompletesIffLastSilentNode(n, m);
    AnswerStep(t, ViewFor(n.e, m), m, id);
    AnsweredGoesIffFinished(t, id, true, ViewFor(n.e, m));
  }

  lemma OnlyMember(s: set<TxnID>, id: TxnID)
    requires |s| == 1 && id in s
    ensures s == {id}
  {
    SubsetSize({id}, s);
  }

  lemma DeliveryKeepsUnmarked(n: Net, m: Msg)
    requires Sound(n) && Unmarked(n) && NetAdmits(n, m) && !m.Request?
    ensures Unmarked(NetNext(n, m))
  {
    hide Consistent, Step, View, ApplyOps, Barrier, RequestOk, Counts, Sent, SentWanting, ViewFor, LineFor;
    var t, v := n.e.t, ViewFor(n.e, m);
    BarrierIsConsistent(t, n.open, n.wants);
    DeliveryKeepsBarrier(n, m);
    EntriesAfter(t, v, m);
    StepKeepsOtherSnoops(t, v, m);
    DeliveryAddsNoSnoops(t, v, m);
    if m.DataBeat? && m.txnId in t.snoopToOrig {
      OnlyBeatCompletes(n, m);
    } else {
      MarksStay(t, v, m);
    }
    var n' := NetNext(n, m);
    assert n.wants + {} == n.wants;
    forall k | k in n'.e.t.pending && n'.e.t.pending[k].state == WaitSnoopResp
      ensures SnoopsOf(n'.e.t, k) * n'.wants == {} || |SnoopsOf(n'.e.t, k)| == 1
    {
      ChangedStays(t, v, m, k);
      SnoopsStayWhileWaiting(n, m, k);
    }
  }

  lemma MarksStay(t: Tables, v: Option<Line>, m: Msg)
    requires Consistent(t) && Deliverable(t, m) && !m.Request? && t.counted == {}
    requires m.DataBeat? ==> m.txnId !in t.snoopToOrig
    ensures Step(t, v, m).t.counted == {}
  {
    hide ViewOps, ApplyView, Consistent, RecvSnoopData;
  }

  /** While its transaction stays in flight a delivery takes none of its snoops away. */
  lemma SnoopsStayWhileWaiting(n: Net, m: Msg, k: TxnID)
    requires Sound(n) && NetAdmits(n, m) && !m.Request? && k in n.e.t.pending && k in NetNext(n, m).e.t.pending
    ensures SnoopsOf(NetNext(n, m).e.t, k) == SnoopsOf(n.e.t, k)
  {
    hide Consistent, View, ViewOps, ApplyView, ApplyOps, Counts, Sent, SentWanting, Finished, FallbackOk;
  }

  lemma {:induction false} RunUnmarked(ns: seq<Net>, ms: seq<Msg>, i: nat)
    requires IsNetRun(ns, ms) && DirectoryOk(ns[0].e) && i <= |ms|
    requires forall j :: 0 <= j < |ms| ==>
               ValidStore(ns[j].e.store) && Orderly(ns[j].e.t, ViewFor(ns[j].e, ms[j]), ms[j])
    ensures Sound(ns[i]) && DirectoryOk(ns[i].e) && Unmarked(ns[i])
  {
    hide Sound, DirectoryOk, Orderly, NetAdmits, NetNext, ViewFor;
    RunSound(ns, ms, i);
    if i > 0 {
      RunUnmarked(ns, ms, i - 1);
      assert NetAdmits(ns[i - 1], ms[i - 1]);
      StepUnmarked(ns[i - 1], ms[i - 1]);
    }
  }

  lemma StepUnmarked(n: Net, m: Msg)
    requires Sound(n) && DirectoryOk(n.e) && Unmarked(n) && NetAdmits(n, m) && Orderly(n.e.t, ViewFor(n.e, m), m)
    ensures DirectoryOk(NetNext(n, m).e) && Unmarked(NetNext(n, m))
  {
    hide Sound, DirectoryOk, Orderly, Unmarked, ViewFor, Next, StepOut, MsgOk, AnsweredAsAsked;
    NextKeepsDirectory(n.e, m);
    if m.Request? { RequestKeepsUnmarked(n, m); } else { DeliveryKeepsUnmarked(n, m); }
  }

  /** In orderly runs no beat ever repeats an answered snoop of a waiting transaction: the first beat completes it. */
  lemma OrderlyRunsNeverRepeat(ns: seq<Net>, ms: seq<Msg>, i: nat, m: Msg)
    requires IsNetRun(ns, ms) && DirectoryOk(ns[0].e) && i <= |ms|
    requires forall j :: 0 <= j < |ms| ==>
               ValidStore(ns[j].e.store) && Orderly(ns[j].e.t, ViewFor(ns[j].e, ms[j]), ms[j])
    ensures !Repeats(ns[i], m)
  {
    hide Sound, DirectoryOk, Orderly, IsNetRun;
    RunUnmarked(ns, ms, i);
  }

  /** In a coherent world, too, no waiting transaction has an answered snoop. */
  lemma CoherentWaitersAreUnmarked(w: World, l: LineNo, k: TxnID)
    requires Safe(w) && l in w.envs && k in w.e.t.pending && EntryLine(w.e.t.pending[k]) == l
    requires w.e.t.pending[k].state == WaitSnoopResp && w.e.t.pending[k].beats > 0
    ensures SnoopsOf(w.e.t, k) !! w.e.t.counted
  {
    hide Fits, HoldsOnly, View, OneTxnPerLine, CopiesOk, FreeOk, IdsOk, PlainSnoopOk, Consistent;
    assert Coherent(w.e.t, View(w.e.store, l), w.envs[l], l);
    assert InFlightOk(w.e.t, k, View(w.e.store, l), w.envs[l]);
  }

  // ---------- a run in which a beat repeats ----------

  /** The engine with these tables, this line 0, these snoops open and these wanting data. */
  ghost predicate At(n: Net, t: Tables, v: Option<Line>, open: set<TxnID>, wants: set<TxnID>) {
    Roomy(n.e, {0}) && n.e.t == t && View(n.e.store, 0) == v && n.open == open && n.wants == wants
  }

  /** One message about line 0. */
  lemma OneStep(n: Net, t: Tables, v: Option<Line>, open: set<TxnID>, wants: set<TxnID>, m: Msg)
    requires At(n, t, v, open, wants) && MsgOk(t, v, m) && LineFor(t, m) == Some(0) && !m.Evict?
    requires m.DataBeat? && m.txnId in t.snoopToOrig ==> m.txnId in wants
    requires m.Response? ==> m.txnId !in t.snoopToOrig
    ensures NetAdmits(n, m)
    ensures var out := Step(t, v, m);
            At(NetNext(n, m), out.t, ViewOps(v, out.ops), open - AnswerId(m) + Sent(out.actions),
                wants + SentWanting(out.actions))
  {
    hide Step, View, ApplyOps, ViewOps, Sent, SentWanting, Consistent, Fits, HoldsOnly, RequestOk;
    RequestLineIs(t, m);
    NextKeepsRoomy(n.e, m, {0});
    RoomyStepViews(n.e, m, {0}, 0);
  }

  /** A run whose last state is described by `At`. */
  ghost predicate RunTo(ns: seq<Net>, ms: seq<Msg>, t: Tables, v: Option<Line>, open: set<TxnID>, wants: set<TxnID>) {
    IsNetRun(ns, ms) && At(ns[|ms|], t, v, open, wants)
  }

  lemma Extend(ns: seq<Net>, ms: seq<Msg>, t: Tables, v: Option<Line>, open: set<TxnID>, wants: set<TxnID>, m: Msg,
               t': Tables, v': Option<Line>, open': set<TxnID>, wants': set<TxnID>)
    returns (ns': seq<Net>, ms': seq<Msg>)
    requires RunTo(ns, ms, t, v, open, wants) && MsgOk(t, v, m) && LineFor(t, m) == Some(0) && !m.Evict?
    requires m.DataBeat? && m.txnId in t.snoopToOrig ==> m.txnId in wants
    requires m.Response? ==> m.txnId !in t.snoopToOrig
    requires Step(t, v, m).t == t' && ViewOps(v, Step(t, v, m).ops) == v'
    requires open' == open - AnswerId(m) + Sent(Step(t, v, m).actions)
             && wants' == wants + SentWanting(Step(t, v, m).actions)
    ensures RunTo(ns', ms', t', v', open', wants') && ns'[0] == ns[0]
  {
    hide Step, ViewOps, Sent, SentWanting, NetNext, NetAdmits, At, MsgOk, LineFor;
    OneStep(ns[|ms|], t, v, open, wants, m);
    ns', ms' := ns + [NetNext(ns[|ms|], m)], ms + [m];
  }

  function Req(id: TxnID, op: Opcode, src: NodeID): Txn { Txn(id, op, 0, src) }

  /** The tables once a memory read is done: one memory id has been handed out. */
  function Quiet(): Tables { INITIAL_TABLES.(nextMem := MEM_ID_BASE + 1) }

  function Reading(): Tables {
    Quiet().(pending := map[MEM_ID_BASE := PendingTxn(Req(1, ReadUnique, 1), WaitMemData, UD, 0, 0)],
        memToOrig := map[MEM_ID_BASE := 1])
  }

  function Writing(): Tables {
    Quiet().(pending := map[2 := PendingTxn(Req(2, WriteUniqueFull, 2), WaitL1Data, I, 0, 0)])
  }

  function Snooping(snoops: int, counted: set<TxnID>): Tables {
    Quiet().(pending := map[3 := PendingTxn(Req(3, ReadShared, 3), WaitSnoopResp, SC, snoops, snoops)],
             snoopToOrig := map[SNOOP_ID_BASE := 3, SNOOP_ID_BASE + 1 := 3], nextSnoop := SNOOP_ID_BASE + 2,
             counted := counted)
  }

  lemma NoSnoopsYet()
    ensures Reading().snoopToOrig == map[] && Writing().snoopToOrig == map[]
  {
  }

  lemma ReadMisses()
    ensures var m := Request(Req(1, ReadUnique, 1));
            MsgOk(INITIAL_TABLES, None, m) && LineFor(INITIAL_TABLES, m) == Some(0)
            && Step(INITIAL_TABLES, None, m) == Out(Reading(), [Touch], [SendReadNoSnp(0, MEM_ID_BASE)])
  {
  }

  lemma ReadFills(data: Data)
    ensures var m := DataBeat(MEM_ID_BASE, 0, data, None);
            MsgOk(Reading(), None, m) && LineFor(Reading(), m) == Some(0)
            && var out := Step(Reading(), None, m);
               out.t == Quiet() && ViewOps(None, out.ops) == Some(Line(UD, data, {1}))
                 && Sent(out.actions) == {} == SentWanting(out.actions)
  {
    hide ViewOps, Sent, SentWanting;
    var out := Step(Reading(), None, DataBeat(MEM_ID_BASE, 0, data, None));
    MemDataLeaves(Reading(), None, MEM_ID_BASE, data);
    assert {} + {1 as NodeID} == {1};
    NothingSent(out.actions);
    assert out.t.pending == map[] && out.t.memToOrig == map[];
  }

  lemma WriteParks(data: Data)
    ensures var m, v := Request(Req(2, WriteUniqueFull, 2)), Some(Line(UD, data, {1}));
            MsgOk(Quiet(), v, m) && LineFor(Quiet(), m) == Some(0)
            && var out := Step(Quiet(), v, m);
               out.t == Writing() && out.ops == [] && Sent(out.actions) == {} == SentWanting(out.actions)
  {
    hide Sent, SentWanting;
    NothingSent([SendCompDBIDResp(0, 2, 2)]);
  }

  lemma WriteLands(data: Data)
    ensures var m, v := DataBeat(2, 0, data, Some(2)), Some(Line(UD, data, {1}));
            MsgOk(Writing(), v, m) && LineFor(Writing(), m) == Some(0)
            && var out := Step(Writing(), v, m);
               out.t == Quiet() && ViewOps(v, out.ops) == Some(Line(UD, data, {1, 2}))
                 && Sent(out.actions) == {} == SentWanting(out.actions)
  {
    hide ViewOps, Sent, SentWanting;
    var v := Some(Line(UD, data, {1}));
    WriteDataLeaves(Writing(), v, 2, data);
    assert {1 as NodeID} + {2} == {1, 2};
    NothingSent([]);
    assert Step(Writing(), v, DataBeat(2, 0, data, Some(2))).t.pending == map[];
  }

  lemma TwoTargets(data: Data)
    ensures SnoopTargets(Some(Line(UD, data, {1, 2})), Req(3, ReadShared, 3)) == {1, 2}
    ensures |SnoopTargets(Some(Line(UD, data, {1, 2})), Req(3, ReadShared, 3))| == 2
  {
    var s: set<NodeID> := {1, 2};
    assert s - {3} == s && |s| == 2;
  }

  lemma ReadSnoops(data: Data)
    ensures var m, v := Request(Req(3, ReadShared, 3)), Some(Line(UD, data, {1, 2}));
            MsgOk(Quiet(), v, m) && LineFor(Quiet(), m) == Some(0)
            && var out, ids := Step(Quiet(), v, m), {SNOOP_ID_BASE, SNOOP_ID_BASE + 1};
               out.t == Snooping(2, {}) && ViewOps(v, out.ops) == v
                 && Sent(out.actions) == ids == SentWanting(out.actions)
  {
    hide ViewOps, Ascending, SnoopStep, Sent, SentWanting, RecvRequest, IdRange, SnoopTargets;
    var line, txn := Line(UD, data, {1, 2}), Req(3, ReadShared, 3);
    TwoTargets(data);
    RequestShape(Quiet(), Some(line), txn);
    SnoopStepEffect(Quiet(), line, txn);
    SnoopStepSends(Quiet(), line, txn);
    ViewShort(Some(line), Touch, Touch, Touch, Touch);
    assert SnoopStep(Quiet(), line, txn).t.snoopToOrig == Snooping(2, {}).snoopToOrig;
    assert IdRange(SNOOP_ID_BASE, 2) == {SNOOP_ID_BASE, SNOOP_ID_BASE + 1};
  }

  lemma FirstBeat(data: Data)
    ensures var m, v := DataBeat(SNOOP_ID_BASE, 0, data, None), Some(Line(UD, data, {1, 2}));
            MsgOk(Snooping(2, {}), v, m) && LineFor(Snooping(2, {}), m) == Some(0)
            && var out := Step(Snooping(2, {}), v, m);
               out.t == Snooping(1, {SNOOP_ID_BASE}) && ViewOps(v, out.ops) == Some(Line(SC, data, {1, 2}))
               && Sent(out.actions) == {} == SentWanting(out.actions)
  {
    hide ViewOps, Sent, SentWanting, Complete;
    var v := Some(Line(UD, data, {1, 2}));
    ViewShort(v, Fill(SC, data), Touch, Touch, Touch);
    NothingSent([]);
    assert {} + {SNOOP_ID_BASE} == {SNOOP_ID_BASE};
  }

  /** After a write from a node that is not the sole sharer, two nodes are asked for their data, and beats can
      repeat. */
  lemma ARunThatRepeats(data: Data) returns (ns: seq<Net>, ms: seq<Msg>)
    ensures IsNetRun(ns, ms) && NetAdmits(ns[|ms|], DataBeat(SNOOP_ID_BASE, 0, data, None))
    ensures Repeats(ns[|ms|], DataBeat(SNOOP_ID_BASE, 0, data, None))
  {
    hide At, Fresh, NetAdmits, Repeats, NetNext;
    var w := SmallWorld(data);
    FreshAt(w, data);
    ns, ms := TwoSharersAsked(Net(w.e, {}, {}), data);
    ns, ms := AnswerOnce(ns, ms, data);
    NextBeatIsAdmitted(ns[|ms|], data);
  }

  lemma FreshAt(w: World, data: Data)
    requires Fresh(w) && w.envs == map[0 := AtRest(data)]
    ensures At(Net(w.e, {}, {}), INITIAL_TABLES, None, {}, {})
  {
    hide View, Fits;
    assert w.envs.Keys == {0};
    EmptyIsRoomy(w.e, {0});
  }

  ghost const BOTH: set<TxnID> := {SNOOP_ID_BASE, SNOOP_ID_BASE + 1}

  lemma TwoSharersAsked(n: Net, data: Data) returns (ns: seq<Net>, ms: seq<Msg>)
    requires At(n, INITIAL_TABLES, None, {}, {})
    ensures RunTo(ns, ms, Snooping(2, {}), Some(Line(UD, data, {1, 2})), BOTH, BOTH) && ns[0] == n
  {
    hide Step, ViewOps, At, MsgOk, LineFor, Sent, SentWanting, Snooping, Writing, Reading, Quiet;
    NoSnoopsYet();
    Unfold(n, INITIAL_TABLES, None, {}, {});
    var one, both := Some(Line(UD, data, {1})), Some(Line(UD, data, {1, 2}));
    ReadMisses();
    NothingSent([SendReadNoSnp(0, MEM_ID_BASE)]);
    ViewShort(None, Touch, Touch, Touch, Touch);
    ns, ms := Extend([n], [], INITIAL_TABLES, None, {}, {}, Request(Req(1, ReadUnique, 1)), Reading(), None, {}, {});
    ReadFills(data);
    ns, ms := Extend(ns, ms, Reading(), None, {}, {}, DataBeat(MEM_ID_BASE, 0, data, None), Quiet(), one, {}, {});
    WriteParks(data);
    ViewShort(one, Touch, Touch, Touch, Touch);
    ns, ms := Extend(ns, ms, Quiet(), one, {}, {}, Request(Req(2, WriteUniqueFull, 2)), Writing(), one, {}, {});
    WriteLands(data);
    ns, ms := Extend(ns, ms, Writing(), one, {}, {}, DataBeat(2, 0, data, Some(2)), Quiet(), both, {}, {});
    ReadSnoops(data);
    ns, ms := Extend(ns, ms, Quiet(), both, {}, {}, Request(Req(3, ReadShared, 3)), Snooping(2, {}), both, BOTH, BOTH);
  }

  lemma Unfold(n: Net, t: Tables, v: Option<Line>, open: set<TxnID>, wants: set<TxnID>)
    requires At(n, t, v, open, wants)
    ensures n.e.t == t && n.open == open && n.wants == wants && ValidStore(n.e.store)
  {
    hide View;
  }

  lemma AnswerOnce(ns: seq<Net>, ms: seq<Msg>, data: Data) returns (ns': seq<Net>, ms': seq<Msg>)
    requires RunTo(ns, ms, Snooping(2, {}), Some(Line(UD, data, {1, 2})), BOTH, BOTH)
    ensures RunTo(ns', ms', Snooping(1, {SNOOP_ID_BASE}), Some(Line(SC, data, {1, 2})), BOTH - {SNOOP_ID_BASE}, BOTH)
            && ns'[0] == ns[0]
  {
    hide Step, ViewOps, At, MsgOk, LineFor, Sent, SentWanting;
    FirstBeat(data);
    ns', ms' := Extend(ns, ms, Snooping(2, {}), Some(Line(UD, data, {1, 2})), BOTH, BOTH,
        DataBeat(SNOOP_ID_BASE, 0, data, None),
        Snooping(1, {SNOOP_ID_BASE}), Some(Line(SC, data, {1, 2})), BOTH - {SNOOP_ID_BASE}, BOTH);
  }

  lemma NextBeatIsAdmitted(n: Net, data: Data)
    requires At(n, Snooping(1, {SNOOP_ID_BASE}), Some(Line(SC, data, {1, 2})), BOTH - {SNOOP_ID_BASE}, BOTH)
    ensures NetAdmits(n, DataBeat(SNOOP_ID_BASE, 0, data, None)) && Repeats(n, DataBeat(SNOOP_ID_BASE, 0, data, None))
  {
    hide View, Consistent, Fits, HoldsOnly;
  }
}
