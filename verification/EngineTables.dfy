/** What every message keeps: the four tables stay linked, the id ranges stay apart, and so every message
    reaches the transaction it belongs to. */
module EngineTables {
  import opened ChiTypes
  import opened CacheStore
  import opened EngineSpec

  // ---------- the shape of a request step ----------

  /** The nodes a request makes the engine snoop. */
  function SnoopTargets(v: Option<Line>, txn: Txn): set<NodeID> {
    match v
    case None => {}
    case Some(line) =>
      match txn.opcode
      case ReadShared | ReadNoSnp | ReadOnce => if Dirty(line.state) then line.sharers - {txn.src} else {}
      case ReadUnique | ReadNotSharedDirty => line.sharers - {txn.src}
      case CleanUnique => if Unique(line.state) then {} else line.sharers - {txn.src}
      case _ => {}
  }

  function SnoopKindFor(line: Line, op: Opcode): SnoopKind {
    match op
    case ReadUnique | ReadNotSharedDirty => SnpUnique
    case ReadOnce => SnpOnce
    case CleanUnique => if line.state == SD then SnpNotSharedDirty else SnpCleanInvalid
    case _ => SnpCleanInvalid
  }

  /** The state the line is to end in. */
  function TargetState(op: Opcode): LineState {
    match op
    case ReadUnique | ReadNotSharedDirty => UD
    case CleanUnique => UC
    case _ => SC
  }

  function SnoopStep(t: Tables, line: Line, txn: Txn): Out {
    Snoop(t, txn, TargetState(txn.opcode), SnoopKindFor(line, txn.opcode), SnoopTargets(Some(line), txn),
        Dirty(line.state))
  }

  /** A request parks a write, snoops, fetches from memory, cleans a dirty line, or is served at once. */
  lemma RequestShape(t: Tables, v: Option<Line>, txn: Txn)
    ensures var out := RecvRequest(t, v, txn);
            if IsWrite(txn.opcode) then out == HandleWrite(t, txn)
            else if SnoopTargets(v, txn) != {} then v.Some? && out == SnoopStep(t, v.value, txn)
            else if v.None? || txn.opcode == Other then
              out.t == AwaitMemory(t, txn, WaitMemData, TargetState(txn.opcode))
                && out.actions == [SendReadNoSnp(txn.addr, t.nextMem)]
            else if txn.opcode == CleanUnique && v.value.state == UD then out == CleanDirtyLine(t, v.value, txn)
            else out.t == t && |out.actions| == 1 && !out.actions[0].SendSnoop?
  {
    hide IssueSnoops, Ascending, ViewOps;
  }

  lemma RequestStepIs(t: Tables, v: Option<Line>, txn: Txn)
    ensures Step(t, v, Request(txn)) == RecvRequest(t, v, txn)
  {
    hide RecvRequest;
  }

  /** The key under which a request leaves a pending entry, if it leaves one. */
  function KeyUsed(t: Tables, v: Option<Line>, txn: Txn): Option<TxnID> {
    if IsWrite(txn.opcode) || SnoopTargets(v, txn) != {} then Some(txn.txnID)
    else if v.None? || txn.opcode == Other || (txn.opcode == CleanUnique && v.value.state == UD) then Some(t.nextMem)
    else None
  }

  // ---------- issuing snoops ----------

  lemma {:induction false} IssueSnoopsEffect(t: Tables, txn: Txn, kind: SnoopKind, order: seq<NodeID>, ret: bool)
    requires t.nextSnoop + |order| < ID_LIMIT
    ensures var r := IssueSnoops(t, txn, kind, order, ret);
            && r.t == t.(snoopToOrig := r.t.snoopToOrig, nextSnoop := t.nextSnoop + |order|)
            && (forall k :: k in r.t.snoopToOrig <==> k in t.snoopToOrig || t.nextSnoop <= k < t.nextSnoop + |order|)
            && (forall k :: k in r.t.snoopToOrig ==>
                  r.t.snoopToOrig[k]
                  == (if t.nextSnoop <= k < t.nextSnoop + |order| then txn.txnID else t.snoopToOrig[k]))
            && |r.actions| == |order|
            && (forall i :: 0 <= i < |order| ==>
                  r.actions[i] == SendSnoop(kind, txn.addr, t.nextSnoop + i, order[i], ret))
  {
    if order != [] {
      IssueSnoopsEffect(t, txn, kind, order[..|order| - 1], ret);
    }
  }

  function SnoopEntry(line: Line, txn: Txn): PendingTxn {
    var n := |SnoopTargets(Some(line), txn)|;
    PendingTxn(txn, WaitSnoopResp, TargetState(txn.opcode), n, if Dirty(line.state) then n else 0)
  }

  /** What starting to snoop does to the tables and which snoops it sends. */
  lemma SnoopStepEffect(t: Tables, line: Line, txn: Txn)
    requires t.nextSnoop + |SnoopTargets(Some(line), txn)| < ID_LIMIT
    ensures var out := SnoopStep(t, line, txn);
            var order := Ascending(SnoopTargets(Some(line), txn));
            && out.ops == [Touch]
            && out.t == t.(pending := t.pending[txn.txnID := SnoopEntry(line, txn)],
                           snoopToOrig := out.t.snoopToOrig, nextSnoop := t.nextSnoop + |order|)
            && (forall k :: k in out.t.snoopToOrig <==> k in t.snoopToOrig || t.nextSnoop <= k < t.nextSnoop + |order|)
            && (forall k :: k in out.t.snoopToOrig ==>
                  out.t.snoopToOrig[k]
                  == (if t.nextSnoop <= k < t.nextSnoop + |order| then txn.txnID else t.snoopToOrig[k]))
            && |out.actions| == |order|
            && (forall i :: 0 <= i < |order| ==>
                  out.actions[i]
                  == SendSnoop(SnoopKindFor(line, txn.opcode), txn.addr, t.nextSnoop + i, order[i], Dirty(line.state)))
  {
    hide SnoopTargets, IssueSnoops, Ascending, TargetState, SnoopKindFor;
    IssueSnoopsEffect(t.(pending := t.pending[txn.txnID := SnoopEntry(line, txn)]), txn, SnoopKindFor(line, txn.opcode),
      Ascending(SnoopTargets(Some(line), txn)), Dirty(line.state));
  }

  /** The snoop a request owes to the `i`-th of its targets. */
  ghost predicate IsSnoopTo(a: Action, t: Tables, line: Line, txn: Txn, i: nat) {
    && a.SendSnoop? && a.dest in SnoopTargets(Some(line), txn) && a.kind == SnoopKindFor(line, txn.opcode)
    && a.addr == txn.addr && a.txnId == t.nextSnoop + i && a.retToSrc == Dirty(line.state)
  }

  /** Exactly one snoop goes to each of these nodes: under a fresh id, of the kind the opcode asks for, demanding data
      exactly if the line is dirty. */
  ghost predicate OneSnoopEach(t: Tables, v: Option<Line>, txn: Txn, actions: seq<Action>) {
    && (SnoopTargets(v, txn) != {} ==>
          v.Some? && |actions| == |SnoopTargets(v, txn)|
          && (forall i :: 0 <= i < |actions| ==> IsSnoopTo(actions[i], t, v.value, txn, i)))
    && (forall i :: 0 <= i < |actions| && actions[i].SendSnoop? ==> actions[i].dest in SnoopTargets(v, txn))
    && (forall n :: n in SnoopTargets(v, txn) ==>
          exists i :: 0 <= i < |actions| && actions[i].SendSnoop? && actions[i].dest == n)
    && (forall i, j :: 0 <= i < j < |actions| && actions[i].SendSnoop? && actions[j].SendSnoop? ==>
          actions[i].dest != actions[j].dest)
  }

  lemma SnoopStepSendsOneEach(t: Tables, line: Line, txn: Txn)
    requires t.nextSnoop + |SnoopTargets(Some(line), txn)| < ID_LIMIT && SnoopTargets(Some(line), txn) != {}
    ensures OneSnoopEach(t, Some(line), txn, SnoopStep(t, line, txn).actions)
  {
    hide SnoopTargets, SnoopStep, SnoopKindFor, Ascending;
    SnoopStepEffect(t, line, txn);
    var actions, targets := SnoopStep(t, line, txn).actions, SnoopTargets(Some(line), txn);
    var order := Ascending(targets);
    forall n | n in targets
      ensures exists i :: 0 <= i < |actions| && actions[i].SendSnoop? && actions[i].dest == n
    {
      assert n in order;
      var i :| 0 <= i < |order| && order[i] == n;
      assert actions[i].dest == n;
    }
    assert forall i :: 0 <= i < |order| ==> order[i] in order;
  }

  /** A request snoops exactly the nodes it has to, once each, and a request with nobody to snoop sends no snoop. */
  lemma OneSnoopPerOtherSharer(t: Tables, v: Option<Line>, txn: Txn)
    requires t.nextSnoop + |SnoopTargets(v, txn)| < ID_LIMIT
    ensures OneSnoopEach(t, v, txn, RecvRequest(t, v, txn).actions)
  {
    hide SnoopTargets, SnoopStep, SnoopKindFor, RecvRequest, OneSnoopEach;
    RequestShape(t, v, txn);
    WritesSnoopNobody(v, txn);
    if SnoopTargets(v, txn) != {} {
      SnoopStepSendsOneEach(t, v.value, txn);
    } else {
      NobodyToSnoop(t, v, txn, RecvRequest(t, v, txn).actions);
    }
  }

  lemma WritesSnoopNobody(v: Option<Line>, txn: Txn)
    ensures IsWrite(txn.opcode) ==> SnoopTargets(v, txn) == {}
    ensures SnoopTargets(v, txn) != {} ==> v.Some?
  {
  }

  lemma NobodyToSnoop(t: Tables, v: Option<Line>, txn: Txn, actions: seq<Action>)
    requires SnoopTargets(v, txn) == {} && forall i :: 0 <= i < |actions| ==> !actions[i].SendSnoop?
    ensures OneSnoopEach(t, v, txn, actions)
  {
  }

  // ---------- the invariant ----------

  predicate OnMemory(s: PendingState) { s == WaitMemData || s == WaitMemWriteAck }

  predicate RequesterId(id: TxnID) { id < SNOOP_ID_BASE }

  ghost predicate EntryOk(t: Tables, k: TxnID)
    requires k in t.pending
  {
    var pt := t.pending[k];
    && RequesterId(pt.req.txnID)
    && (if OnMemory(pt.state) then MEM_ID_BASE <= k < t.nextMem else k == pt.req.txnID)
    && (if IsWrite(pt.req.opcode) then pt.state == WaitL1Data
        else pt.state != WaitL1Data && pt.target == TargetState(pt.req.opcode))
    && (pt.state == WaitSnoopResp ==> !Finished(pt))
  }

  ghost predicate SnoopEntryOk(t: Tables, k: TxnID)
    requires k in t.snoopToOrig
  {
    && SNOOP_ID_BASE <= k < t.nextSnoop
    && t.snoopToOrig[k] in t.pending && t.pending[t.snoopToOrig[k]].state == WaitSnoopResp
  }

  ghost predicate MemEntryOk(t: Tables, k: TxnID)
    requires k in t.memToOrig
  {
    k in t.pending && OnMemory(t.pending[k].state) && t.memToOrig[k] == t.pending[k].req.txnID
  }

  /** The tables are linked as intended and every id lies in its own range. */
  ghost predicate Consistent(t: Tables) {
    && SNOOP_ID_BASE <= t.nextSnoop <= MEM_ID_BASE <= t.nextMem
    && (forall k :: k in t.pending ==> EntryOk(t, k))
    && (forall k :: k in t.snoopToOrig ==> SnoopEntryOk(t, k))
    && (forall k :: k in t.memToOrig ==> MemEntryOk(t, k))
    && t.counted <= t.snoopToOrig.Keys
  }

  /** What the engine relies on for a request: a requester id, free where the engine keys on it, and room in
      the id ranges. */
  ghost predicate RequestOk(t: Tables, v: Option<Line>, txn: Txn) {
    && RequesterId(txn.txnID)
    && (IsWrite(txn.opcode) || SnoopTargets(v, txn) != {} ==> txn.txnID !in t.pending)
    && t.nextSnoop + |SnoopTargets(v, txn)| <= MEM_ID_BASE
    && t.nextMem + 1 < ID_LIMIT
  }

  ghost predicate MsgOk(t: Tables, v: Option<Line>, m: Msg) {
    Deliverable(t, m) && (m.Request? ==> RequestOk(t, v, m.txn))
  }

  lemma InitiallyConsistent()
    ensures Consistent(INITIAL_TABLES)
  {
  }

  /** An untouched entry stays in order when only counters and other entries change. */
  lemma EntryStaysOk(t: Tables, t': Tables, k: TxnID)
    requires k in t.pending && EntryOk(t, k) && t.nextMem <= t'.nextMem
    requires k in t'.pending && t'.pending[k] == t.pending[k]
    ensures EntryOk(t', k)
  {
  }

  lemma SnoopKeepsConsistent(t: Tables, line: Line, txn: Txn)
    requires Consistent(t) && RequestOk(t, Some(line), txn) && SnoopTargets(Some(line), txn) != {}
             && !IsWrite(txn.opcode)
    ensures Consistent(SnoopStep(t, line, txn).t)
  {
    hide SnoopTargets, SnoopStep, TargetState, Ascending, EntryOk, SnoopEntry;
    SnoopStepEffect(t, line, txn);
    var t' := SnoopStep(t, line, txn).t;
    NewSnoopEntryOk(t', line, txn);
    forall k | k in t.pending ensures EntryOk(t', k) { EntryStaysOk(t, t', k); }
    assert forall k :: k in t.snoopToOrig ==> SnoopEntryOk(t, k);
    assert forall k :: k in t.memToOrig ==> MemEntryOk(t, k);
  }

  lemma NewSnoopEntryOk(t: Tables, line: Line, txn: Txn)
    requires txn.txnID in t.pending && t.pending[txn.txnID] == SnoopEntry(line, txn) && RequesterId(txn.txnID)
    requires SnoopTargets(Some(line), txn) != {} && !IsWrite(txn.opcode)
    ensures EntryOk(t, txn.txnID) && t.pending[txn.txnID].state == WaitSnoopResp
  {
    hide SnoopTargets;
  }

  lemma AwaitMemoryKeepsConsistent(t: Tables, txn: Txn, state: PendingState, target: LineState)
    requires Consistent(t) && RequesterId(txn.txnID) && t.nextMem + 1 < ID_LIMIT && OnMemory(state)
    requires !IsWrite(txn.opcode) && target == TargetState(txn.opcode)
    ensures Consistent(AwaitMemory(t, txn, state, target))
  {
    var t' := AwaitMemory(t, txn, state, target);
    assert t.nextMem in t.pending ==> EntryOk(t, t.nextMem);
    assert forall k :: k in t.pending ==> EntryOk(t, k);
    assert forall k :: k in t.snoopToOrig ==> SnoopEntryOk(t, k);
    assert forall k :: k in t.memToOrig ==> MemEntryOk(t, k);
  }

  lemma RequestKeepsConsistent(t: Tables, v: Option<Line>, txn: Txn)
    requires Consistent(t) && RequestOk(t, v, txn)
    ensures Consistent(RecvRequest(t, v, txn).t)
  {
    hide RecvRequest, SnoopStep, AwaitMemory;
    RequestShape(t, v, txn);
    if IsWrite(txn.opcode) {
      WriteKeepsConsistent(t, txn);
    } else if SnoopTargets(v, txn) != {} {
      SnoopKeepsConsistent(t, v.value, txn);
    } else if v.None? || txn.opcode == Other {
      AwaitMemoryKeepsConsistent(t, txn, WaitMemData, TargetState(txn.opcode));
    } else if txn.opcode == CleanUnique && v.value.state == UD {
      AwaitMemoryKeepsConsistent(t, txn, WaitMemWriteAck, UC);
    }
  }

  lemma WriteKeepsConsistent(t: Tables, txn: Txn)
    requires Consistent(t) && RequesterId(txn.txnID) && txn.txnID !in t.pending && IsWrite(txn.opcode)
    ensures Consistent(HandleWrite(t, txn).t)
  {
    var t' := HandleWrite(t, txn).t;
    assert forall k :: k in t.pending ==> EntryOk(t, k);
    assert forall k :: k in t.snoopToOrig ==> SnoopEntryOk(t, k);
    assert forall k :: k in t.memToOrig ==> MemEntryOk(t, k);
  }

  lemma CompleteKeepsConsistent(t: Tables, v: Option<Line>, orig: TxnID)
    requires orig in t.pending && Consistent(t.(pending := t.pending[orig := t.pending[orig].(snoops := 1)]))
    requires t.pending[orig].state == WaitSnoopResp
    ensures Consistent(Complete(t, v, orig).t)
  {
    hide ViewOps, Finished, TargetState;
    var t1 := t.(pending := t.pending[orig := t.pending[orig].(snoops := 1)]);
    var t2 := Complete(t, v, orig).t;
    assert forall k :: k in t2.pending ==> EntryOk(t1, k);
    assert forall k :: k in t2.snoopToOrig ==> SnoopEntryOk(t1, k);
    assert forall k :: k in t2.memToOrig ==> MemEntryOk(t1, k);
  }

  /** Retiring an entry that is not snooping, together with its memory entry. */
  lemma DropEntryKeepsConsistent(t: Tables, k: TxnID, mem: map<TxnID, TxnID>)
    requires Consistent(t) && k in t.pending && t.pending[k].state != WaitSnoopResp
    requires k !in mem && forall j :: j in mem ==> j in t.memToOrig && mem[j] == t.memToOrig[j]
    ensures Consistent(t.(pending := Without(t.pending, k), memToOrig := mem))
  {
    hide Finished;
    var t' := t.(pending := Without(t.pending, k), memToOrig := mem);
    assert forall j :: j in t'.pending ==> EntryOk(t, j);
    assert forall j :: j in t.snoopToOrig ==> SnoopEntryOk(t, j);
    assert forall j :: j in mem ==> MemEntryOk(t, j);
  }

  lemma ResponseKeepsConsistent(t: Tables, v: Option<Line>, id: TxnID)
    requires Consistent(t)
    ensures Consistent(RecvResponse(t, v, id).t)
  {
    hide Complete, EntryOk, MemEntryOk;
    if id in t.snoopToOrig {
      SnoopResponseKeepsConsistent(t, v, id);
    } else if id in t.pending && t.pending[id].state == WaitMemWriteAck {
      DropEntryKeepsConsistent(t, id, RecvWriteAck(t, id).t.memToOrig);
    }
  }

  lemma SnoopResponseKeepsConsistent(t: Tables, v: Option<Line>, id: TxnID)
    requires Consistent(t) && id in t.snoopToOrig
    ensures Consistent(RecvResponse(t, v, id).t)
  {
    hide Complete;
    var orig := t.snoopToOrig[id];
    assert SnoopEntryOk(t, id);
    var pt := t.pending[orig].(snoops := t.pending[orig].snoops - 1);
    RecountKeepsConsistent(t, orig, pt.(snoops := 1), t.counted);
    if Finished(pt) {
      CompleteKeepsConsistent(t.(pending := t.pending[orig := pt]), v, orig);
    } else {
      RecountKeepsConsistent(t, orig, pt, t.counted);
    }
  }

  /** New countdowns for a snooping entry that still waits. */
  lemma RecountKeepsConsistent(t: Tables, orig: TxnID, pt: PendingTxn, counted: set<TxnID>)
    requires Consistent(t) && orig in t.pending && t.pending[orig].state == WaitSnoopResp && !Finished(pt)
    requires pt == t.pending[orig].(snoops := pt.snoops, beats := pt.beats) && counted <= t.snoopToOrig.Keys
    ensures Consistent(t.(pending := t.pending[orig := pt], counted := counted))
  {
    hide Finished;
    var t' := t.(pending := t.pending[orig := pt], counted := counted);
    assert EntryOk(t, orig);
    assert forall j :: j in t.pending ==> EntryOk(t, j);
    assert forall j :: j in t.snoopToOrig ==> SnoopEntryOk(t, j);
    assert forall j :: j in t.memToOrig ==> MemEntryOk(t, j);
  }

  lemma DataKeepsConsistent(t: Tables, v: Option<Line>, id: TxnID, data: Data, fb: Option<TxnID>)
    requires Consistent(t) && (fb.Some? ==> fb.value in t.pending && t.pending[fb.value].state == WaitL1Data)
    ensures Consistent(RecvData(t, v, id, data, fb).t)
  {
    hide RecvSnoopData, ViewOps, EntryOk;
    match DataRoute(t, id, fb)
    case NoRoute =>
    case SnoopData(orig) =>
      assert SnoopEntryOk(t, id);
      SnoopDataKeepsConsistent(t, v, orig, id, data);
    case WriteBack(k) =>
      assert k in t.memToOrig ==> MemEntryOk(t, k);
      DropEntryKeepsConsistent(t, k, t.memToOrig);
    case MemData(k) =>
      assert k in t.memToOrig ==> MemEntryOk(t, k);
      DropEntryKeepsConsistent(t, k, RecvMemData(t, v, k, data).t.memToOrig);
  }

  /** Consistency survives every message whatsoever, not only the expected answers. */
  lemma StepKeepsConsistent(t: Tables, v: Option<Line>, m: Msg)
    requires Consistent(t) && MsgOk(t, v, m)
    ensures Consistent(Step(t, v, m).t)
  {
    hide RecvRequest, RecvData, RecvResponse, Consistent;
    match m
    case Request(txn) => RequestKeepsConsistent(t, v, txn);
    case Evict(_) =>
    case Response(id) => ResponseKeepsConsistent(t, v, id);
    case DataBeat(id, addr, data, fb) => DataKeepsConsistent(t, v, id, data, fb);
  }

  lemma SnoopDataKeepsConsistent(t: Tables, v: Option<Line>, orig: TxnID, id: TxnID, data: Data)
    requires Consistent(t) && id in t.snoopToOrig && t.snoopToOrig[id] == orig && orig in t.pending
    requires t.pending[orig].state == WaitSnoopResp
    ensures Consistent(RecvSnoopData(t, v, orig, id, data).t)
  {
    hide Complete, ApplyView, Consistent;
    var pt := t.pending[orig];
    var pt' := pt.(beats := pt.beats - 1, snoops := if id in t.counted then pt.snoops else pt.snoops - 1);
    var counted := t.counted + {id};
    ConsistentMarks(t);
    if Finished(pt') {
      RecountKeepsConsistent(t, orig, pt'.(snoops := 1), counted - {id});
      var t1 := t.(pending := t.pending[orig := pt'], counted := counted - {id});
      assert t1.pending[orig := pt'.(snoops := 1)] == t.pending[orig := pt'.(snoops := 1)];
      CompleteKeepsConsistent(t1, ApplyView(v, Fill(pt.target, data)), orig);
    } else {
      RecountKeepsConsistent(t, orig, pt', counted);
    }
  }

  lemma ConsistentMarks(t: Tables)
    requires Consistent(t)
    ensures t.counted <= t.snoopToOrig.Keys
  {
  }

  // ---------- runs ----------

  /** A message the environment may hand to the engine. */
  ghost predicate Admits(e: Engine, m: Msg) { Steppable(e, m) && MsgOk(e.t, ViewFor(e, m), m) }

  /** `es` are the states the engine goes through on the messages `ms`. */
  ghost predicate IsRun(es: seq<Engine>, ms: seq<Msg>) {
    && |es| == |ms| + 1
    && (forall i :: 0 <= i < |ms| ==> Admits(es[i], ms[i]) && es[i + 1] == Next(es[i], ms[i]))
  }

  /** Any sequence of steps at all, whether the environment behaves or not. */
  ghost predicate IsWildRun(es: seq<Engine>, ms: seq<Msg>) {
    |es| == |ms| + 1 && forall i :: 0 <= i < |ms| ==> Steppable(es[i], ms[i]) && es[i + 1] == Next(es[i], ms[i])
  }

  lemma RunAt(es: seq<Engine>, ms: seq<Msg>, i: nat)
    requires IsRun(es, ms) && i < |ms|
    ensures Admits(es[i], ms[i]) && es[i + 1] == Next(es[i], ms[i])
  {
  }

  lemma NextKeepsConsistent(e: Engine, m: Msg)
    requires Consistent(e.t) && Admits(e, m)
    ensures Consistent(Next(e, m).t)
  {
    hide Step, Consistent, ApplyOps;
    StepKeepsConsistent(e.t, ViewFor(e, m), m);
  }

  /** In every reachable state the tables are consistent. */
  lemma {:induction false} RunConsistent(es: seq<Engine>, ms: seq<Msg>, i: nat)
    requires IsRun(es, ms) && es[0].t == INITIAL_TABLES && i <= |ms|
    ensures Consistent(es[i].t)
  {
    hide Consistent, Next, Admits;
    if i == 0 {
      InitiallyConsistent();
    } else {
      RunConsistent(es, ms, i - 1);
      assert Admits(es[i - 1], ms[i - 1]);
      NextKeepsConsistent(es[i - 1], ms[i - 1]);
    }
  }

  // ---------- what consistency buys: ids and routing ----------

  /** The three kinds of live ids never meet, and every data message is dispatched to the transaction it is for:
      a snoop's to its requester's, a memory read's to that read, a write's to that write. */
  lemma RoutingIsExact(t: Tables, id: TxnID, fb: Option<TxnID>)
    requires Consistent(t)
    ensures t.pending.Keys !! t.snoopToOrig.Keys && t.memToOrig.Keys <= t.pending.Keys
    ensures id in t.snoopToOrig ==>
              DataRoute(t, id, fb) == SnoopData(t.snoopToOrig[id])
                && t.pending[t.snoopToOrig[id]].state == WaitSnoopResp
    ensures id in t.pending && t.pending[id].state == WaitMemData ==> DataRoute(t, id, fb) == MemData(id)
    ensures id in t.pending && t.pending[id].state == WaitL1Data ==> DataRoute(t, id, fb) == WriteBack(id)
    ensures id in t.pending && t.pending[id].state in {WaitSnoopResp, WaitMemWriteAck} ==>
              DataRoute(t, id, fb) == NoRoute
  {
    assert forall k :: k in t.snoopToOrig ==> SnoopEntryOk(t, k);
    assert forall k :: k in t.pending ==> EntryOk(t, k);
    assert forall k :: k in t.memToOrig ==> MemEntryOk(t, k);
  }

  /** Write data that arrives under some id reaches the write of its address exactly when it carries that write's
      own id or an id that is not live at all. Under any other live id it is lost or lands on another line. */
  lemma WriteDataRouting(t: Tables, key: TxnID, id: TxnID, addr: Addr, fb: Option<TxnID>)
    requires Consistent(t) && FallbackOk(t, addr, fb)
    requires forall k :: AwaitsWriteOf(t, k, addr) <==> k == key
    ensures DataRoute(t, id, fb) == WriteBack(key) <==> id == key || (id !in t.pending && id !in t.snoopToOrig)
  {
    assert AwaitsWriteOf(t, key, addr);
    RoutingIsExact(t, id, fb);
    assert key !in t.snoopToOrig;
    if fb.Some? { assert AwaitsWriteOf(t, fb.value, addr); }
  }

  /** Two write-backs in flight: data for the second that carries the first one's id overwrites the first line. */
  lemma MisroutedWriteData(a: Txn, b: Txn, data: Data)
    requires a.txnID == 0 && b.txnID == 1 && a.opcode == WriteBackFull && b.opcode == WriteBackFull
    requires LineOf(a.addr) != LineOf(b.addr)
    ensures var t := HandleWrite(HandleWrite(INITIAL_TABLES, a).t, b).t;
            && AwaitsWriteOf(t, 1, b.addr)
            && LineFor(t, DataBeat(0, b.addr, data, Some(1))) == Some(LineOf(a.addr))
  {
  }

  /** Starting to snoop keeps the snoop ids below the memory ids exactly if the counter does not pass 20000. */
  lemma SnoopIdsStayBelowIff(t: Tables, line: Line, txn: Txn)
    requires Consistent(t) && SnoopTargets(Some(line), txn) != {}
    ensures (forall k :: k in SnoopStep(t, line, txn).t.snoopToOrig ==> k < 20000)
       <==> t.nextSnoop + |SnoopTargets(Some(line), txn)| <= 20000
  {
    hide SnoopTargets, SnoopStep, Ascending;
    var n := |SnoopTargets(Some(line), txn)|;
    assert n <= 0x1_0000 by { FewNodes(SnoopTargets(Some(line), txn), 0x1_0000); }
    SnoopStepEffect(t, line, txn);
    var m := SnoopStep(t, line, txn).t.snoopToOrig;
    assert n > 0;
    assert t.nextSnoop + n - 1 in m;
    assert forall k :: k in t.snoopToOrig ==> SnoopEntryOk(t, k);
  }

  lemma {:induction false} FewNodes(s: set<NodeID>, bound: nat)
    requires forall x <- s :: x < bound
    ensures |s| <= bound
    decreases bound
  {
    if bound == 0 {
      assert s == {};
    } else {
      var top := bound - 1;
      var rest := set x | x in s && x < top;
      FewNodes(rest, top);
      assert s <= rest + {top};
      SubsetSize(s, rest + {top});
    }
  }

  lemma {:induction false} SubsetSize<T>(a: set<T>, b: set<T>)
    requires a <= b
    ensures |a| <= |b|
    ensures |a| == |b| ==> a == b
    decreases a
  {
    if a != {} {
      var x :| x in a;
      SubsetSize(a - {x}, b - {x});
    }
  }

  // ---------- what one step leaves alone ----------

  /** The one entry of `pending` a message can change. */
  function ChangedKey(t: Tables, v: Option<Line>, m: Msg): Option<TxnID> {
    if m.Request? then KeyUsed(t, v, m.txn) else Target(t, m)
  }

  /** No step changes any entry but the one it concerns, and that entry keeps its request. */
  lemma StepChangesOneEntry(t: Tables, v: Option<Line>, m: Msg)
    requires Consistent(t) && MsgOk(t, v, m)
    ensures var p, k := Step(t, v, m).t.pending, ChangedKey(t, v, m);
            && (k.None? ==> p == t.pending)
            && (k.Some? ==> p - {k.value} == t.pending - {k.value})
            && (k.Some? && !m.Request? ==>
                  k.value in t.pending && (k.value in p ==> p[k.value].req == t.pending[k.value].req))
            && (k.Some? && m.Request? ==> k.value !in t.pending && k.value in p && p[k.value].req == m.txn)
  {
    hide RecvRequest, Consistent, ViewOps, ApplyView, Complete, RecvData, RecvResponse;
    match m
    case Request(txn) => RequestChangesOneEntry(t, v, txn);
    case Evict(_) =>
    case Response(id) => ResponseChangesOneEntry(t, v, id);
    case DataBeat(id, addr, data, fb) => DataChangesOneEntry(t, v, m);
  }

  lemma RequestChangesOneEntry(t: Tables, v: Option<Line>, txn: Txn)
    requires Consistent(t) && RequestOk(t, v, txn)
    ensures var p, k := RecvRequest(t, v, txn).t.pending, KeyUsed(t, v, txn);
            && (k.None? ==> p == t.pending)
            && (k.Some? ==>
                  p - {k.value} == t.pending - {k.value} && k.value !in t.pending && k.value in p
                  && p[k.value].req == txn)
  {
    hide RecvRequest, SnoopStep, SnoopTargets, Ascending;
    RequestShape(t, v, txn);
    assert t.nextMem in t.pending ==> EntryOk(t, t.nextMem);
    if !IsWrite(txn.opcode) && SnoopTargets(v, txn) != {} { SnoopStepEffect(t, v.value, txn); }
  }

  lemma ResponseChangesOneEntry(t: Tables, v: Option<Line>, id: TxnID)
    ensures var p, k := RecvResponse(t, v, id).t.pending, Target(t, Response(id));
            && (k.None? ==> p == t.pending)
            && (k.Some? ==> k.value in t.pending && p - {k.value} == t.pending - {k.value})
            && (k.Some? && k.value in p ==> p[k.value].req == t.pending[k.value].req)
  {
    hide ViewOps;
  }

  lemma DataChangesOneEntry(t: Tables, v: Option<Line>, m: Msg)
    requires m.DataBeat? && Deliverable(t, m)
    ensures var p, k := RecvData(t, v, m.txnId, m.data, m.fb).t.pending, Target(t, m);
            && (k.None? ==> p == t.pending)
            && (k.Some? ==> k.value in t.pending && p - {k.value} == t.pending - {k.value})
            && (k.Some? && k.value in p ==> p[k.value].req == t.pending[k.value].req)
  {
    hide ViewOps, ApplyView;
  }

  lemma StepFillsOnlyFirst(t: Tables, v: Option<Line>, m: Msg)
    requires m.DataBeat? && m.fb.Some? ==> m.fb.value in t.pending
    ensures FillsOnlyFirst(Step(t, v, m).ops)
  {
    hide ViewOps, ApplyView, IssueSnoops, Ascending;
  }

  /** A step changes the view of its own line as the operations say; any other line stays or is pushed out. */
  lemma StepViews(e: Engine, m: Msg, other: LineNo)
    requires Admits(e, m)
    ensures LineFor(e.t, m) == Some(other) ==>
              View(Next(e, m).store, other) == ViewOps(View(e.store, other), StepOut(e, m).ops)
    ensures LineFor(e.t, m) != Some(other) ==> View(Next(e, m).store, other) in {View(e.store, other), None}
  {
    hide Step, View, ApplyOps, ViewOps;
    StepFillsOnlyFirst(e.t, ViewFor(e, m), m);
    if LineFor(e.t, m).Some? {
      ApplyOpsRefineMap(e.store, LineFor(e.t, m).value, StepOut(e, m).ops, other);
    }
  }
}
