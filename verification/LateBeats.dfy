/** Beats that arrive after their transaction is answered: their ids are dead for ever, and they do nothing unless a
    write of the same address waits for its data. */
module LateBeats {
  import opened ChiTypes
  import opened CacheStore
  import opened EngineSpec
  import opened EngineTables
  import opened Directory
  import opened SnoopBarrier
  import opened LineFrames

  predicate Dead(t: Tables, id: TxnID) { id !in t.pending && id !in t.snoopToOrig }

  predicate HandedOut(t: Tables, id: TxnID) { SNOOP_ID_BASE <= id < t.nextSnoop || MEM_ID_BASE <= id < t.nextMem }

  /** A late beat is ignored altogether exactly when no write of its address waits for data. */
  lemma LateBeatIgnoredIff(e: Engine, m: Msg)
    requires Consistent(e.t) && Admits(e, m) && m.DataBeat? && Dead(e.t, m.txnId)
    ensures Next(e, m) == e <==> forall k :: !AwaitsWriteOf(e.t, k, m.addr)
    ensures StepOut(e, m).actions == []
  {
    hide ViewOps, ApplyOps, View, Consistent;
    if m.fb.Some? {
      assert AwaitsWriteOf(e.t, m.fb.value, m.addr);
      assert m.fb.value !in Next(e, m).t.pending;
    }
  }

  /** Ids are not reused: a dead one stays dead. */
  lemma DeadStaysDead(e: Engine, m: Msg, id: TxnID)
    requires Consistent(e.t) && Admits(e, m) && Dead(e.t, id) && HandedOut(e.t, id)
    ensures Dead(Next(e, m).t, id) && HandedOut(Next(e, m).t, id)
  {
    hide Step, View, ApplyOps, EntryOk, MemEntryOk, DataRoute, SnoopTargets, LineFor;
    var t, v := e.t, ViewFor(e, m);
    StepKeepsConsistent(t, v, m);
    StepKeepsOtherSnoops(t, v, m);
    EntriesAfter(t, v, m);
    assert id in StepOut(e, m).t.snoopToOrig ==> SnoopEntryOk(StepOut(e, m).t, id);
  }

  /** When a transaction is answered, every id under which it was asking is dead. */
  lemma AnsweredIdsAreDead(e: Engine, m: Msg, k: TxnID)
    requires Consistent(e.t) && Admits(e, m) && !m.Request? && Target(e.t, m) == Some(k)
    requires k in e.t.pending && k !in Next(e, m).t.pending
    ensures Dead(Next(e, m).t, k) && forall id <- SnoopsOf(e.t, k) :: Dead(Next(e, m).t, id)
  {
    hide Step, View, ApplyOps, Target, LineFor, MsgOk, Consistent;
    var t, v, t' := e.t, ViewFor(e, m), Next(e, m).t;
    StepKeepsConsistent(t, v, m);
    StepKeepsOtherSnoops(t, v, m);
    EntriesAfter(t, v, m);
    RetiredOwnsNothing(t, t', k);
  }

  lemma RetiredOwnsNothing(t: Tables, t': Tables, k: TxnID)
    requires Consistent(t) && Consistent(t') && SnoopsOfOthersKept(t, t', Some(k)) && k in t.pending && k !in t'.pending
    requires t'.pending.Keys <= t.pending.Keys
    ensures Dead(t', k) && forall id <- SnoopsOf(t, k) :: Dead(t', id)
  {
    hide EntryOk, MemEntryOk;
    RoutingIsExact(t, 0, None);
    assert forall id :: id in t'.snoopToOrig ==> SnoopEntryOk(t', id);
  }

  /** Over whole runs: once an id has died, its late beats are ignored exactly when no write of their address waits. */
  lemma {:induction false} LateBeatsInRuns(es: seq<Engine>, ms: seq<Msg>, id: TxnID, i: nat)
    requires IsRun(es, ms) && Consistent(es[0].t) && Dead(es[0].t, id) && HandedOut(es[0].t, id) && i <= |ms|
    ensures Consistent(es[i].t) && Dead(es[i].t, id) && HandedOut(es[i].t, id)
    ensures i < |ms| && ms[i].DataBeat? && ms[i].txnId == id ==>
              (es[i + 1] == es[i] <==> forall k :: !AwaitsWriteOf(es[i].t, k, ms[i].addr))
  {
    hide Consistent, Dead, HandedOut, Next, Admits, StepOut;
    if i > 0 {
      LateBeatsInRuns(es, ms, id, i - 1);
      RunAt(es, ms, i - 1);
      NextKeepsConsistent(es[i - 1], ms[i - 1]);
      DeadStaysDead(es[i - 1], ms[i - 1], id);
    }
    if i < |ms| && ms[i].DataBeat? && ms[i].txnId == id {
      RunAt(es, ms, i);
      LateBeatIgnoredIff(es[i], ms[i]);
    }
  }

  /** The exception is real: a line is read from memory and then written back; a second beat of the old memory data
      takes the place of the write data, and the write data itself is dropped. */
  lemma LateBeatOverwrites(r: Txn, w: Txn, stale: Data, written: Data, v: Option<Line>)
    requires r.txnID == 1 && w.txnID == 0 && r.opcode == ReadUnique && w.opcode == WriteBackFull && r.addr == w.addr
    ensures var t1 := RecvRequest(INITIAL_TABLES, None, r).t;
            var t2 := RecvData(t1, None, MEM_ID_BASE, stale, None).t;
            var t3 := RecvRequest(t2, v, w).t;
            var late := RecvData(t3, v, MEM_ID_BASE, stale, Some(0));
            && FallbackOk(t3, w.addr, Some(0))
            && late.ops == [Fill(UD, stale), AddSharer(w.src)]
            && RecvData(late.t, v, w.txnID, written, None) == Out(late.t, [], [])
  {
    hide ViewOps;
    var t1 := RecvRequest(INITIAL_TABLES, None, r).t;
    assert t1.pending == map[MEM_ID_BASE := PendingTxn(r, WaitMemData, UD, 0, 0)];
    var t2 := RecvData(t1, None, MEM_ID_BASE, stale, None).t;
    assert t2.pending == map[];
  }
}
