/** What a step on one line leaves alone: the entries, snoops and answer marks of every other line. */
module LineFrames {
  import opened ChiTypes
  import opened CacheStore
  import opened EngineSpec
  import opened EngineTables
  import opened Directory
  import opened SnoopBarrier

  /** The snoop's transaction concerns line `l`. */
  ghost predicate SnoopOn(t: Tables, id: TxnID, l: LineNo) {
    id in t.snoopToOrig && t.snoopToOrig[id] in t.pending && EntryLine(t.pending[t.snoopToOrig[id]]) == l
  }

  /** Seen from line `l`, the tables `t'` are still the tables `t`; ids handed out so far do not come back to life. */
  ghost predicate SameSlice(t: Tables, t': Tables, l: LineNo) {
    && t.nextSnoop <= t'.nextSnoop && t.nextMem <= t'.nextMem
    && (forall k :: k in t.pending && EntryLine(t.pending[k]) == l ==> k in t'.pending && t'.pending[k] == t.pending[k])
    && (forall k :: k in t'.pending && EntryLine(t'.pending[k]) == l ==>
          k in t.pending && t'.pending[k] == t.pending[k])
    && (forall id :: SnoopOn(t, id, l) ==> SnoopOn(t', id, l) && t'.snoopToOrig[id] == t.snoopToOrig[id])
    && (forall id :: SnoopOn(t', id, l) ==> SnoopOn(t, id, l) && t'.snoopToOrig[id] == t.snoopToOrig[id])
    && (forall id :: SnoopOn(t, id, l) ==> (id in t'.counted <==> id in t.counted))
    && (forall id :: id in t'.snoopToOrig && id < t.nextSnoop ==> id in t.snoopToOrig)
    && (forall id :: id in t'.pending && MEM_ID_BASE <= id < t.nextMem ==> id in t.pending)
  }

  /** Only the snoops of the changed entry come or go. */
  ghost predicate SnoopsOfOthersKept(t: Tables, t': Tables, c: Option<TxnID>) {
    && t.nextSnoop <= t'.nextSnoop && t.nextMem <= t'.nextMem
    && (forall id :: id in t.snoopToOrig && Some(t.snoopToOrig[id]) != c ==>
          id in t'.snoopToOrig && t'.snoopToOrig[id] == t.snoopToOrig[id] && (id in t'.counted <==> id in t.counted))
    && (forall id :: id in t'.snoopToOrig ==>
          if id in t.snoopToOrig then t'.snoopToOrig[id] == t.snoopToOrig[id]
          else Some(t'.snoopToOrig[id]) == c && id >= t.nextSnoop)
  }

  lemma RequestKeepsOtherSnoops(t: Tables, v: Option<Line>, txn: Txn)
    requires Consistent(t) && RequestOk(t, v, txn)
    ensures SnoopsOfOthersKept(t, RecvRequest(t, v, txn).t, KeyUsed(t, v, txn))
  {
    hide RecvRequest, SnoopStep, SnoopTargets, SnoopEntry, Ascending;
    RequestShape(t, v, txn);
    if !IsWrite(txn.opcode) && SnoopTargets(v, txn) != {} {
      SnoopStepEffect(t, v.value, txn);
      assert forall id :: id in t.snoopToOrig ==> SnoopEntryOk(t, id);
    }
  }

  lemma CompleteKeepsOtherSnoops(t: Tables, v: Option<Line>, orig: TxnID)
    requires orig in t.pending
    ensures SnoopsOfOthersKept(t, Complete(t, v, orig).t, Some(orig))
  {
    hide ViewOps;
  }

  /** A change of marks and countdowns that concerns only the snoops of `c`. */
  lemma MarkKeepsOtherSnoops(t: Tables, t1: Tables, t': Tables, c: TxnID)
    requires t1.snoopToOrig == t.snoopToOrig && t1.nextSnoop == t.nextSnoop && t1.nextMem == t.nextMem
    requires forall id :: id in t.snoopToOrig && t.snoopToOrig[id] != c ==> (id in t1.counted <==> id in t.counted)
    requires SnoopsOfOthersKept(t1, t', Some(c))
    ensures SnoopsOfOthersKept(t, t', Some(c))
  {
  }

  lemma AnswerKeepsOtherSnoops(t: Tables, v: Option<Line>, m: Msg)
    requires (m.DataBeat? || m.Response?) && m.txnId in t.snoopToOrig && t.snoopToOrig[m.txnId] in t.pending
    requires m.DataBeat? && m.fb.Some? ==> m.fb.value in t.pending
    ensures SnoopsOfOthersKept(t, Step(t, v, m).t, Some(t.snoopToOrig[m.txnId]))
  {
    hide Step, Complete, SnoopsOfOthersKept, Finished;
    var k, c := m.txnId, t.snoopToOrig[m.txnId];
    AnswerStep(t, v, m, k);
    var t1 := Answered(t, k, m.DataBeat?);
    SameKeepsOtherSnoops(t1, Some(c));
    CompleteKeepsOtherSnoops(t1, v, c);
    MarkKeepsOtherSnoops(t, t1, Step(t, v, m).t, c);
  }

  lemma SameKeepsOtherSnoops(t: Tables, c: Option<TxnID>)
    ensures SnoopsOfOthersKept(t, t, c)
  {
  }

  lemma DeliveryKeepsOtherSnoops(t: Tables, v: Option<Line>, m: Msg)
    requires Consistent(t) && Deliverable(t, m) && !m.Request?
    ensures SnoopsOfOthersKept(t, Step(t, v, m).t, Target(t, m))
  {
    hide ViewOps, ApplyView, EntryOk, MemEntryOk, RecvSnoopData, RecvSnoopResponse;
    if (m.DataBeat? || m.Response?) && m.txnId in t.snoopToOrig {
      assert SnoopEntryOk(t, m.txnId);
      AnswerKeepsOtherSnoops(t, v, m);
    }
  }

  lemma StepKeepsOtherSnoops(t: Tables, v: Option<Line>, m: Msg)
    requires Consistent(t) && MsgOk(t, v, m)
    ensures SnoopsOfOthersKept(t, Step(t, v, m).t, ChangedKey(t, v, m))
  {
    hide RecvRequest, RecvData, RecvResponse, Consistent, SnoopsOfOthersKept;
    if m.Request? {
      RequestKeepsOtherSnoops(t, v, m.txn);
    } else {
      DeliveryKeepsOtherSnoops(t, v, m);
    }
  }

  lemma NewKeyIsFresh(t: Tables, v: Option<Line>, m: Msg, id: TxnID)
    requires Consistent(t) && MsgOk(t, v, m) && id in Step(t, v, m).t.pending && MEM_ID_BASE <= id < t.nextMem
    ensures id in t.pending
  {
    hide Step, DataRoute, SnoopTargets;
    EntriesAfter(t, v, m);
  }

  lemma StepKeepsSlice(t: Tables, v: Option<Line>, m: Msg, l: LineNo)
    requires Consistent(t) && MsgOk(t, v, m) && LineFor(t, m) != Some(l)
    ensures SameSlice(t, Step(t, v, m).t, l)
  {
    hide Step, ChangedKey, RequestOk, LineFor, SnoopsOfOthersKept, EntryOk, Consistent;
    EntriesAfter(t, v, m);
    StepKeepsConsistent(t, v, m);
    StepKeepsOtherSnoops(t, v, m);
    var t' := Step(t, v, m).t;
    var c := ChangedKey(t, v, m);
    forall id | id in t'.pending && MEM_ID_BASE <= id < t.nextMem
      ensures id in t.pending
    {
      NewKeyIsFresh(t, v, m, id);
    }
    forall id: TxnID
      ensures SnoopOn(t, id, l) <==> SnoopOn(t', id, l)
      ensures SnoopOn(t, id, l) ==> t'.snoopToOrig[id] == t.snoopToOrig[id] && (id in t'.counted <==> id in t.counted)
      ensures id in t'.snoopToOrig && id < t.nextSnoop ==> id in t.snoopToOrig
    {
      SliceOfSnoop(t, t', c, l, id);
    }
    NextIdsGrow(t, t', c);
  }

  lemma NextIdsGrow(t: Tables, t': Tables, c: Option<TxnID>)
    requires SnoopsOfOthersKept(t, t', c)
    ensures t.nextSnoop <= t'.nextSnoop && t.nextMem <= t'.nextMem
  {
  }

  lemma SliceOfSnoop(t: Tables, t': Tables, c: Option<TxnID>, l: LineNo, id: TxnID)
    requires Consistent(t) && Consistent(t') && SnoopsOfOthersKept(t, t', c)
    requires forall k :: Some(k) != c ==>
               (k in t'.pending <==> k in t.pending) && (k in t'.pending ==> t'.pending[k] == t.pending[k])
    requires c.Some? && c.value in t.pending ==> EntryLine(t.pending[c.value]) != l
    requires c.Some? && c.value in t'.pending ==> EntryLine(t'.pending[c.value]) != l
    ensures SnoopOn(t, id, l) <==> SnoopOn(t', id, l)
    ensures SnoopOn(t, id, l) ==> t'.snoopToOrig[id] == t.snoopToOrig[id] && (id in t'.counted <==> id in t.counted)
    ensures id in t'.snoopToOrig && id < t.nextSnoop ==> id in t.snoopToOrig
  {
    hide EntryOk, MemEntryOk;
    assert id in t.snoopToOrig ==> SnoopEntryOk(t, id);
    assert id in t'.snoopToOrig ==> SnoopEntryOk(t', id);
  }
}
