/** The snoop barrier counts exactly the silent nodes. */
module SnoopBarrier {
  import opened ChiTypes
  import opened CacheStore
  import opened EngineSpec
  import opened EngineTables

  /** The engine together with what is on its way: `open` are the snoops no node has answered yet, `wants` the
      snoops ever sent that demand data back. */
  datatype Net = Net(e: Engine, open: set<TxnID>, wants: set<TxnID>)

  ghost function Sent(actions: seq<Action>): set<TxnID> {
    set i | 0 <= i < |actions| && actions[i].SendSnoop? :: actions[i].txnId
  }

  ghost function SentWanting(actions: seq<Action>): set<TxnID> {
    set i | 0 <= i < |actions| && actions[i].SendSnoop? && actions[i].retToSrc :: actions[i].txnId
  }

  function AnswerId(m: Msg): set<TxnID> {
    match m
    case DataBeat(id, _, _, _) => {id}
    case Response(id) => {id}
    case _ => {}
  }

  /** Nodes answer as asked: a snoop that demands data by one or more data beats, any other by one response. */
  ghost predicate AnsweredAsAsked(n: Net, m: Msg) {
    && (m.DataBeat? && m.txnId in n.e.t.snoopToOrig ==> m.txnId in n.wants)
    && (m.Response? && m.txnId in n.e.t.snoopToOrig ==> m.txnId !in n.wants && m.txnId in n.open)
  }

  ghost predicate NetAdmits(n: Net, m: Msg) { Admits(n.e, m) && AnsweredAsAsked(n, m) }

  ghost function NetNext(n: Net, m: Msg): Net
    requires NetAdmits(n, m)
  {
    var actions := StepOut(n.e, m).actions;
    Net(Next(n.e, m), n.open - AnswerId(m) + Sent(actions), n.wants + SentWanting(actions))
  }

  // ---------- the invariant ----------

  ghost function SnoopsOf(t: Tables, orig: TxnID): set<TxnID> {
    set k | k in t.snoopToOrig && t.snoopToOrig[k] == orig
  }

  /** The two countdowns of one snooping transaction, given its snoops and which of them are open, demand data and
      are marked as answered with data. */
  ghost predicate CountsAre(pt: PendingTxn, mine: set<TxnID>, open: set<TxnID>, wanting: set<TxnID>,
                            counted: set<TxnID>) {
    && pt.snoops == |open|
    && (if wanting == mine then pt.beats <= pt.snoops && counted == mine - open
        else wanting == {} && pt.beats == 0)
  }

  ghost predicate Counts(t: Tables, open: set<TxnID>, wants: set<TxnID>, orig: TxnID)
    requires orig in t.pending
  {
    var mine := SnoopsOf(t, orig);
    CountsAre(t.pending[orig], mine, mine * open, mine * wants, mine * t.counted)
  }

  ghost predicate Barrier(t: Tables, open: set<TxnID>, wants: set<TxnID>) {
    && Consistent(t)
    && open <= t.snoopToOrig.Keys
    && (forall k <- wants :: k < t.nextSnoop)
    && (forall id :: id in t.pending && t.pending[id].state == WaitSnoopResp ==> Counts(t, open, wants, id))
  }

  ghost predicate Sound(n: Net) { Barrier(n.e.t, n.open, n.wants) }

  /** The countdown is the number of snoops sent less the number of distinct ones answered; for a data snoop the
      beat countdown never lags behind, so it cannot hold a transaction back. */
  lemma CountdownIsExact(n: Net, orig: TxnID)
    requires Sound(n) && orig in n.e.t.pending && n.e.t.pending[orig].state == WaitSnoopResp
    ensures var pt, mine := n.e.t.pending[orig], SnoopsOf(n.e.t, orig);
            pt.snoops == |mine| - |mine - n.open| && pt.beats <= pt.snoops && pt.snoops > 0
  {
    var mine := SnoopsOf(n.e.t, orig);
    assert Counts(n.e.t, n.open, n.wants, orig);
    assert EntryOk(n.e.t, orig);
    assert mine == mine * n.open + (mine - n.open);
  }

  // ---------- requests ----------

  ghost function IdRange(lo: nat, n: nat): (s: set<TxnID>)
    requires lo + n < ID_LIMIT
    ensures |s| == n && forall k :: k in s <==> lo <= k < lo + n
  {
    if n == 0 then {} else IdRange(lo, n - 1) + {lo + n - 1}
  }

  lemma SnoopStepSends(t: Tables, line: Line, txn: Txn)
    requires t.nextSnoop + |SnoopTargets(Some(line), txn)| < ID_LIMIT
    ensures var ids := IdRange(t.nextSnoop, |SnoopTargets(Some(line), txn)|);
            && Sent(SnoopStep(t, line, txn).actions) == ids
            && SentWanting(SnoopStep(t, line, txn).actions) == if Dirty(line.state) then ids else {}
  {
    hide SnoopStep, SnoopTargets, Ascending, SnoopKindFor;
    SnoopStepEffect(t, line, txn);
    var acts, order := SnoopStep(t, line, txn).actions, Ascending(SnoopTargets(Some(line), txn));
    var ids := IdRange(t.nextSnoop, |order|);
    forall k | k in ids ensures k in Sent(acts) && (Dirty(line.state) ==> k in SentWanting(acts)) {
      assert acts[k - t.nextSnoop].txnId == k;
    }
  }

  lemma OthersKeepCounts(t: Tables, t': Tables, open: set<TxnID>, open': set<TxnID>, wants: set<TxnID>,
                         wants': set<TxnID>,
                         id: TxnID)
    requires id in t.pending && Counts(t, open, wants, id) && id in t'.pending && t'.pending[id] == t.pending[id]
    requires SnoopsOf(t', id) == SnoopsOf(t, id)
    requires SnoopsOf(t, id) * open' == SnoopsOf(t, id) * open
    requires SnoopsOf(t, id) * wants' == SnoopsOf(t, id) * wants
    requires SnoopsOf(t, id) * t'.counted == SnoopsOf(t, id) * t.counted
    ensures Counts(t', open', wants', id)
  {
  }

  lemma SnoopsOfExtended(t: Tables, t': Tables, ids: set<TxnID>, owner: TxnID, id: TxnID)
    requires ids !! t.snoopToOrig.Keys
    requires forall k :: k in t'.snoopToOrig <==> k in t.snoopToOrig || k in ids
    requires forall k :: k in t'.snoopToOrig ==> t'.snoopToOrig[k] == (if k in ids then owner else t.snoopToOrig[k])
    ensures SnoopsOf(t', id) == if id == owner then SnoopsOf(t, id) + ids else SnoopsOf(t, id)
  {
  }

  /** `t'` is `t` with one more snooping entry, whose snoops are the fresh `ids`. */
  ghost predicate OneMoreEntry(t: Tables, t': Tables, open: set<TxnID>, wants: set<TxnID>, ids: set<TxnID>,
                               line: Line, txn: Txn) {
    && txn.txnID !in t.pending && SnoopsOf(t, txn.txnID) == {} && |ids| == |SnoopTargets(Some(line), txn)| > 0
    && ids !! t.snoopToOrig.Keys && ids !! open && ids !! wants && ids !! t.counted
    && t'.pending == t.pending[txn.txnID := SnoopEntry(line, txn)] && t'.counted == t.counted
    && (forall k :: k in t'.snoopToOrig <==> k in t.snoopToOrig || k in ids)
    && (forall k :: k in t'.snoopToOrig ==> t'.snoopToOrig[k] == (if k in ids then txn.txnID else t.snoopToOrig[k]))
  }

  lemma OneMoreEntryCounts(t: Tables, t': Tables, open: set<TxnID>, wants: set<TxnID>, ids: set<TxnID>, line: Line,
                           txn: Txn,
                           id: TxnID)
    requires Barrier(t, open, wants) && OneMoreEntry(t, t', open, wants, ids, line, txn)
    requires id in t'.pending && t'.pending[id].state == WaitSnoopResp
    ensures Counts(t', open + ids, wants + if Dirty(line.state) then ids else {}, id)
  {
    hide SnoopTargets, SnoopEntry, Counts, Consistent;
    SnoopsOfExtended(t, t', ids, txn.txnID, id);
    if id == txn.txnID {
      NewCounts(t', open, wants, id, ids, line, txn);
    } else {
      UntouchedCounts(t, t', open, wants, ids, id);
      assert wants + {} == wants;
    }
  }

  lemma NewEntryKeepsBarrier(t: Tables, t': Tables, open: set<TxnID>, wants: set<TxnID>, ids: set<TxnID>, line: Line,
                             txn: Txn)
    requires Barrier(t, open, wants) && Consistent(t') && OneMoreEntry(t, t', open, wants, ids, line, txn)
    requires (forall k <- ids :: k < t'.nextSnoop) && t.nextSnoop <= t'.nextSnoop
    ensures Barrier(t', open + ids, wants + if Dirty(line.state) then ids else {})
  {
    hide SnoopTargets, SnoopEntry, Counts, Consistent, SnoopsOf;
    forall id | id in t'.pending && t'.pending[id].state == WaitSnoopResp
      ensures Counts(t', open + ids, wants + if Dirty(line.state) then ids else {}, id)
    {
      OneMoreEntryCounts(t, t', open, wants, ids, line, txn, id);
    }
  }

  lemma SnoopStepKeepsBarrier(t: Tables, open: set<TxnID>, wants: set<TxnID>, line: Line, txn: Txn)
    requires Barrier(t, open, wants) && RequestOk(t, Some(line), txn)
    requires SnoopTargets(Some(line), txn) != {} && !IsWrite(txn.opcode)
    ensures var out := SnoopStep(t, line, txn);
            Barrier(out.t, open + Sent(out.actions), wants + SentWanting(out.actions))
  {
    hide SnoopTargets, SnoopStep, Ascending, SnoopEntry, SnoopKindFor, Sent, SentWanting, Consistent, SnoopsOf,
         Barrier, IdRange, RequesterId;
    SnoopStepEffect(t, line, txn);
    SnoopStepSends(t, line, txn);
    BarrierIsConsistent(t, open, wants);
    SnoopKeepsConsistent(t, line, txn);
    var ids := IdRange(t.nextSnoop, |SnoopTargets(Some(line), txn)|);
    FreshSnoopIds(t, open, wants, ids, txn.txnID);
    NewEntryKeepsBarrier(t, SnoopStep(t, line, txn).t, open, wants, ids, line, txn);
  }

  lemma BarrierIsConsistent(t: Tables, open: set<TxnID>, wants: set<TxnID>)
    requires Barrier(t, open, wants)
    ensures Consistent(t)
  {
  }

  lemma UntouchedCounts(t: Tables, t': Tables, open: set<TxnID>, wants: set<TxnID>, ids: set<TxnID>, id: TxnID)
    requires id in t.pending && Counts(t, open, wants, id) && id in t'.pending && t'.pending[id] == t.pending[id]
    requires SnoopsOf(t', id) == SnoopsOf(t, id) && SnoopsOf(t, id) !! ids && t'.counted == t.counted
    ensures Counts(t', open + ids, wants + ids, id) && Counts(t', open + ids, wants, id)
  {
    var mine := SnoopsOf(t, id);
    assert mine * (open + ids) == mine * open && mine * (wants + ids) == mine * wants;
  }

  /** The next ids belong to nobody, and nothing is recorded yet for an id that is not live. */
  lemma FreshSnoopIds(t: Tables, open: set<TxnID>, wants: set<TxnID>, ids: set<TxnID>, id: TxnID)
    requires Barrier(t, open, wants) && forall k <- ids :: t.nextSnoop <= k
    ensures ids !! t.snoopToOrig.Keys && ids !! open && ids !! wants && ids !! t.counted
    ensures forall k :: SnoopsOf(t, k) <= t.snoopToOrig.Keys
    ensures id !in t.pending ==> SnoopsOf(t, id) == {}
  {
    assert forall k :: k in t.snoopToOrig ==> SnoopEntryOk(t, k);
  }

  lemma NewCounts(t: Tables, open: set<TxnID>, wants: set<TxnID>, id: TxnID, ids: set<TxnID>, line: Line, txn: Txn)
    requires id in t.pending && SnoopsOf(t, id) == ids && ids !! open && ids !! wants && ids !! t.counted
    requires |ids| == |SnoopTargets(Some(line), txn)| && t.pending[id] == SnoopEntry(line, txn) && |ids| > 0
    ensures Counts(t, open + ids, wants + if Dirty(line.state) then ids else {}, id)
  {
    hide SnoopTargets, TargetState;
    var wants' := wants + if Dirty(line.state) then ids else {};
    assert ids * (open + ids) == ids && ids * t.counted == {};
    assert ids * wants' == if Dirty(line.state) then ids else {};
  }

  /** A step that leaves the snoop tables and all snooping entries alone keeps the barrier. */
  lemma QuietStepKeepsBarrier(t: Tables, t': Tables, open: set<TxnID>, wants: set<TxnID>)
    requires Barrier(t, open, wants) && Consistent(t')
    requires t'.snoopToOrig == t.snoopToOrig && t'.counted == t.counted && t'.nextSnoop == t.nextSnoop
    requires forall id :: id in t'.pending && t'.pending[id].state == WaitSnoopResp ==>
               id in t.pending && t'.pending[id] == t.pending[id]
    ensures Barrier(t', open, wants)
  {
    hide Consistent;
    forall id | id in t'.pending && t'.pending[id].state == WaitSnoopResp
      ensures Counts(t', open, wants, id)
    {
      OthersKeepCounts(t, t', open, open, wants, wants, id);
    }
  }

  lemma NothingSent(actions: seq<Action>)
    ensures (forall i :: 0 <= i < |actions| ==> !actions[i].SendSnoop?) ==>
              Sent(actions) == {} && SentWanting(actions) == {}
  {
  }

  lemma NoSnoopsSent(t: Tables, v: Option<Line>, txn: Txn)
    requires IsWrite(txn.opcode) || SnoopTargets(v, txn) == {}
    ensures var out := RecvRequest(t, v, txn);
            && Sent(out.actions) == {} && SentWanting(out.actions) == {}
            && out.t.snoopToOrig == t.snoopToOrig && out.t.counted == t.counted && out.t.nextSnoop == t.nextSnoop
            && (forall id :: id in out.t.pending && out.t.pending[id].state == WaitSnoopResp ==>
                  id in t.pending && out.t.pending[id] == t.pending[id])
  {
    hide ViewOps, RecvRequest, Sent, SentWanting, SnoopTargets, SnoopStep;
    RequestShape(t, v, txn);
    var out := RecvRequest(t, v, txn);
    NothingSent(out.actions);
    assert forall i :: 0 <= i < |out.actions| ==> !out.actions[i].SendSnoop?;
  }

  lemma RequestKeepsBarrier(t: Tables, open: set<TxnID>, wants: set<TxnID>, v: Option<Line>, txn: Txn)
    requires Barrier(t, open, wants) && RequestOk(t, v, txn)
    ensures var out := RecvRequest(t, v, txn);
            Barrier(out.t, open + Sent(out.actions), wants + SentWanting(out.actions))
  {
    hide RecvRequest, SnoopTargets, SnoopStep, Sent, SentWanting, Barrier, RequestOk;
    RequestShape(t, v, txn);
    BarrierIsConsistent(t, open, wants);
    RequestKeepsConsistent(t, v, txn);
    if !IsWrite(txn.opcode) && SnoopTargets(v, txn) != {} {
      SnoopStepKeepsBarrier(t, open, wants, v.value, txn);
    } else {
      NoSnoopsSent(t, v, txn);
      var out := RecvRequest(t, v, txn);
      assert open + {} == open && wants + {} == wants;
      QuietStepKeepsBarrier(t, out.t, open, wants);
    }
  }

  // ---------- answers ----------

  ghost predicate AllCounts(t: Tables, open: set<TxnID>, wants: set<TxnID>) {
    && open <= t.snoopToOrig.Keys
    && (forall id :: id in t.pending && t.pending[id].state == WaitSnoopResp ==> Counts(t, open, wants, id))
  }

  /** Completion takes exactly its own snoops out of the tables. */
  lemma CompleteKeepsCounts(t: Tables, v: Option<Line>, open: set<TxnID>, wants: set<TxnID>, orig: TxnID)
    requires AllCounts(t, open, wants) && orig in t.pending && t.pending[orig].state == WaitSnoopResp
             && Finished(t.pending[orig])
    ensures AllCounts(Complete(t, v, orig).t, open, wants)
  {
    hide ViewOps, Counts;
    var t' := Complete(t, v, orig).t;
    NoneOpen(t, open, wants, orig);
    forall k | k in open ensures k in t'.snoopToOrig {
      assert k in SnoopsOf(t, orig) ==> k in SnoopsOf(t, orig) * open;
    }
    forall id | id in t'.pending && t'.pending[id].state == WaitSnoopResp
      ensures Counts(t', open, wants, id)
    {
      CompleteKeepsOther(t, v, open, wants, orig, id);
    }
  }

  lemma NoneOpen(t: Tables, open: set<TxnID>, wants: set<TxnID>, orig: TxnID)
    requires orig in t.pending && Counts(t, open, wants, orig) && Finished(t.pending[orig])
    ensures SnoopsOf(t, orig) * open == {}
  {
  }

  lemma CompleteKeepsOther(t: Tables, v: Option<Line>, open: set<TxnID>, wants: set<TxnID>, orig: TxnID, id: TxnID)
    requires orig in t.pending && id in t.pending && id != orig && Counts(t, open, wants, id)
    ensures Counts(Complete(t, v, orig).t, open, wants, id)
  {
    hide ViewOps, CountsAre;
    var t' := Complete(t, v, orig).t;
    assert SnoopsOf(t', id) == SnoopsOf(t, id);
    assert SnoopsOf(t, id) * t'.counted == SnoopsOf(t, id) * t.counted;
  }

  lemma CompleteIgnoresOwnMark(t: Tables, v: Option<Line>, orig: TxnID, k: TxnID)
    requires orig in t.pending && k in t.snoopToOrig && t.snoopToOrig[k] == orig
    ensures Complete(t.(counted := t.counted - {k}), v, orig) == Complete(t, v, orig)
  {
    hide ViewOps;
    assert Complete(t.(counted := t.counted - {k}), v, orig).t.counted == Complete(t, v, orig).t.counted;
  }

  /** The tables right after an answer to snoop `k` has been counted. */
  function Answered(t: Tables, k: TxnID, withData: bool): Tables
    requires k in t.snoopToOrig && t.snoopToOrig[k] in t.pending
  {
    var orig := t.snoopToOrig[k];
    var pt := t.pending[orig];
    if withData then
      t.(pending := t.pending[orig := pt.(beats := pt.beats - 1,
                                          snoops := if k in t.counted then pt.snoops else pt.snoops - 1)],
         counted := t.counted + {k})
    else t.(pending := t.pending[orig := pt.(snoops := pt.snoops - 1)])
  }

  lemma OwnCounts(pt: PendingTxn, mine: set<TxnID>, open: set<TxnID>, wants: set<TxnID>, counted: set<TxnID>, k: TxnID)
    requires CountsAre(pt, mine, mine * open, mine * wants, mine * counted) && k in mine
    ensures k in wants ==>
              CountsAre(pt.(beats := pt.beats - 1, snoops := if k in counted then pt.snoops else pt.snoops - 1),
                             mine, mine * (open - {k}), mine * wants, mine * (counted + {k}))
    ensures k !in wants && k in open ==>
              CountsAre(pt.(snoops := pt.snoops - 1), mine, mine * (open - {k}), mine * wants, mine * counted)
  {
    assert mine * (open - {k}) == mine * open - {k};
    if k in wants {
      assert k in mine * wants && mine * wants == mine;
      forall x | x in mine ensures x in counted <==> x !in open {
        assert x in mine * counted <==> x in mine - mine * open;
      }
      assert mine * (counted + {k}) == mine - mine * (open - {k});
    } else {
      assert k !in mine * wants;
    }
  }

  lemma AnswerKeepsCounts(t: Tables, open: set<TxnID>, wants: set<TxnID>, k: TxnID, withData: bool)
    requires Barrier(t, open, wants) && k in t.snoopToOrig
    requires if withData then k in wants else k !in wants && k in open
    ensures t.snoopToOrig[k] in t.pending && AllCounts(Answered(t, k, withData), open - {k}, wants)
  {
    hide Consistent, CountsAre;
    OwnerOf(t, open, wants, k);
    var orig := t.snoopToOrig[k];
    var t' := Answered(t, k, withData);
    forall id | id in t'.pending && t'.pending[id].state == WaitSnoopResp
      ensures Counts(t', open - {k}, wants, id)
    {
      assert SnoopsOf(t', id) == SnoopsOf(t, id);
      if id == orig {
        assert Counts(t, open, wants, orig);
        OwnCounts(t.pending[orig], SnoopsOf(t, orig), open, wants, t.counted, k);
      } else {
        var mine := SnoopsOf(t, id);
        assert k !in mine;
        assert mine * (open - {k}) == mine * open && mine * t'.counted == mine * t.counted;
        OthersKeepCounts(t, t', open, open - {k}, wants, wants, id);
      }
    }
  }

  lemma OwnerOf(t: Tables, open: set<TxnID>, wants: set<TxnID>, k: TxnID)
    requires Barrier(t, open, wants) && k in t.snoopToOrig
    ensures t.snoopToOrig[k] in t.pending && t.pending[t.snoopToOrig[k]].state == WaitSnoopResp
    ensures Counts(t, open, wants, t.snoopToOrig[k])
  {
    assert SnoopEntryOk(t, k);
  }

  /** The step an answer takes: count it, and complete if nothing is missing any more. */
  lemma AnswerStep(t: Tables, v: Option<Line>, m: Msg, k: TxnID)
    requires (m.DataBeat? || m.Response?) && m.txnId == k && k in t.snoopToOrig && t.snoopToOrig[k] in t.pending
    requires m.DataBeat? && m.fb.Some? ==> m.fb.value in t.pending
    ensures var orig, t' := t.snoopToOrig[k], Answered(t, k, m.DataBeat?);
            && Step(t, v, m).t == (if Finished(t'.pending[orig]) then Complete(t', v, orig).t else t')
            && (Finished(t'.pending[orig]) || Step(t, v, m).actions == [])
            && Sent(Step(t, v, m).actions) == {} && SentWanting(Step(t, v, m).actions) == {}
  {
    hide ViewOps, ApplyView, Sent, SentWanting;
    var orig, t' := t.snoopToOrig[k], Answered(t, k, m.DataBeat?);
    CompleteIgnoresOwnMark(t', v, orig, k);
    if m.DataBeat? {
      CompleteIgnoresOwnMark(t', ApplyView(v, Fill(t.pending[orig].target, m.data)), orig, k);
    }
    NothingSent(Step(t, v, m).actions);
  }

  lemma AnswerKeepsBarrier(t: Tables, open: set<TxnID>, wants: set<TxnID>, v: Option<Line>, m: Msg)
    requires Barrier(t, open, wants) && Deliverable(t, m) && (m.DataBeat? || m.Response?) && m.txnId in t.snoopToOrig
    requires if m.DataBeat? then m.txnId in wants else m.txnId !in wants && m.txnId in open
    ensures Barrier(Step(t, v, m).t, open - {m.txnId}, wants)
  {
    hide Step, Answered, Complete, Consistent, Counts, Finished;
    var k := m.txnId;
    OwnerOf(t, open, wants, k);
    AnswerStep(t, v, m, k);
    AnswerKeepsCounts(t, open, wants, k, m.DataBeat?);
    StepKeepsConsistent(t, v, m);
    var orig, t' := t.snoopToOrig[k], Answered(t, k, m.DataBeat?);
    AnsweredFacts(t, k, m.DataBeat?, v);
    if Finished(t'.pending[orig]) {
      CompleteKeepsCounts(t', v, open - {k}, wants, orig);
    }
  }

  lemma AnsweredFacts(t: Tables, k: TxnID, withData: bool, v: Option<Line>)
    requires k in t.snoopToOrig && t.snoopToOrig[k] in t.pending
    ensures var orig, t' := t.snoopToOrig[k], Answered(t, k, withData);
            && orig in t'.pending && t'.pending[orig].state == t.pending[orig].state
            && t'.nextSnoop == t.nextSnoop && Complete(t', v, orig).t.nextSnoop == t.nextSnoop
  {
    hide ViewOps;
  }

  /** A message that answers no snoop leaves the snoop tables alone. */
  lemma OtherDeliveryKeepsBarrier(t: Tables, open: set<TxnID>, wants: set<TxnID>, v: Option<Line>, m: Msg)
    requires Barrier(t, open, wants) && Deliverable(t, m) && !m.Request? && AnswerId(m) !! t.snoopToOrig.Keys
    ensures Barrier(Step(t, v, m).t, open, wants)
    ensures Sent(Step(t, v, m).actions) == {} && SentWanting(Step(t, v, m).actions) == {}
  {
    hide ViewOps, Sent, SentWanting, Consistent, RecvSnoopData, RecvSnoopResponse;
    BarrierIsConsistent(t, open, wants);
    StepKeepsConsistent(t, v, m);
    NothingSent(Step(t, v, m).actions);
    RemovedIsNotSnooping(t, v, m);
    QuietStepKeepsBarrier(t, Step(t, v, m).t, open, wants);
  }

  lemma RemovedIsNotSnooping(t: Tables, v: Option<Line>, m: Msg)
    requires Consistent(t) && Deliverable(t, m) && !m.Request? && AnswerId(m) !! t.snoopToOrig.Keys
    ensures var out := Step(t, v, m);
            && out.t.snoopToOrig == t.snoopToOrig && out.t.counted == t.counted && out.t.nextSnoop == t.nextSnoop
            && (forall i :: 0 <= i < |out.actions| ==> !out.actions[i].SendSnoop?)
            && (forall id :: id in out.t.pending ==> id in t.pending && out.t.pending[id] == t.pending[id])
  {
    hide ViewOps, Consistent, RecvSnoopData, RecvSnoopResponse;
    if m.DataBeat? { RoutingIsExact(t, m.txnId, m.fb); }
  }

  lemma NetNextKeepsSound(n: Net, m: Msg)
    requires Sound(n) && NetAdmits(n, m)
    ensures Sound(NetNext(n, m))
  {
    hide Step, Barrier, Sent, SentWanting, ApplyOps, RequestOk, Deliverable, AnsweredAsAsked, ViewFor;
    var t, v := n.e.t, ViewFor(n.e, m);
    OpenIsLive(n);
    if m.Request? {
      StepIsRequest(t, v, m);
      RequestKeepsBarrier(t, n.open, n.wants, v, m.txn);
      assert n.open - AnswerId(m) == n.open;
    } else {
      DeliveryKeepsBarrier(n, m);
      assert n.open - AnswerId(m) + {} == n.open - AnswerId(m) && n.wants + {} == n.wants;
    }
  }

  lemma DeliveryKeepsBarrier(n: Net, m: Msg)
    requires Sound(n) && NetAdmits(n, m) && !m.Request?
    ensures var out := StepOut(n.e, m);
            Barrier(out.t, n.open - AnswerId(m), n.wants) && Sent(out.actions) == {} && SentWanting(out.actions) == {}
  {
    hide Step, Barrier, Sent, SentWanting, RequestOk, FallbackOk, ViewFor;
    var t, v := n.e.t, ViewFor(n.e, m);
    if AnswerId(m) !! t.snoopToOrig.Keys {
      OpenIsLive(n);
      OtherDeliveryKeepsBarrier(t, n.open, n.wants, v, m);
      assert n.open - AnswerId(m) == n.open;
    } else {
      BarrierOwner(t, n.open, n.wants, m.txnId);
      AnswerKeepsBarrier(t, n.open, n.wants, v, m);
      AnswerStep(t, v, m, m.txnId);
    }
  }

  lemma BarrierOwner(t: Tables, open: set<TxnID>, wants: set<TxnID>, k: TxnID)
    requires Barrier(t, open, wants) && k in t.snoopToOrig
    ensures t.snoopToOrig[k] in t.pending
  {
    OwnerOf(t, open, wants, k);
  }

  lemma OpenIsLive(n: Net)
    requires Sound(n)
    ensures n.open <= n.e.t.snoopToOrig.Keys
  {
  }

  lemma StepIsRequest(t: Tables, v: Option<Line>, m: Msg)
    requires m.Request?
    ensures Step(t, v, m) == RecvRequest(t, v, m.txn)
  {
  }

  /** An answer completes its transaction exactly when it comes from the last silent node: not before, and not
      by repeated beats. */
  lemma CompletesIffLastSilentNode(n: Net, m: Msg)
    requires Sound(n) && NetAdmits(n, m) && !m.Request? && AnswerId(m) <= n.e.t.snoopToOrig.Keys && AnswerId(m) != {}
    ensures var orig := n.e.t.snoopToOrig[m.txnId];
            orig !in NetNext(n, m).e.t.pending <==> SnoopsOf(n.e.t, orig) * n.open == {m.txnId}
  {
    hide Consistent, Step, ViewOps, ApplyOps, Answered, Counts, SnoopsOf, Sent, SentWanting, ViewFor, MsgOk;
    var t, k := n.e.t, m.txnId;
    OwnerOf(t, n.open, n.wants, k);
    var orig := t.snoopToOrig[k];
    AnswerStep(t, ViewFor(n.e, m), m, k);
    AnsweredGoesIffFinished(t, k, m.DataBeat?, ViewFor(n.e, m));
    AnswerKeepsCounts(t, n.open, n.wants, k, m.DataBeat?);
    FinishedIffAllAnswered(Answered(t, k, m.DataBeat?), n.open - {k}, n.wants, orig);
    SomeoneIsSilent(n, orig);
    OneLess(SnoopsOf(t, orig), n.open, k);
  }

  lemma AnsweredGoesIffFinished(t: Tables, k: TxnID, withData: bool, v: Option<Line>)
    requires k in t.snoopToOrig && t.snoopToOrig[k] in t.pending
    ensures var orig, t' := t.snoopToOrig[k], Answered(t, k, withData);
            && orig in t'.pending && t'.pending[orig].state == t.pending[orig].state
            && SnoopsOf(t', orig) == SnoopsOf(t, orig) && k in SnoopsOf(t, orig)
            && orig !in Complete(t', v, orig).t.pending
  {
    hide ViewOps;
  }

  lemma FinishedIffAllAnswered(t: Tables, open: set<TxnID>, wants: set<TxnID>, orig: TxnID)
    requires orig in t.pending && Counts(t, open, wants, orig)
    ensures Finished(t.pending[orig]) <==> SnoopsOf(t, orig) * open == {}
  {
  }

  lemma SomeoneIsSilent(n: Net, orig: TxnID)
    requires Sound(n) && orig in n.e.t.pending && n.e.t.pending[orig].state == WaitSnoopResp
    ensures SnoopsOf(n.e.t, orig) * n.open != {}
  {
    hide Consistent;
    CountdownIsExact(n, orig);
    assert Counts(n.e.t, n.open, n.wants, orig);
  }

  lemma OneLess(mine: set<TxnID>, open: set<TxnID>, k: TxnID)
    requires mine * open != {}
    ensures mine * (open - {k}) == {} <==> mine * open == {k}
  {
    assert mine * (open - {k}) == mine * open - {k};
  }

  // ---------- runs ----------

  ghost predicate IsNetRun(ns: seq<Net>, ms: seq<Msg>) {
    && |ns| == |ms| + 1
    && ns[0].e.t == INITIAL_TABLES && ns[0].open == {} && ns[0].wants == {}
    && (forall i :: 0 <= i < |ms| ==> NetAdmits(ns[i], ms[i]) && ns[i + 1] == NetNext(ns[i], ms[i]))
  }

  /** The countdowns are exact in every reachable state. */
  lemma {:induction false} RunSound(ns: seq<Net>, ms: seq<Msg>, i: nat)
    requires IsNetRun(ns, ms) && i <= |ms|
    ensures Sound(ns[i])
  {
    if i > 0 {
      RunSound(ns, ms, i - 1);
      assert NetAdmits(ns[i - 1], ms[i - 1]);
      NetNextKeepsSound(ns[i - 1], ms[i - 1]);
    }
  }
}
