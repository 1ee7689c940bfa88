/** Outstanding work always drains: every awaited delivery retires one unit of it, nothing adds to it, and when
    none is left all four tables are empty. */
module Drain {
  import opened ChiTypes
  import opened CacheStore
  import opened EngineSpec
  import opened EngineTables
  import opened SnoopBarrier

  /** The entries that wait for one particular delivery: memory data, a write acknowledgement, or write data. */
  ghost function Waiting(t: Tables): set<TxnID> {
    set k | k in t.pending && t.pending[k].state != WaitSnoopResp
  }

  ghost function Outstanding(n: Net): nat { |n.open| + |Waiting(n.e.t)| }

  /** The deliveries the engine is waiting for. */
  ghost predicate Awaited(n: Net, m: Msg) {
    var t := n.e.t;
    match m
    case DataBeat(id, _, _, fb) =>
      if id in t.snoopToOrig then id in n.open
      else DataRoute(t, id, fb).WriteBack? || DataRoute(t, id, fb).MemData?
    case Response(id) =>
      if id in t.snoopToOrig then id in n.open else id in t.pending && t.pending[id].state == WaitMemWriteAck
    case _ => false
  }

  predicate Delivery(m: Msg) { m.DataBeat? || m.Response? }

  /** An answer to a snoop: its id leaves `open`, and no waiting entry changes. */
  lemma AnswerLeavesWaiting(n: Net, m: Msg)
    requires Sound(n) && NetAdmits(n, m) && Delivery(m) && m.txnId in n.e.t.snoopToOrig
    ensures Waiting(NetNext(n, m).e.t) == Waiting(n.e.t) && NetNext(n, m).open == n.open - {m.txnId}
  {
    hide Consistent, Step, ApplyOps, Counts, ViewOps, Sent, SentWanting;
    var t, k := n.e.t, m.txnId;
    OwnerOf(t, n.open, n.wants, k);
    AnswerStep(t, ViewFor(n.e, m), m, k);
  }

  /** Any other delivery retires the waiting entry it is routed to, if there is one. */
  lemma OtherDelivery(n: Net, m: Msg)
    requires Sound(n) && NetAdmits(n, m) && Delivery(m) && m.txnId !in n.e.t.snoopToOrig
    ensures NetNext(n, m).open == n.open
    ensures Awaited(n, m) ==> Target(n.e.t, m).Some? && Target(n.e.t, m).value in Waiting(n.e.t)
                              && Waiting(NetNext(n, m).e.t) == Waiting(n.e.t) - {Target(n.e.t, m).value}
    ensures !Awaited(n, m) ==> Waiting(NetNext(n, m).e.t) == Waiting(n.e.t)
  {
    hide Consistent, ApplyOps, ViewOps, Sent, SentWanting, RecvSnoopData, RecvSnoopResponse, Counts, ApplyView;
    var t := n.e.t;
    OtherDeliveryKeepsBarrier(t, n.open, n.wants, ViewFor(n.e, m), m);
    if m.DataBeat? { RoutingIsExact(t, m.txnId, m.fb); }
    assert m.txnId !in n.open;
  }

  /** Each awaited delivery lowers the outstanding work by exactly one; any other delivery leaves it alone. */
  lemma DeliveryLowersOutstanding(n: Net, m: Msg)
    requires Sound(n) && NetAdmits(n, m) && Delivery(m)
    ensures Outstanding(NetNext(n, m)) == Outstanding(n) - if Awaited(n, m) then 1 else 0
  {
    hide Consistent, Step, ApplyOps, Barrier, NetNext, Waiting, Target;
    if m.txnId in n.e.t.snoopToOrig {
      AnswerLeavesWaiting(n, m);
      BeatOfClosedSnoop(n, m);
      if m.txnId !in n.open { assert n.open - {m.txnId} == n.open; }
    } else {
      OtherDelivery(n, m);
    }
  }

  lemma BeatOfClosedSnoop(n: Net, m: Msg)
    requires NetAdmits(n, m) && Delivery(m) && m.txnId in n.e.t.snoopToOrig
    ensures Awaited(n, m) <==> m.txnId in n.open
  {
  }

  lemma SnoopingMeansOpen(n: Net, orig: TxnID)
    requires Sound(n) && orig in n.e.t.pending && n.e.t.pending[orig].state == WaitSnoopResp
    ensures n.open != {}
  {
    CountdownIsExact(n, orig);
    assert SnoopsOf(n.e.t, orig) - {} == SnoopsOf(n.e.t, orig);
  }

  /** When nothing is outstanding, nothing is pending and no table holds an entry. */
  lemma DrainedIsEmpty(n: Net)
    requires Sound(n) && Outstanding(n) == 0
    ensures n.e.t.pending == map[] && n.e.t.snoopToOrig == map[] && n.e.t.memToOrig == map[] && n.e.t.counted == {}
  {
    var t := n.e.t;
    forall k ensures k !in t.pending {
      if k in t.pending {
        assert k !in Waiting(t);
        SnoopingMeansOpen(n, k);
      }
    }
    assert forall k :: k in t.snoopToOrig ==> SnoopEntryOk(t, k);
    assert forall k :: k in t.memToOrig ==> MemEntryOk(t, k);
  }

  /** While something is outstanding, some awaited delivery is possible. */
  lemma SomethingIsAwaited(n: Net, data: Data) returns (m: Msg)
    requires Sound(n) && ValidStore(n.e.store) && Outstanding(n) > 0
    ensures Delivery(m) && NetAdmits(n, m) && Awaited(n, m)
  {
    hide Consistent, Counts;
    if n.open != {} {
      m := OpenSnoopIsAwaited(n, data);
    } else {
      m := WaitingEntryIsAwaited(n, data);
    }
  }

  lemma OpenSnoopIsAwaited(n: Net, data: Data) returns (m: Msg)
    requires Sound(n) && ValidStore(n.e.store) && n.open != {}
    ensures Delivery(m) && NetAdmits(n, m) && Awaited(n, m)
  {
    hide Consistent, Counts;
    var k :| k in n.open;
    m := if k in n.wants then DataBeat(k, 0, data, SomeFallback(n.e.t, 0)) else Response(k);
  }

  lemma WaitingEntryIsAwaited(n: Net, data: Data) returns (m: Msg)
    requires Sound(n) && ValidStore(n.e.store) && Waiting(n.e.t) != {}
    ensures Delivery(m) && NetAdmits(n, m) && Awaited(n, m)
  {
    hide Consistent, Counts;
    var k :| k in Waiting(n.e.t);
    RoutingIsExact(n.e.t, k, None);
    m := if n.e.t.pending[k].state == WaitMemWriteAck then Response(k)
         else DataBeat(k, 0, data, SomeFallback(n.e.t, 0));
  }

  /** `ns` are the states the engine goes through while the awaited deliveries `ms` arrive, in whatever order. */
  ghost predicate IsDraining(ns: seq<Net>, ms: seq<Msg>) {
    && |ns| == |ms| + 1
    && (forall i :: 0 <= i < |ms| ==>
          Delivery(ms[i]) && NetAdmits(ns[i], ms[i]) && Awaited(ns[i], ms[i]) && ns[i + 1] == NetNext(ns[i], ms[i]))
  }

  lemma {:induction false} DrainStep(ns: seq<Net>, ms: seq<Msg>, i: nat)
    requires IsDraining(ns, ms) && Sound(ns[0]) && i <= |ms|
    ensures Sound(ns[i]) && Outstanding(ns[i]) == Outstanding(ns[0]) - i
  {
    if i > 0 {
      DrainStep(ns, ms, i - 1);
      assert NetAdmits(ns[i - 1], ms[i - 1]);
      NetNextKeepsSound(ns[i - 1], ms[i - 1]);
      DeliveryLowersOutstanding(ns[i - 1], ms[i - 1]);
    }
  }

  /** From any sound state no more awaited deliveries can arrive than there is work outstanding, and once that
      many have arrived, in any order, every table is empty. */
  lemma DrainsInExactlyOutstandingSteps(ns: seq<Net>, ms: seq<Msg>)
    requires IsDraining(ns, ms) && Sound(ns[0])
    ensures |ms| <= Outstanding(ns[0])
    ensures var t := ns[|ms|].e.t;
            |ms| == Outstanding(ns[0]) ==>
              t.pending == map[] && t.snoopToOrig == map[] && t.memToOrig == map[] && t.counted == {}
  {
    DrainStep(ns, ms, |ms|);
    if |ms| == Outstanding(ns[0]) {
      DrainedIsEmpty(ns[|ms|]);
    }
  }

  // ---------- the one way to get stuck ----------

  ghost predicate OwesBeats(t: Tables, orig: TxnID) {
    orig in t.pending && t.pending[orig].state == WaitSnoopResp && t.pending[orig].beats > 0
  }

  /** A transaction that still waits for a data beat is completed by nothing but data for one of its own snoops:
      a node that answers a data snoop without data keeps the requester waiting, whatever else happens. */
  lemma OnlyDataReleases(t: Tables, v: Option<Line>, m: Msg, orig: TxnID)
    requires Consistent(t) && MsgOk(t, v, m) && OwesBeats(t, orig)
    requires m.DataBeat? && m.txnId in t.snoopToOrig ==> t.snoopToOrig[m.txnId] != orig
    ensures OwesBeats(Step(t, v, m).t, orig) && Step(t, v, m).t.pending[orig].req == t.pending[orig].req
  {
    hide Consistent, RecvRequest, ViewOps, ApplyView;
    match m
    case Request(txn) =>
      RequestLeavesEntries(t, v, txn, orig);
    case Evict(_) =>
    case Response(id) =>
    case DataBeat(id, _, _, fb) =>
      RoutingIsExact(t, id, fb);
  }

  lemma RequestLeavesEntries(t: Tables, v: Option<Line>, txn: Txn, k: TxnID)
    requires Consistent(t) && RequestOk(t, v, txn) && k in t.pending
    ensures k in RecvRequest(t, v, txn).t.pending && RecvRequest(t, v, txn).t.pending[k] == t.pending[k]
  {
    hide RecvRequest, SnoopStep, SnoopTargets, SnoopEntry;
    RequestShape(t, v, txn);
    assert t.nextMem in t.pending ==> EntryOk(t, t.nextMem);
    if !IsWrite(txn.opcode) && SnoopTargets(v, txn) != {} { SnoopStepEffect(t, v.value, txn); }
  }

  lemma {:induction false} StarvesWithoutData(es: seq<Engine>, ms: seq<Msg>, orig: TxnID, i: nat)
    requires IsRun(es, ms) && Consistent(es[0].t) && OwesBeats(es[0].t, orig) && i <= |ms|
    requires forall j :: 0 <= j < i ==>
               (ms[j].DataBeat? && ms[j].txnId in es[j].t.snoopToOrig ==> es[j].t.snoopToOrig[ms[j].txnId] != orig)
    ensures Consistent(es[i].t) && OwesBeats(es[i].t, orig) && es[i].t.pending[orig].req == es[0].t.pending[orig].req
  {
    hide Step, Consistent;
    if i > 0 {
      StarvesWithoutData(es, ms, orig, i - 1);
      assert Admits(es[i - 1], ms[i - 1]);
      NextKeepsConsistent(es[i - 1], ms[i - 1]);
      OnlyDataReleases(es[i - 1].t, ViewFor(es[i - 1], ms[i - 1]), ms[i - 1], orig);
    }
  }
}
