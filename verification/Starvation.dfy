/** The engine keeps a node that wrote a line back as its sharer. The next reader therefore waits for data from a
    node that no longer has any, and waits for ever. */
module Starvation {
  import opened ChiTypes
  import opened CacheStore
  import opened EngineSpec
  import opened EngineTables
  import opened Directory
  import opened SnoopBarrier
  import opened Drain
  import opened WorkingSet
  import opened Outcomes
  import opened RequesterWorld
  import opened Coherence
  import opened Progress

  /** Transaction `k` waits for a data beat about line `l`, but nobody has the line and no data is on its way. */
  ghost predicate Starving(w: World, l: LineNo, k: TxnID) {
    && Safe(w) && l in w.envs && OwesBeats(w.e.t, k) && EntryLine(w.e.t.pending[k]) == l
    && NothingToSend(w.envs[l])
  }

  ghost predicate NothingToSend(env: Env) {
    env.copies == map[] && forall id :: id in env.snoops ==> !env.snoops[id].WithData?
  }

  /** This is the state in which a line gets stuck. */
  lemma StuckIsStarving(w: World, l: LineNo) returns (k: TxnID)
    requires Safe(w) && l in w.envs && AnsweredWithoutData(w, l)
    ensures Starving(w, l, k)
  {
    hide Fits, HoldsOnly, View, OneTxnPerLine, CopiesOk, FreeOk, IdsOk, SnoopsOf, Consistent;
    SafeStore(w);
    k :| k in w.e.t.pending && EntryLine(w.e.t.pending[k]) == l && w.e.t.pending[k].state == WaitSnoopResp
         && w.e.t.pending[k].beats > 0 && w.envs[l].snoops == map[];
    assert Coherent(w.e.t, View(w.e.store, l), w.envs[l], l);
    assert InFlightOk(w.e.t, k, View(w.e.store, l), w.envs[l]);
  }

  lemma StarvingLine(w: World, l: LineNo, k: TxnID)
    requires Starving(w, l, k)
    ensures var env := w.envs[l];
            env.asked == Some(w.e.t.pending[k].req) && IsRead(env.asked.value.opcode) && env.fetches == {}
              && env.write == None && env.grant == None
  {
    hide Roomy, View, OneTxnPerLine, CopiesOk, FreeOk, IdsOk, SnoopsOf, DataSnoopOk, PlainSnoopOk;
    SafeStore(w);
    assert Coherent(w.e.t, View(w.e.store, l), w.envs[l], l);
    assert InFlightOk(w.e.t, k, View(w.e.store, l), w.envs[l]);
  }

  /** Further beats of data that has arrived do not touch the engine. */
  lemma StrayLeavesEngine(w: World, ev: Event)
    requires Safe(w) && Allowed(w, ev) && ev.StrayBeat?
    ensures After(w, ev).e == w.e && After(w, ev).envs == w.envs[ev.l := Local(w.envs[ev.l], ev)]
  {
    hide Safe, View, Coherent, Consistent, Admits, Step, ApplyOps, ApplyView;
    SafeStore(w);
    DeliveryIsOk(w, ev);
    StrayDoesNothing(w.e.t, View(w.e.store, ev.l), w.envs[ev.l], ev, ev.l);
    AdmitsStep(w, ev);
    OneAction(Local(w.envs[ev.l], ev), SendReadNoSnp(0, 0));
  }

  /** On the starving line itself the only events left are the snooped node's answer without data and further beats of
      data that has arrived. */
  lemma OnlyEmptyAnswers(env: Env, ev: Event)
    requires NothingToSend(env) && EventOk(env, ev) && env.asked.Some? && IsRead(env.asked.value.opcode)
    requires env.fetches == {} && env.write == None && env.grant == None
    ensures (ev.AnswerSnoop? && !ev.withData) || ev.SnoopAck? || ev.StrayBeat?
    ensures NothingToSend(Local(env, ev)) && Local(env, ev).grant == None
  {
  }

  /** No event of another line hands data to the starving transaction. */
  lemma OthersBringNothing(w: World, ev: Event, l: LineNo, k: TxnID)
    requires Starving(w, l, k) && Allowed(w, ev) && EventLine(ev) != l && !ev.StrayBeat?
    ensures var m := MsgOf(w.envs[EventLine(ev)], ev);
            m.Some? && m.value.DataBeat? && m.value.txnId in w.e.t.snoopToOrig ==> w.e.t.snoopToOrig[m.value.txnId] != k
  {
    hide Roomy, View, OneTxnPerLine, CopiesOk, FreeOk, IdsOk, InFlightOk, Admits, Consistent, EventOk, MsgOf, WriteIdOk;
    SafeStore(w);
    var j := EventLine(ev);
    assert Coherent(w.e.t, View(w.e.store, j), w.envs[j], j);
    IdOfAnotherLine(w.e.t, w.envs[j], ev, j, k);
  }

  lemma IdOfAnotherLine(t: Tables, env: Env, ev: Event, j: LineNo, k: TxnID)
    requires Consistent(t) && IdsOk(t, env, j) && EventOk(env, ev) && WriteIdOk(t, ev, env) && !ev.StrayBeat?
    requires k in t.pending && EntryLine(t.pending[k]) != j
    ensures var m := MsgOf(env, ev);
            m.Some? && m.value.DataBeat? && m.value.txnId in t.snoopToOrig ==> t.snoopToOrig[m.value.txnId] != k
  {
    hide EntryOk, MemEntryOk;
    assert forall id :: id in t.snoopToOrig ==> SnoopEntryOk(t, id);
    if ev.WriteBeat? { RoutingIsExact(t, ev.id, None); }
  }

  lemma StillOwesBeats(w: World, ev: Event, l: LineNo, k: TxnID)
    requires Starving(w, l, k) && Allowed(w, ev)
    ensures OwesBeats(After(w, ev).e.t, k) && After(w, ev).e.t.pending[k].req == w.e.t.pending[k].req
  {
    hide Safe, View, Step, ApplyOps, AbsorbAll, Local, MsgOk, OwesBeats;
    SafeStore(w);
    var j := EventLine(ev);
    var m := MsgOf(w.envs[j], ev);
    if ev.StrayBeat? {
      StrayLeavesEngine(w, ev);
    } else if m.Some? {
      if j == l {
        StarvingLine(w, l, k);
        OnlyEmptyAnswers(w.envs[l], ev);
      } else {
        OthersBringNothing(w, ev, l, k);
      }
      OnlyDataReleases(w.e.t, ViewFor(w.e, m.value), m.value, k);
    }
  }

  lemma StarvingEnv(w: World, ev: Event, l: LineNo, k: TxnID)
    requires Starving(w, l, k) && Allowed(w, ev)
    ensures l in After(w, ev).envs && NothingToSend(After(w, ev).envs[l])
  {
    hide Safe, View, Step, ApplyOps, MsgOk, OwesBeats, NothingToSend, Local, AbsorbAll, StepOut, EventOk;
    if EventLine(ev) == l {
      StarvingLine(w, l, k);
      OnlyEmptyAnswers(w.envs[l], ev);
      if ev.SnoopAck? { EmptyAnswerReleasesNothing(w, ev, l, k); }
      if ev.StrayBeat? { StrayLeavesEngine(w, ev); }
    }
  }

  lemma EmptyAnswerReleasesNothing(w: World, ev: Event, l: LineNo, k: TxnID)
    requires Starving(w, l, k) && Allowed(w, ev) && EventLine(ev) == l && ev.SnoopAck?
    ensures MsgOf(w.envs[l], ev) == Some(Response(ev.id))
    ensures AbsorbAll(Local(w.envs[l], ev), StepOut(w.e, Response(ev.id)).actions) == Local(w.envs[l], ev)
  {
    hide Roomy, View, OneTxnPerLine, CopiesOk, FreeOk, IdsOk, DataSnoopOk, PlainSnoopOk, Complete, ApplyOps, Consistent;
    SafeStore(w);
    assert Coherent(w.e.t, View(w.e.store, l), w.envs[l], l);
    SnoopIsLive(w.e.t, View(w.e.store, l), w.envs[l], l, ev.id);
    SnoopOwner(w.e.t, View(w.e.store, l), w.envs[l], l, ev.id);
    OneAction(Local(w.envs[l], ev), SendReadNoSnp(0, 0));
  }

  lemma StaysStarving(w: World, ev: Event, l: LineNo, k: TxnID)
    requires Starving(w, l, k) && Allowed(w, ev)
    ensures Starving(After(w, ev), l, k) && After(w, ev).e.t.pending[k].req == w.e.t.pending[k].req
  {
    hide Safe, After, Allowed, NothingToSend;
    StaysSafe(w, ev);
    StillOwesBeats(w, ev, l, k);
    StarvingEnv(w, ev, l, k);
  }

  /** The state a write-back leaves behind: a dirty line whose one sharer has given it up. */
  ghost predicate WrittenBack(w: World, l: LineNo, x: NodeID) {
    && Safe(w) && l in w.envs && w.envs[l].copies == map[]
    && View(w.e.store, l).Some? && Dirty(View(w.e.store, l).value.state) && View(w.e.store, l).value.sharers == {x}
  }

  /** Write data leaves exactly that state behind. */
  lemma WriteBackLeaves(w: World, ev: Event)
    requires Safe(w) && Allowed(w, ev) && ev.WriteBeat?
    ensures exists x :: WrittenBack(After(w, ev), ev.l, x)
  {
    hide Roomy, View, Step, ApplyOps, AbsorbAll, Local, OneTxnPerLine, ViewOps, Coherent, LineFor, DataRoute,
         Consistent;
    var l, t := ev.l, w.e.t;
    var env, v := w.envs[l], View(w.e.store, l);
    var m := MsgOf(env, ev).value;
    SafeStore(w);
    DeliveryIsOk(w, ev);
    EngineEventIsWithin(w, ev);
    WriteBeatRoute(t, v, env, ev, l);
    var k := DataRoute(t, ev.id, ev.fb).key;
    WriteOwner(t, v, env, l, k);
    var src := t.pending[k].req.src;
    RoomyStepViews(w.e, m, w.envs.Keys, l);
    WriteBeatStep(w.e, m, k, src, l);
    WriteDataLeaves(t, v, k, env.latest);
    StaysSafe(w, ev);
    assert SharersOf(v) + {src} == {src};
    WriteBeatKeepsCopies(w, ev);
    assert WrittenBack(After(w, ev), l, src);
  }

  lemma WriteBeatStep(e: Engine, m: Msg, k: TxnID, src: NodeID, l: LineNo)
    requires Steppable(e, m) && m.DataBeat? && DataRoute(e.t, m.txnId, m.fb) == WriteBack(k) && k in e.t.pending
    requires e.t.pending[k].req.src == src && EntryLine(e.t.pending[k]) == l
    ensures StepOut(e, m).ops == [Fill(UD, m.data), AddSharer(src)] && LineFor(e.t, m) == Some(l)
  {
  }

  lemma WriteBeatKeepsCopies(w: World, ev: Event)
    requires Safe(w) && Allowed(w, ev) && ev.WriteBeat?
    ensures ev.l in After(w, ev).envs && After(w, ev).envs[ev.l].copies == w.envs[ev.l].copies
  {
    hide Roomy, View, ApplyOps, OneTxnPerLine, ViewOps, Coherent, DataRoute, Consistent, LineFree, FallbackOk;
    SafeStore(w);
    DeliveryIsOk(w, ev);
    var l := ev.l;
    WriteBeatRoute(w.e.t, View(w.e.store, l), w.envs[l], ev, l);
    OneAction(Local(w.envs[l], ev), SendReadNoSnp(0, 0));
  }

  lemma WriterIsSnooped(t: Tables, line: Line, txn: Txn, x: NodeID)
    requires IsRead(txn.opcode) && Dirty(line.state) && line.sharers == {x}
    ensures SnoopTargets(Some(line), txn) == if txn.src == x then {} else {x}
  {
    if txn.src == x { assert {x} - {x} == {}; } else { assert {x} - {txn.src} == {x}; }
  }

  /** A read by another node sends its one snoop to the writer and starts waiting for that node's data. */
  lemma OtherReaderStarves(w: World, l: LineNo, x: NodeID, txn: Txn)
    requires WrittenBack(w, l, x) && Allowed(w, Ask(txn)) && LineOf(txn.addr) == l && IsRead(txn.opcode) && txn.src != x
    ensures Starving(After(w, Ask(txn)), l, txn.txnID) && After(w, Ask(txn)).e.t.pending[txn.txnID].req == txn
  {
    hide Safe, View, ApplyOps, AbsorbAll, RecvRequest, SnoopStep, SnoopTargets, Ascending, SnoopEntry, OneTxnPerLine;
    var ev := Ask(txn);
    SafeStore(w);
    StaysSafe(w, ev);
    AskIsOk(w, ev);
    var t, v, env := w.e.t, View(w.e.store, l), w.envs[l];
    AskOkRequest(t, v, env, txn);
    WriterIsSnooped(t, v.value, txn, x);
    RequestShape(t, v, txn);
    SnoopStepEffect(t, v.value, txn);
    SnoopEntryWaits(v.value, txn);
    var actions, order := RecvRequest(t, v, txn).actions, Ascending(SnoopTargets(v, txn));
    AbsorbSnoops(Local(env, ev), actions, t.nextSnoop, order, Dirty(v.value.state));
  }

  lemma AskOkRequest(t: Tables, v: Option<Line>, env: Env, txn: Txn)
    requires AskOk(t, v, env, txn)
    ensures RequestOk(t, v, txn) && t.nextSnoop <= MEM_ID_BASE && env.snoops == map[]
  {
    hide RequestOk, CopiesOk, FreeOk, LineFree;
  }

  lemma SnoopEntryWaits(line: Line, txn: Txn)
    requires Dirty(line.state) && SnoopTargets(Some(line), txn) != {}
    ensures SnoopEntry(line, txn).beats > 0 && SnoopEntry(line, txn).state == WaitSnoopResp
            && SnoopEntry(line, txn).req == txn
  {
  }

  /** The writer itself is served at once. */
  lemma WriterIsServed(w: World, l: LineNo, x: NodeID, txn: Txn)
    requires WrittenBack(w, l, x) && Allowed(w, Ask(txn)) && LineOf(txn.addr) == l && IsRead(txn.opcode) && txn.src == x
    ensures After(w, Ask(txn)).e.t == w.e.t && After(w, Ask(txn)).envs[l].grant.Some?
  {
    hide Safe, View, ApplyOps, AbsorbAll, RecvRequest, SnoopTargets, OneTxnPerLine, CopiesOk;
    var ev := Ask(txn);
    SafeStore(w);
    AskIsOk(w, ev);
    var t, v, env := w.e.t, View(w.e.store, l), w.envs[l];
    WriterIsSnooped(t, v.value, txn, x);
    ServedLeaves(t, v.value, txn);
    OneAction(Local(env, ev), RecvRequest(t, v, txn).actions[0]);
  }

  /** After a write-back the next read is never answered, whatever happens, exactly when it comes from another node
      than the writer. */
  lemma {:induction false} ReadAfterWriteBackStarves(ws: seq<World>, evs: seq<Event>, l: LineNo, x: NodeID, txn: Txn,
                                                     i: nat)
    requires |ws| == |evs| + 1
             && forall j :: 0 <= j < |evs| ==> Allowed(ws[j], evs[j]) && ws[j + 1] == After(ws[j], evs[j])
    requires WrittenBack(ws[0], l, x) && LineOf(txn.addr) == l && IsRead(txn.opcode)
    requires 1 <= i <= |evs| && evs[0] == Ask(txn)
    ensures txn.src != x ==> Starving(ws[i], l, txn.txnID) && ws[i].envs[l].grant == None
    ensures txn.src == x ==> l in ws[1].envs && ws[1].envs[l].grant.Some?
  {
    hide WrittenBack, Allowed, After, Starving;
    if txn.src == x {
      WriterIsServed(ws[0], l, x, txn);
      AfterStore(ws[0], evs[0]);
      WrittenBackLine(ws[0], l, x);
    } else {
      if i == 1 {
        OtherReaderStarves(ws[0], l, x, txn);
      } else {
        ReadAfterWriteBackStarves(ws, evs, l, x, txn, i - 1);
        StaysStarving(ws[i - 1], evs[i - 1], l, txn.txnID);
      }
      StarvingHasEntry(ws[i], l, txn.txnID);
      StarvingLine(ws[i], l, txn.txnID);
    }
  }

  lemma WrittenBackLine(w: World, l: LineNo, x: NodeID)
    requires WrittenBack(w, l, x)
    ensures l in w.envs
  {
    hide Safe, View;
  }

  lemma StarvingHasEntry(w: World, l: LineNo, k: TxnID)
    requires Starving(w, l, k)
    ensures l in w.envs && k in w.e.t.pending
  {
    hide Safe;
  }
}
