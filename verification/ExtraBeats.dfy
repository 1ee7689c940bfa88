/** Data comes in several beats. Beyond the first they change nothing that matters: while the transaction waits they
    only lower a countdown nobody depends on, and afterwards they do nothing. A run with any number of them, anywhere,
    acts like the run without them. */
module ExtraBeats {
  import opened ChiTypes
  import opened CacheStore
  import opened EngineSpec
  import opened EngineTables
  import opened Directory
  import opened SnoopBarrier
  import opened WorkingSet
  import opened LateBeats
  import opened LineFrames

  // ---------- states that extra beats cannot tell apart ----------

  /** Equal tables but for the beat countdowns of the transactions `ks`. */
  ghost predicate TablesAlike(t: Tables, t': Tables, ks: set<TxnID>) {
    && t' == t.(pending := t'.pending) && t'.pending.Keys == t.pending.Keys
    && (forall k :: k in t.pending ==> t'.pending[k] == t.pending[k].(beats := t'.pending[k].beats))
    && (forall k :: k in t.pending && k !in ks ==> t'.pending[k] == t.pending[k])
  }

  /** One of the transactions `ds` is in flight on line `l`. */
  ghost predicate OnLine(t: Tables, ds: set<TxnID>, l: LineNo) {
    exists k :: k in ds && k in t.pending && EntryLine(t.pending[k]) == l
  }

  /** Both resident, with the same sharers. */
  predicate SameSharers(v: Option<Line>, v': Option<Line>) {
    v.Some? && v'.Some? && v'.value.sharers == v.value.sharers
  }

  ghost predicate LineAlike(t: Tables, ds: set<TxnID>, l: LineNo, v: Option<Line>, v': Option<Line>) {
    if OnLine(t, ds, l) then SameSharers(v, v') else v' == v
  }

  /** The transactions wait for data from every node they snooped. */
  ghost predicate AwaitData(t: Tables, wants: set<TxnID>, ks: set<TxnID>) {
    forall k :: k in ks ==> k in t.pending && t.pending[k].state == WaitSnoopResp && SnoopsOf(t, k) <= wants
  }

  /** Two states that differ in the beat countdowns of the waiting transactions `ks`, and in the contents of the lines
      of some of them, `ds`. */
  ghost predicate Alike(n: Net, n': Net, ws: set<LineNo>, ks: set<TxnID>, ds: set<TxnID>) {
    && Sound(n) && Sound(n') && Roomy(n.e, ws) && Roomy(n'.e, ws) && OneTxnPerLine(n.e.t)
    && n'.open == n.open && n'.wants == n.wants && ds <= ks && AwaitData(n.e.t, n.wants, ks)
    && TablesAlike(n.e.t, n'.e.t, ks)
    && (forall l: LineNo :: LineAlike(n.e.t, ds, l, View(n.e.store, l), View(n'.e.store, l)))
  }

  /** A transaction finishes in one of two such states exactly when it does in the other. */
  lemma FinishedAlike(n: Net, n': Net, m: Msg, k: TxnID, ks: set<TxnID>)
    requires Sound(n) && Sound(n') && n'.open == n.open && n'.wants == n.wants && TablesAlike(n.e.t, n'.e.t, ks)
    requires AnsweredAsAsked(n, m) && (m.DataBeat? || m.Response?)
    requires m.txnId in n.e.t.snoopToOrig && k == n.e.t.snoopToOrig[m.txnId]
    ensures k in n.e.t.pending && k in n'.e.t.pending
    ensures Finished(Answered(n.e.t, m.txnId, m.DataBeat?).pending[k])
       <==> Finished(Answered(n'.e.t, m.txnId, m.DataBeat?).pending[k])
  {
    hide Consistent;
    var t, t', id := n.e.t, n'.e.t, m.txnId;
    OwnerOf(t, n.open, n.wants, id);
    OwnerOf(t', n.open, n.wants, id);
    var mine := SnoopsOf(t, k);
    assert SnoopsOf(t', k) == mine && id in mine;
    assert id in mine * n.wants <==> id in n.wants;
  }

  // ---------- one step ----------

  lemma {:induction false} IssueAlike(t: Tables, p: map<TxnID, PendingTxn>, txn: Txn, kind: SnoopKind,
                                      order: seq<NodeID>,
                                      ret: bool)
    ensures var r := IssueSnoops(t, txn, kind, order, ret);
            r.t.pending == t.pending
            && IssueSnoops(t.(pending := p), txn, kind, order, ret) == Issued(r.t.(pending := p), r.actions)
  {
    if order != [] { IssueAlike(t, p, txn, kind, order[..|order| - 1], ret); }
  }

  ghost predicate OutAlike(o: Out, o': Out, ks: set<TxnID>) {
    o'.ops == o.ops && o'.actions == o.actions && TablesAlike(o.t, o'.t, ks)
  }

  lemma SnoopAlike(t: Tables, t': Tables, line: Line, txn: Txn, ks: set<TxnID>)
    requires TablesAlike(t, t', ks)
    ensures OutAlike(SnoopStep(t, line, txn), SnoopStep(t', line, txn), ks)
  {
    hide SnoopTargets, Ascending, SnoopKindFor, TargetState;
    var entry := SnoopEntry(line, txn);
    var w := t.(pending := t.pending[txn.txnID := entry]);
    IssueAlike(w, t'.pending[txn.txnID := entry], txn, SnoopKindFor(line, txn.opcode),
      Ascending(SnoopTargets(Some(line), txn)), Dirty(line.state));
    assert t'.(pending := t'.pending[txn.txnID := entry]) == w.(pending := t'.pending[txn.txnID := entry]);
  }

  lemma RequestAlike(t: Tables, t': Tables, v: Option<Line>, txn: Txn, ks: set<TxnID>)
    requires TablesAlike(t, t', ks)
    ensures OutAlike(RecvRequest(t, v, txn), RecvRequest(t', v, txn), ks)
  {
    hide SnoopStep, SnoopTargets, Snoop, ViewOps, IssueSnoops, RecvRequest;
    RequestShape(t, v, txn);
    RequestShape(t', v, txn);
    if !IsWrite(txn.opcode) && SnoopTargets(v, txn) != {} {
      SnoopAlike(t, t', v.value, txn, ks);
    } else {
      OtherRequestAlike(t, t', v, txn, ks);
    }
  }

  lemma OtherRequestAlike(t: Tables, t': Tables, v: Option<Line>, txn: Txn, ks: set<TxnID>)
    requires TablesAlike(t, t', ks) && (IsWrite(txn.opcode) || SnoopTargets(v, txn) == {})
    ensures OutAlike(RecvRequest(t, v, txn), RecvRequest(t', v, txn), ks)
  {
    hide ViewOps, IssueSnoops, Snoop, ServeShared, ServeUnique, CleanDirtyLine, Fetch, HandleWrite, OutAlike;
    ParkedAlike(t, t', txn, ks);
    if v.Some? { ServedAlike(t, t', v.value, txn, ks); }
  }

  lemma ParkedAlike(t: Tables, t': Tables, txn: Txn, ks: set<TxnID>)
    requires TablesAlike(t, t', ks)
    ensures OutAlike(HandleWrite(t, txn), HandleWrite(t', txn), ks)
    ensures forall target, ops :: OutAlike(Fetch(t, txn, target, ops), Fetch(t', txn, target, ops), ks)
    ensures forall ops, actions :: OutAlike(Out(t, ops, actions), Out(t', ops, actions), ks)
  {
  }

  lemma ServedAlike(t: Tables, t': Tables, line: Line, txn: Txn, ks: set<TxnID>)
    requires TablesAlike(t, t', ks)
    ensures OutAlike(ServeShared(t, line, txn), ServeShared(t', line, txn), ks)
    ensures OutAlike(ServeUnique(t, line, txn), ServeUnique(t', line, txn), ks)
    ensures OutAlike(CleanDirtyLine(t, line, txn), CleanDirtyLine(t', line, txn), ks)
  {
    hide ViewOps;
  }

  lemma CompleteAlike(t: Tables, t': Tables, v: Option<Line>, k: TxnID, ks: set<TxnID>)
    requires TablesAlike(t, t', ks) && k in t.pending
    ensures OutAlike(Complete(t, v, k), Complete(t', v, k), ks)
  {
    hide ViewOps;
  }

  lemma BeatAlike(t: Tables, t': Tables, v: Option<Line>, id: TxnID, data: Data, k: TxnID, ks: set<TxnID>)
    requires TablesAlike(t, t', ks) && id in t.snoopToOrig && k == t.snoopToOrig[id] && k in t.pending
    requires Finished(Answered(t, id, true).pending[k]) <==> Finished(Answered(t', id, true).pending[k])
    ensures OutAlike(RecvSnoopData(t, v, k, id, data), RecvSnoopData(t', v, k, id, data), ks)
  {
    hide ViewOps, ApplyView, Complete, Finished;
    var t1, t1' := Answered(t, id, true), Answered(t', id, true);
    CompleteAlike(t1.(counted := t1.counted - {id}), t1'.(counted := t1'.counted - {id}),
      ApplyView(v, Fill(t.pending[k].target, data)), k, ks);
  }

  lemma SnoopResponseAlike(t: Tables, t': Tables, v: Option<Line>, id: TxnID, k: TxnID, ks: set<TxnID>)
    requires TablesAlike(t, t', ks) && id in t.snoopToOrig && k == t.snoopToOrig[id] && k in t.pending
    requires Finished(Answered(t, id, false).pending[k]) <==> Finished(Answered(t', id, false).pending[k])
    ensures OutAlike(RecvSnoopResponse(t, v, k), RecvSnoopResponse(t', v, k), ks)
  {
    hide ViewOps, Complete, Finished;
    CompleteAlike(Answered(t, id, false), Answered(t', id, false), v, k, ks);
  }

  lemma OtherAlike(t: Tables, t': Tables, v: Option<Line>, m: Msg, wants: set<TxnID>, ks: set<TxnID>)
    requires TablesAlike(t, t', ks) && AwaitData(t, wants, ks) && Consistent(t) && Deliverable(t, m) && !m.Request?
    requires AnswerId(m) !! t.snoopToOrig.Keys
    ensures OutAlike(Step(t, v, m), Step(t', v, m), ks)
  {
    hide ViewOps, ApplyView, Consistent, RecvSnoopData, RecvSnoopResponse;
    if m.DataBeat? { RoutingIsExact(t, m.txnId, m.fb); }
  }

  /** A data beat overwrites whatever the line held, so it wipes a difference in contents out. */
  lemma BeatHidesContents(t: Tables, v: Option<Line>, v': Option<Line>, k: TxnID, id: TxnID, data: Data)
    requires k in t.pending && SameSharers(v, v') && t.pending[k].target != I
    ensures RecvSnoopData(t, v', k, id, data) == RecvSnoopData(t, v, k, id, data)
    ensures var ops := RecvSnoopData(t, v, k, id, data).ops; ViewOps(v', ops) == ViewOps(v, ops)
  {
    hide ViewOps, Finished;
    var fill := Fill(t.pending[k].target, data);
    assert ApplyView(v', fill) == ApplyView(v, fill);
    var out := RecvSnoopData(t, v, k, id, data);
    ViewFirst(v, fill, out.ops[1..]);
    ViewFirst(v', fill, out.ops[1..]);
    assert out.ops == [fill] + out.ops[1..];
  }

  /** A message of a well-behaved run: inside the working set, and a request only for a line that is free. */
  ghost predicate Steady(n: Net, m: Msg, ws: set<LineNo>) {
    NetAdmits(n, m) && Within(n.e, m, ws) && (m.Request? ==> LineFree(n.e.t, LineOf(m.txn.addr)))
  }

  /** The transactions of `ks` that are still in flight. */
  function StillIn(ks: set<TxnID>, t: Tables): set<TxnID> { set k | k in ks && k in t.pending }

  /** Either the message finds the same line in both states, or it is a data beat of a transaction whose line
      differs. */
  lemma SameLineOrBeat(n: Net, n': Net, m: Msg, ws: set<LineNo>, ks: set<TxnID>, ds: set<TxnID>)
    requires Alike(n, n', ws, ks, ds) && Steady(n, m, ws)
    ensures LineFor(n'.e.t, m) == LineFor(n.e.t, m)
    ensures ViewFor(n'.e, m) == ViewFor(n.e, m)
            || (m.DataBeat? && m.txnId in n.e.t.snoopToOrig && n.e.t.snoopToOrig[m.txnId] in n.e.t.pending
                && n.e.t.pending[n.e.t.snoopToOrig[m.txnId]].state == WaitSnoopResp
                && SameSharers(ViewFor(n.e, m), ViewFor(n'.e, m)))
  {
    hide Sound, Roomy, View, MsgOk, Target, NetAdmits;
    LineForAlike(n.e.t, n'.e.t, m, ks);
    var t, l := n.e.t, LineFor(n.e.t, m);
    SoundRoomy(n, ws);
    SoundRoomy(n', ws);
    if l.Some? {
      assert LineAlike(t, ds, l.value, View(n.e.store, l.value), View(n'.e.store, l.value));
      if OnLine(t, ds, l.value) {
        var k :| k in ds && k in t.pending && EntryLine(t.pending[k]) == l.value;
        BeatOfWaiting(n, m, ws, ks, k);
      }
    }
  }

  lemma SoundRoomy(n: Net, ws: set<LineNo>)
    requires Sound(n) && Roomy(n.e, ws)
    ensures ValidStore(n.e.store) && Consistent(n.e.t)
  {
  }

  lemma LineForAlike(t: Tables, t': Tables, m: Msg, ks: set<TxnID>)
    requires TablesAlike(t, t', ks)
    ensures LineFor(t', m) == LineFor(t, m) && Target(t', m) == Target(t, m)
  {
  }

  /** On the line of a transaction that waits for data, a steady run delivers nothing but its data beats. */
  lemma BeatOfWaiting(n: Net, m: Msg, ws: set<LineNo>, ks: set<TxnID>, k: TxnID)
    requires Sound(n) && OneTxnPerLine(n.e.t) && Steady(n, m, ws) && AwaitData(n.e.t, n.wants, ks) && k in ks
    requires k in n.e.t.pending && LineFor(n.e.t, m) == Some(EntryLine(n.e.t.pending[k]))
    ensures m.DataBeat? && m.txnId in n.e.t.snoopToOrig && n.e.t.snoopToOrig[m.txnId] == k
    ensures k in n.e.t.pending && n.e.t.pending[k].state == WaitSnoopResp
  {
    hide Counts, ViewFor;
    var t := n.e.t;
    if m.DataBeat? {
      RoutingIsExact(t, m.txnId, m.fb);
      assert m.fb.Some? ==> AwaitsWriteOf(t, m.fb.value, m.addr);
    }
  }

  lemma AdmitsAlike(n: Net, n': Net, m: Msg, ws: set<LineNo>, ks: set<TxnID>, ds: set<TxnID>)
    requires Alike(n, n', ws, ks, ds) && Steady(n, m, ws)
    ensures NetAdmits(n', m) && Within(n'.e, m, ws)
  {
    hide Sound, View, SnoopTargets, Consistent, Fits, HoldsOnly, OneTxnPerLine, LineAlike, AwaitData;
    SameLineOrBeat(n, n', m, ws, ks, ds);
    var t, t' := n.e.t, n'.e.t;
    assert forall k, a :: AwaitsWriteOf(t', k, a) <==> AwaitsWriteOf(t, k, a);
  }

  lemma StepAlike(n: Net, n': Net, m: Msg, ws: set<LineNo>, ks: set<TxnID>, ds: set<TxnID>)
    requires Alike(n, n', ws, ks, ds) && Steady(n, m, ws) && NetAdmits(n', m)
    ensures OutAlike(StepOut(n.e, m), StepOut(n'.e, m), ks)
    ensures ViewOps(ViewFor(n'.e, m), StepOut(n.e, m).ops) == ViewOps(ViewFor(n.e, m), StepOut(n.e, m).ops)
  {
    hide Step, View, Consistent, Roomy, Answered, Barrier, OneTxnPerLine, LineAlike, ViewFor, LineFor, OutAlike,
         ViewOps, TablesAlike;
    var t, t', v := n.e.t, n'.e.t, ViewFor(n.e, m);
    BarrierIsConsistent(t, n.open, n.wants);
    SameLineOrBeat(n, n', m, ws, ks, ds);
    SameTablesButBeats(t, t', ks);
    if m.Request? {
      StepIsRequest(t, v, m);
      StepIsRequest(t', v, m);
      RequestAlike(t, t', v, m.txn, ks);
    } else if AnswerId(m) !! t.snoopToOrig.Keys {
      OtherAlike(t, t', v, m, n.wants, ks);
    } else {
      AnswerAlike(n, n', m, ws, ks, ds);
    }
  }

  lemma SameTablesButBeats(t: Tables, t': Tables, ks: set<TxnID>)
    requires TablesAlike(t, t', ks)
    ensures t'.snoopToOrig == t.snoopToOrig && t'.counted == t.counted && t'.pending.Keys == t.pending.Keys
    ensures forall k :: k in t.pending ==>
              t'.pending[k].req == t.pending[k].req && t'.pending[k].state == t.pending[k].state
                                           && t'.pending[k].target == t.pending[k].target
  {
  }

  lemma AnswerAlike(n: Net, n': Net, m: Msg, ws: set<LineNo>, ks: set<TxnID>, ds: set<TxnID>)
    requires Alike(n, n', ws, ks, ds) && Steady(n, m, ws) && NetAdmits(n', m) && !m.Request?
    requires !(AnswerId(m) !! n.e.t.snoopToOrig.Keys)
    ensures OutAlike(StepOut(n.e, m), StepOut(n'.e, m), ks)
    ensures ViewOps(ViewFor(n'.e, m), StepOut(n.e, m).ops) == ViewOps(ViewFor(n.e, m), StepOut(n.e, m).ops)
  {
    hide View, Consistent, Roomy, Answered, Barrier, OneTxnPerLine, LineAlike, ViewFor, LineFor, OutAlike, ViewOps,
         TablesAlike, RecvSnoopData, RecvSnoopResponse, FallbackOk;
    var t, t', v, v', id := n.e.t, n'.e.t, ViewFor(n.e, m), ViewFor(n'.e, m), m.txnId;
    SameLineOrBeat(n, n', m, ws, ks, ds);
    SameTablesButBeats(t, t', ks);
    OwnerOf(t, n.open, n.wants, id);
    var k := t.snoopToOrig[id];
    FinishedAlike(n, n', m, k, ks);
    BarrierIsConsistent(t, n.open, n.wants);
    EntryTarget(t, k);
    if m.DataBeat? {
      BeatAlike(t, t', v, id, m.data, k, ks);
      if v' != v {
        BeatHidesContents(t, v, v', k, id, m.data);
        BeatHidesContents(t', v, v', k, id, m.data);
      }
    } else {
      SnoopResponseAlike(t, t', v, id, k, ks);
    }
  }

  lemma EntryTarget(t: Tables, k: TxnID)
    requires Consistent(t) && k in t.pending && t.pending[k].state == WaitSnoopResp
    ensures t.pending[k].target != I
  {
    assert EntryOk(t, k);
  }

  /** The transactions that still wait for data after a step waited before it, for the same snoops. */
  lemma AwaitDataAfter(n: Net, m: Msg, ws: set<LineNo>, ks: set<TxnID>)
    requires Sound(n) && NetAdmits(n, m) && Sound(NetNext(n, m)) && AwaitData(n.e.t, n.wants, ks)
    ensures AwaitData(NetNext(n, m).e.t, NetNext(n, m).wants, StillIn(ks, NetNext(n, m).e.t))
  {
    hide Step, View, ApplyOps, Counts, Sent, SentWanting, MsgOk, LineFor, ChangedKey, Consistent, ViewFor;
    var t, v, t' := n.e.t, ViewFor(n.e, m), NetNext(n, m).e.t;
    BarrierIsConsistent(t, n.open, n.wants);
    BarrierIsConsistent(t', NetNext(n, m).open, NetNext(n, m).wants);
    EntriesAfter(t, v, m);
    StepKeepsOtherSnoops(t, v, m);
    forall k | k in StillIn(ks, t')
      ensures t'.pending[k].state == WaitSnoopResp && SnoopsOf(t', k) <= n.wants
    {
      WaitingKeepsSnoops(t, v, m, k);
    }
  }

  /** A snooping entry that stays in flight keeps its state and gets no new snoops. */
  lemma WaitingKeepsSnoops(t: Tables, v: Option<Line>, m: Msg, k: TxnID)
    requires Consistent(t) && MsgOk(t, v, m) && k in t.pending && t.pending[k].state == WaitSnoopResp
    requires k in Step(t, v, m).t.pending
    ensures Step(t, v, m).t.pending[k].state == WaitSnoopResp && SnoopsOf(Step(t, v, m).t, k) <= SnoopsOf(t, k)
  {
    hide Step, ChangedKey, RequestOk, LineFor, Consistent;
    StepKeepsOtherSnoops(t, v, m);
    EntriesAfter(t, v, m);
    if m.Request? {
      RequestKeyIsNew(t, v, m, k);
    } else {
      SnoopingStateStays(t, v, m, k);
      DeliveryAddsNoSnoops(t, v, m);
    }
  }

  lemma RequestKeyIsNew(t: Tables, v: Option<Line>, m: Msg, k: TxnID)
    requires Consistent(t) && MsgOk(t, v, m) && m.Request? && k in t.pending
    ensures ChangedKey(t, v, m) != Some(k)
  {
    hide Step, Consistent, RequestOk, KeyUsed;
    StepChangesOneEntry(t, v, m);
  }

  lemma DeliveryAddsNoSnoops(t: Tables, v: Option<Line>, m: Msg)
    requires !m.Request? && (m.DataBeat? && m.fb.Some? ==> m.fb.value in t.pending)
    ensures forall id :: id in Step(t, v, m).t.snoopToOrig ==>
              id in t.snoopToOrig && Step(t, v, m).t.snoopToOrig[id] == t.snoopToOrig[id]
  {
    hide ViewOps, ApplyView;
  }

  /** Away from the line of the message nothing changes about who is in flight where. */
  lemma OnLineElsewhere(t: Tables, v: Option<Line>, m: Msg, ds: set<TxnID>, l: LineNo)
    requires Consistent(t) && MsgOk(t, v, m) && LineFor(t, m) != Some(l) && forall k :: k in ds ==> k in t.pending
    ensures OnLine(Step(t, v, m).t, StillIn(ds, Step(t, v, m).t), l) <==> OnLine(t, ds, l)
  {
    hide Step, ChangedKey, RequestOk, LineFor, Consistent;
    EntriesAfter(t, v, m);
    var t' := Step(t, v, m).t;
    if OnLine(t, ds, l) {
      var k :| k in ds && k in t.pending && EntryLine(t.pending[k]) == l;
      assert k in StillIn(ds, t') && k in t'.pending && EntryLine(t'.pending[k]) == l;
    }
    if OnLine(t', StillIn(ds, t'), l) {
      var k :| k in StillIn(ds, t') && k in t'.pending && EntryLine(t'.pending[k]) == l;
      assert k in ds && k in t.pending && EntryLine(t.pending[k]) == l;
    }
  }

  /** A waiting transaction's line is resident. */
  lemma WaitingIsResident(n: Net, ws: set<LineNo>, ks: set<TxnID>, ds: set<TxnID>, l: LineNo)
    requires Roomy(n.e, ws) && AwaitData(n.e.t, n.wants, ks) && ds <= ks && OnLine(n.e.t, ds, l)
    ensures View(n.e.store, l).Some?
  {
    hide View, Fits, HoldsOnly, Consistent;
  }

  lemma LinesAfter(n: Net, n': Net, m: Msg, ws: set<LineNo>, ks: set<TxnID>, ds: set<TxnID>, l: LineNo)
    requires Alike(n, n', ws, ks, ds) && Steady(n, m, ws) && NetAdmits(n', m) && Within(n'.e, m, ws)
    requires Roomy(NetNext(n, m).e, ws)
    requires AwaitData(NetNext(n, m).e.t, NetNext(n, m).wants, StillIn(ks, NetNext(n, m).e.t))
    ensures LineAlike(NetNext(n, m).e.t, StillIn(ds, NetNext(n, m).e.t), l, View(NetNext(n, m).e.store, l),
              View(NetNext(n', m).e.store, l))
  {
    hide Step, View, Consistent, Roomy, Barrier, Sent, SentWanting, ApplyOps, Within, MsgOk, ViewOps, LineFor,
         TablesAlike, OnLine, AnsweredAsAsked, OneTxnPerLine, AwaitData, SameSharers;
    SoundRoomy(n, ws);
    SameLineOrBeat(n, n', m, ws, ks, ds);
    StepAlike(n, n', m, ws, ks, ds);
    RoomyStepViews(n.e, m, ws, l);
    RoomyStepViews(n'.e, m, ws, l);
    var n1 := NetNext(n, m);
    if LineFor(n.e.t, m) == Some(l) {
      if OnLine(n1.e.t, StillIn(ds, n1.e.t), l) {
        WaitingIsResident(n1, ws, StillIn(ks, n1.e.t), StillIn(ds, n1.e.t), l);
        SharersOfSame(View(n1.e.store, l));
      }
    } else {
      InFlight(n, ks, ds);
      OnLineElsewhere(n.e.t, ViewFor(n.e, m), m, ds, l);
    }
  }

  lemma SharersOfSame(v: Option<Line>)
    requires v.Some?
    ensures SameSharers(v, v)
  {
  }

  lemma InFlight(n: Net, ks: set<TxnID>, ds: set<TxnID>)
    requires AwaitData(n.e.t, n.wants, ks) && ds <= ks
    ensures forall k :: k in ds ==> k in n.e.t.pending
  {
  }

  /** Two such states stay alike under every message, and the engine does the same in both. A transaction that is
      answered drops out of the difference. */
  lemma NextAlike(n: Net, n': Net, m: Msg, ws: set<LineNo>, ks: set<TxnID>, ds: set<TxnID>)
    requires Alike(n, n', ws, ks, ds) && Steady(n, m, ws)
    ensures NetAdmits(n', m) && StepOut(n'.e, m).actions == StepOut(n.e, m).actions
    ensures var t := NetNext(n, m).e.t; Alike(NetNext(n, m), NetNext(n', m), ws, StillIn(ks, t), StillIn(ds, t))
  {
    hide Step, View, Consistent, Roomy, Barrier, Sent, SentWanting, ApplyOps, Within, MsgOk, ViewOps, LineFor,
         ViewFor, AwaitData, LineAlike, OneTxnPerLine, AnsweredAsAsked, TablesAlike;
    AdmitsAlike(n, n', m, ws, ks, ds);
    StepAlike(n, n', m, ws, ks, ds);
    NetNextKeepsSound(n, m);
    NetNextKeepsSound(n', m);
    NextKeepsRoomy(n.e, m, ws);
    NextKeepsRoomy(n'.e, m, ws);
    SoundRoomy(n, ws);
    OneTxnPerLineKept(n.e.t, ViewFor(n.e, m), m);
    AwaitDataAfter(n, m, ws, ks);
    forall l: LineNo
      ensures LineAlike(NetNext(n, m).e.t, StillIn(ds, NetNext(n, m).e.t), l, View(NetNext(n, m).e.store, l),
                View(NetNext(n', m).e.store, l))
    {
      LinesAfter(n, n', m, ws, ks, ds, l);
    }
    FewerDiffer(StepOut(n.e, m).t, StepOut(n'.e, m).t, ks);
  }

  lemma FewerDiffer(t: Tables, t': Tables, ks: set<TxnID>)
    requires TablesAlike(t, t', ks)
    ensures TablesAlike(t, t', StillIn(ks, t))
  {
  }

  // ---------- extra beats ----------

  /** A beat for a snoop that has been answered with data before; the data may be the same or not. */
  ghost predicate Repeats(n: Net, m: Msg) {
    m.DataBeat? && m.txnId in n.e.t.snoopToOrig && m.txnId in n.e.t.counted
  }

  /** A beat under a dead id, with no write of its address waiting for data. */
  ghost predicate Late(n: Net, m: Msg) {
    m.DataBeat? && Dead(n.e.t, m.txnId) && forall k :: !AwaitsWriteOf(n.e.t, k, m.addr)
  }

  /** The line of the repeated snoop holds the target state and the beat's data already. */
  ghost predicate CarriesLine(n: Net, m: Msg)
    requires Repeats(n, m) && ValidStore(n.e.store) && n.e.t.snoopToOrig[m.txnId] in n.e.t.pending
  {
    var pt := n.e.t.pending[n.e.t.snoopToOrig[m.txnId]];
    var v := View(n.e.store, EntryLine(pt));
    v.Some? && v.value.state == pt.target && v.value.data == m.data
  }

  lemma RepeatStep(n: Net, m: Msg)
    requires Sound(n) && NetAdmits(n, m) && Repeats(n, m)
    ensures var out, t, k := StepOut(n.e, m), n.e.t, n.e.t.snoopToOrig[m.txnId];
            && k in t.pending && t.pending[k].state == WaitSnoopResp && SnoopsOf(t, k) <= n.wants
            && t.pending[k].target != I
            && LineFor(t, m) == Some(EntryLine(t.pending[k])) && out.actions == [] && m.txnId !in n.open
            && out.ops == [Fill(t.pending[k].target, m.data)]
            && out.t == t.(pending := t.pending[k := t.pending[k].(beats := t.pending[k].beats - 1)])
  {
    hide Consistent, View, ViewOps, Complete;
    var t, id := n.e.t, m.txnId;
    OwnerOf(t, n.open, n.wants, id);
    var k := t.snoopToOrig[id];
    CountdownIsExact(n, k);
    BarrierIsConsistent(t, n.open, n.wants);
    EntryTarget(t, k);
    var mine := SnoopsOf(t, k);
    assert id in mine && id in mine * n.wants && id in mine * t.counted;
    assert t.counted + {id} == t.counted;
  }

  lemma BeatIsWithin(e: Engine, m: Msg, ws: set<LineNo>)
    requires m.DataBeat?
    ensures Within(e, m, ws)
  {
  }

  lemma FillLands(v: Option<Line>, state: LineState, data: Data)
    requires state != I
    ensures ViewOps(v, [Fill(state, data)]) == Some(Line(state, data, SharersOf(v)))
  {
    hide ViewOps;
    ViewShort(v, Fill(state, data), Touch, Touch, Touch);
  }

  /** A repeated beat sends nothing, lowers only its own transaction's beat countdown, and leaves all lines alone but
      the transaction's own; that one it leaves alone exactly when the line holds the beat's data already. */
  lemma RepeatChangesLittle(n: Net, m: Msg, ws: set<LineNo>, l: LineNo)
    requires Sound(n) && Roomy(n.e, ws) && NetAdmits(n, m) && Repeats(n, m)
    ensures n.e.t.snoopToOrig[m.txnId] in n.e.t.pending && StepOut(n.e, m).actions == []
    ensures var t, k := n.e.t, n.e.t.snoopToOrig[m.txnId];
            Next(n.e, m).t == t.(pending := t.pending[k := t.pending[k].(beats := t.pending[k].beats - 1)])
    ensures var pt, v := n.e.t.pending[n.e.t.snoopToOrig[m.txnId]], View(n.e.store, l);
            if EntryLine(pt) != l then View(Next(n.e, m).store, l) == v
            else View(Next(n.e, m).store, l) == Some(Line(pt.target, m.data, SharersOf(v)))
                 && (View(Next(n.e, m).store, l) == v <==> CarriesLine(n, m))
  {
    hide Consistent, View, ViewOps, Step, ApplyOps, Roomy, Barrier, LineFor, MsgOk;
    RepeatStep(n, m);
    BeatIsWithin(n.e, m, ws);
    RoomyStepViews(n.e, m, ws, l);
    var pt := n.e.t.pending[n.e.t.snoopToOrig[m.txnId]];
    FillLands(View(n.e.store, l), pt.target, m.data);
  }

  /** The owner of a repeated snoop joins the transactions that may differ. */
  lemma OwnerAwaitsData(n: Net, n': Net, m: Msg, ks: set<TxnID>)
    requires Sound(n) && Sound(n') && TablesAlike(n.e.t, n'.e.t, ks) && n'.wants == n.wants
             && AwaitData(n.e.t, n.wants, ks)
    requires NetAdmits(n', m) && Repeats(n', m)
    ensures n'.e.t.snoopToOrig[m.txnId] in n.e.t.pending
    ensures AwaitData(n.e.t, n.wants, ks + {n'.e.t.snoopToOrig[m.txnId]})
    ensures TablesAlike(n.e.t, StepOut(n'.e, m).t, ks + {n'.e.t.snoopToOrig[m.txnId]})
  {
    hide Barrier, Step, View, LineFor;
    RepeatStep(n', m);
    assert forall k :: SnoopsOf(n'.e.t, k) == SnoopsOf(n.e.t, k);
  }

  lemma RepeatedLine(t: Tables, ds: set<TxnID>, k: TxnID, l: LineNo, v: Option<Line>, v': Option<Line>,
                     v'': Option<Line>, same: bool)
    requires k in t.pending && LineAlike(t, ds, l, v, v') && (EntryLine(t.pending[k]) == l ==> v.Some?)
    requires EntryLine(t.pending[k]) != l ==> v'' == v'
    requires EntryLine(t.pending[k]) == l ==> v''.Some? && v''.value.sharers == SharersOf(v') && (same ==> v'' == v')
    ensures LineAlike(t, if same then ds else ds + {k}, l, v, v'')
  {
    assert OnLine(t, ds, l) ==> OnLine(t, ds + {k}, l);
    if OnLine(t, ds + {k}, l) && EntryLine(t.pending[k]) != l {
      var j :| j in ds + {k} && j in t.pending && EntryLine(t.pending[j]) == l;
      assert j in ds && OnLine(t, ds, l);
    }
    if EntryLine(t.pending[k]) == l { assert OnLine(t, ds + {k}, l); }
  }

  /** A repeated beat in one of two alike states leaves them alike, with its transaction among those that differ. */
  lemma RepeatAlike(n: Net, n': Net, m: Msg, ws: set<LineNo>, ks: set<TxnID>, ds: set<TxnID>)
    requires Alike(n, n', ws, ks, ds) && NetAdmits(n', m) && Repeats(n', m)
    ensures StepOut(n'.e, m).actions == []
    ensures n'.e.t.snoopToOrig[m.txnId] in n'.e.t.pending
    ensures var k := n'.e.t.snoopToOrig[m.txnId];
            Alike(n, NetNext(n', m), ws, ks + {k}, if CarriesLine(n', m) then ds else ds + {k})
  {
    hide Consistent, View, ViewOps, Step, ApplyOps, Roomy, Barrier, LineFor, MsgOk, OneTxnPerLine, AwaitData,
         TablesAlike, LineAlike, Sent, SentWanting, AnsweredAsAsked, CarriesLine, Repeats;
    RepeatIsBeat(n', m);
    RepeatStep(n', m);
    NetNextKeepsSound(n', m);
    BeatIsWithin(n'.e, m, ws);
    NextKeepsRoomy(n'.e, m, ws);
    OwnerAwaitsData(n, n', m, ks);
    var k := n'.e.t.snoopToOrig[m.txnId];
    NothingSent(StepOut(n'.e, m).actions);
    assert n'.open - {m.txnId} + {} == n'.open && n'.wants + {} == n'.wants;
    SoundRoomy(n, ws);
    SoundRoomy(n', ws);
    forall l: LineNo
      ensures LineAlike(n.e.t, if CarriesLine(n', m) then ds else ds + {k}, l, View(n.e.store, l),
                View(NetNext(n', m).e.store, l))
    {
      RepeatChangesLittle(n', m, ws, l);
      OwnerLineResident(n, n', m, ws, ks, k);
      RepeatedLine(n.e.t, ds, k, l, View(n.e.store, l), View(n'.e.store, l), View(NetNext(n', m).e.store, l),
          CarriesLine(n', m));
    }
  }

  lemma RepeatIsBeat(n: Net, m: Msg)
    requires Repeats(n, m)
    ensures m.DataBeat? && AnswerId(m) == {m.txnId} && m.txnId in n.e.t.snoopToOrig
  {
  }

  lemma OwnerLineResident(n: Net, n': Net, m: Msg, ws: set<LineNo>, ks: set<TxnID>, k: TxnID)
    requires Roomy(n.e, ws) && AwaitData(n.e.t, n.wants, ks + {k}) && TablesAlike(n.e.t, n'.e.t, ks)
    ensures k in n.e.t.pending && k in n'.e.t.pending && n'.e.t.pending[k].req == n.e.t.pending[k].req
    ensures View(n.e.store, EntryLine(n.e.t.pending[k])).Some?
  {
    hide View, Fits, HoldsOnly, Consistent;
    assert k in ks + {k};
  }

  /** A late beat does nothing at all. */
  lemma LateIsNothing(n: Net, m: Msg)
    requires Sound(n) && NetAdmits(n, m) && Late(n, m)
    ensures NetNext(n, m) == n && StepOut(n.e, m).actions == []
  {
    hide Step, View, ApplyOps, Counts, Consistent, MsgOk, Sent, SentWanting;
    BarrierIsConsistent(n.e.t, n.open, n.wants);
    LateBeatIgnoredIff(n.e, m);
    OpenIsLive(n);
    NothingSent([]);
    assert n.open - {m.txnId} + {} == n.open && n.wants + {} == n.wants;
  }

  // ---------- runs with extra beats ----------

  /** A run with extra beats, `ns'`, beside the run without them, `ns`, which stands still where `extra` marks a
      beat as extra. An extra beat repeats an answered snoop or is late. */
  ghost predicate Beside(ns: seq<Net>, ns': seq<Net>, ms: seq<Msg>, extra: seq<bool>, ws: set<LineNo>) {
    && |ns| == |ns'| == |ms| + 1 && |extra| == |ms|
    && (forall i :: 0 <= i < |ms| ==> SideStep(ns[i], ns[i + 1], ns'[i], ns'[i + 1], ms[i], extra[i], ws))
  }

  ghost predicate SideStep(n: Net, next: Net, n': Net, next': Net, m: Msg, extra: bool, ws: set<LineNo>) {
    && (extra ==> next == n && NetAdmits(n', m) && (Repeats(n', m) || Late(n', m)))
    && (!extra ==> Steady(n, m, ws) && next == NetNext(n, m))
    && (NetAdmits(n', m) ==> next' == NetNext(n', m))
  }

  /** The transaction a beat repeats a snoop of, unless its line `holds` the beat's data already. */
  ghost function Owners(n: Net, m: Msg): set<TxnID> {
    if Repeats(n, m) then {n.e.t.snoopToOrig[m.txnId]} else {}
  }

  ghost function Displaces(n: Net, m: Msg): set<TxnID> {
    if Repeats(n, m) && ValidStore(n.e.store) && n.e.t.snoopToOrig[m.txnId] in n.e.t.pending && CarriesLine(n, m)
    then {}
    else Owners(n, m)
  }

  /** The transactions that have seen a repeated beat by step `i` and are still in flight. */
  ghost function Repeated(ns': seq<Net>, ms: seq<Msg>, extra: seq<bool>, i: nat): set<TxnID>
    requires i <= |ms| < |ns'| && |extra| == |ms|
  {
    if i == 0 then {}
    else if extra[i - 1] then Repeated(ns', ms, extra, i - 1) + Owners(ns'[i - 1], ms[i - 1])
    else StillIn(Repeated(ns', ms, extra, i - 1), ns'[i].e.t)
  }

  /** Those of them whose line a repeated beat has overwritten with other data. */
  ghost function Displaced(ns': seq<Net>, ms: seq<Msg>, extra: seq<bool>, i: nat): set<TxnID>
    requires i <= |ms| < |ns'| && |extra| == |ms|
  {
    if i == 0 then {}
    else if extra[i - 1] then Displaced(ns', ms, extra, i - 1) + Displaces(ns'[i - 1], ms[i - 1])
    else StillIn(Displaced(ns', ms, extra, i - 1), ns'[i].e.t)
  }

  lemma StillInAlike(n: Net, n': Net, ws: set<LineNo>, ks: set<TxnID>, ds: set<TxnID>, s: set<TxnID>)
    requires Alike(n, n', ws, ks, ds)
    ensures StillIn(s, n.e.t) == StillIn(s, n'.e.t)
  {
    hide Sound, Roomy, View, OneTxnPerLine, AwaitData, LineAlike;
  }

  lemma AlikeSelf(n: Net, ws: set<LineNo>)
    requires Sound(n) && Roomy(n.e, ws) && OneTxnPerLine(n.e.t)
    ensures Alike(n, n, ws, {}, {})
  {
    hide Sound, Roomy, View, OneTxnPerLine;
  }

  lemma ExtraAlike(n: Net, n': Net, m: Msg, ws: set<LineNo>, ks: set<TxnID>, ds: set<TxnID>)
    requires Alike(n, n', ws, ks, ds) && NetAdmits(n', m) && (Repeats(n', m) || Late(n', m))
    ensures Alike(n, NetNext(n', m), ws, ks + Owners(n', m), ds + Displaces(n', m)) && StepOut(n'.e, m).actions == []
  {
    hide Sound, Roomy, View, OneTxnPerLine, AwaitData, LineAlike, TablesAlike, NetAdmits, NetNext, StepOut, CarriesLine;
    if Repeats(n', m) {
      RepeatAlike(n, n', m, ws, ks, ds);
      SoundRoomy(n', ws);
      assert ds + {} == ds;
    } else {
      LateIsNothing(n', m);
      assert ks + {} == ks && ds + {} == ds;
    }
  }

  /** An extra beat causes no action; any other message causes the same actions in both runs. */
  ghost predicate Answers(n: Net, n': Net, m: Msg, extra: bool)
    requires NetAdmits(n', m)
  {
    if extra then StepOut(n'.e, m).actions == []
    else NetAdmits(n, m) && StepOut(n'.e, m).actions == StepOut(n.e, m).actions
  }

  /** One step of both runs. */
  lemma SideStepAlike(n: Net, next: Net, n': Net, next': Net, m: Msg, extra: bool, ws: set<LineNo>, ks: set<TxnID>,
                      ds: set<TxnID>)
    requires Alike(n, n', ws, ks, ds) && SideStep(n, next, n', next', m, extra, ws)
    ensures NetAdmits(n', m) && Answers(n, n', m, extra)
    ensures var ks1, ds1 := if extra then ks + Owners(n', m) else StillIn(ks, next'.e.t),
                            if extra then ds + Displaces(n', m) else StillIn(ds, next'.e.t);
            Alike(next, next', ws, ks1, ds1)
  {
    hide Alike, NetAdmits, NetNext, Within, StepOut, Repeats, Late, Owners, Displaces, StillIn, Steady;
    if extra {
      ExtraAlike(n, n', m, ws, ks, ds);
    } else {
      NextAlike(n, n', m, ws, ks, ds);
      SteadyAdmits(n, m, ws);
      StillInAlike(next, next', ws, StillIn(ks, next.e.t), StillIn(ds, next.e.t), ks);
      StillInAlike(next, next', ws, StillIn(ks, next.e.t), StillIn(ds, next.e.t), ds);
    }
  }

  lemma SteadyAdmits(n: Net, m: Msg, ws: set<LineNo>)
    requires Steady(n, m, ws)
    ensures NetAdmits(n, m)
  {
    hide NetAdmits, Within, LineFree;
  }

  lemma {:induction false} RunsStayAlike(ns: seq<Net>, ns': seq<Net>, ms: seq<Msg>, extra: seq<bool>, ws: set<LineNo>,
                                         i: nat)
    requires Beside(ns, ns', ms, extra, ws) && i <= |ms|
    requires ns'[0] == ns[0] && Sound(ns[0]) && Roomy(ns[0].e, ws) && OneTxnPerLine(ns[0].e.t)
    ensures Alike(ns[i], ns'[i], ws, Repeated(ns', ms, extra, i), Displaced(ns', ms, extra, i))
  {
    hide Alike, SideStep, Sound, Roomy, OneTxnPerLine, Owners, Displaces, StillIn;
    if i == 0 {
      AlikeSelf(ns[0], ws);
    } else {
      RunsStayAlike(ns, ns', ms, extra, ws, i - 1);
      SideStepAlike(ns[i - 1], ns[i], ns'[i - 1], ns'[i], ms[i - 1], extra[i - 1], ws,
        Repeated(ns', ms, extra, i - 1), Displaced(ns', ms, extra, i - 1));
    }
  }

  /** Extra beats are invisible. At every point of the run with extra beats: an extra beat sends nothing and any other
      message sends what it sends without them; the tables differ at most in the beat countdowns of transactions in
      flight that saw a repeated beat, so they are equal once these are answered; and every line is equal unless a
      repeated beat brought a waiting transaction's line data it did not hold. */
  lemma ExtraBeatsAreInvisible(ns: seq<Net>, ns': seq<Net>, ms: seq<Msg>, extra: seq<bool>, ws: set<LineNo>, i: nat)
    requires Beside(ns, ns', ms, extra, ws) && i <= |ms|
    requires ns'[0] == ns[0] && Sound(ns[0]) && Roomy(ns[0].e, ws) && OneTxnPerLine(ns[0].e.t)
    ensures i < |ms| ==> NetAdmits(ns'[i], ms[i]) && Answers(ns[i], ns'[i], ms[i], extra[i])
    ensures TablesAlike(ns[i].e.t, ns'[i].e.t, Repeated(ns', ms, extra, i))
    ensures Repeated(ns', ms, extra, i) <= ns[i].e.t.pending.Keys
    ensures Repeated(ns', ms, extra, i) == {} ==> ns'[i].e.t == ns[i].e.t
    ensures ValidStore(ns[i].e.store) && ValidStore(ns'[i].e.store)
    ensures forall l: LineNo :: !OnLine(ns[i].e.t, Displaced(ns', ms, extra, i), l) ==>
                                  View(ns'[i].e.store, l) == View(ns[i].e.store, l)
  {
    hide Alike, SideStep, Sound, Roomy, OneTxnPerLine, Owners, Displaces, StillIn, Repeated, Displaced, NetAdmits,
         View, OnLine;
    RunsStayAlike(ns, ns', ms, extra, ws, i);
    RepeatedAreInFlight(ns, ns', ms, extra, ws, i);
    AlikeMeans(ns[i], ns'[i], ws, Repeated(ns', ms, extra, i), Displaced(ns', ms, extra, i));
    if i < |ms| {
      SideStepAlike(ns[i], ns[i + 1], ns'[i], ns'[i + 1], ms[i], extra[i], ws,
        Repeated(ns', ms, extra, i), Displaced(ns', ms, extra, i));
    }
  }

  lemma AlikeMeans(n: Net, n': Net, ws: set<LineNo>, ks: set<TxnID>, ds: set<TxnID>)
    requires Alike(n, n', ws, ks, ds)
    ensures ValidStore(n.e.store) && ValidStore(n'.e.store) && TablesAlike(n.e.t, n'.e.t, ks)
    ensures ks == {} ==> n'.e.t == n.e.t
    ensures forall l: LineNo :: !OnLine(n.e.t, ds, l) ==> View(n'.e.store, l) == View(n.e.store, l)
  {
    hide Sound, View, OneTxnPerLine, OnLine, AwaitData;
    SoundRoomy(n, ws);
    SoundRoomy(n', ws);
    assert ks == {} ==> n'.e.t.pending == n.e.t.pending;
    forall l: LineNo | !OnLine(n.e.t, ds, l) ensures View(n'.e.store, l) == View(n.e.store, l) {
      assert LineAlike(n.e.t, ds, l, View(n.e.store, l), View(n'.e.store, l));
    }
  }

  /** A transaction that is no longer in flight is not among those that differ. */
  lemma {:induction false} RepeatedAreInFlight(ns: seq<Net>, ns': seq<Net>, ms: seq<Msg>, extra: seq<bool>,
                                               ws: set<LineNo>, i: nat)
    requires Beside(ns, ns', ms, extra, ws) && i <= |ms|
    requires ns'[0] == ns[0] && Sound(ns[0]) && Roomy(ns[0].e, ws) && OneTxnPerLine(ns[0].e.t)
    ensures forall k :: k in Repeated(ns', ms, extra, i) ==> k in ns'[i].e.t.pending && k in ns[i].e.t.pending
    ensures Displaced(ns', ms, extra, i) <= Repeated(ns', ms, extra, i)
  {
    hide SideStep, Sound, Roomy, OneTxnPerLine, Repeated, Displaced, View, OnLine, LineAlike, SnoopsOf;
    RunsStayAlike(ns, ns', ms, extra, ws, i);
  }

  // ---------- identical beats in a row ----------

  /** A data beat somebody waits for: for a snoop, or for a read of memory; no write waits for its address. */
  ghost predicate Expected(n: Net, m: Msg) {
    && m.DataBeat? && NetAdmits(n, m) && (forall k :: !AwaitsWriteOf(n.e.t, k, m.addr))
    && (m.txnId in n.e.t.snoopToOrig || (m.txnId in n.e.t.pending && n.e.t.pending[m.txnId].state == WaitMemData))
  }

  /** The transaction an expected beat is for. */
  function ForWhom(n: Net, m: Msg): TxnID
    requires m.DataBeat?
  {
    if m.txnId in n.e.t.snoopToOrig then n.e.t.snoopToOrig[m.txnId] else m.txnId
  }

  lemma ExpectedTarget(n: Net, m: Msg)
    requires Sound(n) && Expected(n, m)
    ensures Target(n.e.t, m) == Some(ForWhom(n, m)) && ForWhom(n, m) in n.e.t.pending && m.fb == None
  {
    hide Counts, ViewFor, Consistent;
    BarrierIsConsistent(n.e.t, n.open, n.wants);
    RoutingIsExact(n.e.t, m.txnId, m.fb);
    if m.txnId in n.e.t.snoopToOrig { OwnerOf(n.e.t, n.open, n.wants, m.txnId); }
  }

  lemma BeatStep(e: Engine, m: Msg, k: TxnID)
    requires Admits(e, m) && m.DataBeat? && m.txnId in e.t.snoopToOrig && k == e.t.snoopToOrig[m.txnId]
             && k in e.t.pending
    requires k in StepOut(e, m).t.pending
    ensures var out, pt := StepOut(e, m), e.t.pending[k];
            && LineFor(e.t, m) == Some(EntryLine(pt)) && out.ops == [Fill(pt.target, m.data)]
            && out.t.snoopToOrig == e.t.snoopToOrig && m.txnId in out.t.counted
            && out.t.pending[k].target == pt.target && out.t.pending[k].req == pt.req
  {
    hide View, ViewOps, ApplyView;
  }

  /** No delivery makes a write wait. */
  lemma DeliveryAddsNoWrites(t: Tables, v: Option<Line>, m: Msg, addr: Addr)
    requires Consistent(t) && MsgOk(t, v, m) && !m.Request? && forall k :: !AwaitsWriteOf(t, k, addr)
    ensures forall k :: !AwaitsWriteOf(Step(t, v, m).t, k, addr)
  {
    hide Step, Consistent, LineFor, ChangedKey, RequestOk;
    EntriesAfter(t, v, m);
    forall k ensures !AwaitsWriteOf(Step(t, v, m).t, k, addr) {
      if k in Step(t, v, m).t.pending {
        ChangedStays(t, v, m, k);
        assert AwaitsWriteOf(Step(t, v, m).t, k, addr) ==> AwaitsWriteOf(t, k, addr);
      }
    }
  }

  lemma ChangedStays(t: Tables, v: Option<Line>, m: Msg, k: TxnID)
    requires Consistent(t) && MsgOk(t, v, m) && !m.Request? && k in Step(t, v, m).t.pending
    ensures k in t.pending && Step(t, v, m).t.pending[k].state == t.pending[k].state
    ensures Step(t, v, m).t.pending[k].req == t.pending[k].req
  {
    hide Step, Consistent, LineFor, Target, RequestOk;
    EntriesAfter(t, v, m);
    StepChangesOneEntry(t, v, m);
    if k in t.pending { SnoopingStateStays(t, v, m, k); }
  }

  /** Transaction `k` has had this beat: another one repeats it, bringing what the line holds, or comes too late. */
  ghost predicate Spent(n: Net, m: Msg, k: TxnID) {
    && NetAdmits(n, m) && ValidStore(n.e.store) && m.DataBeat?
    && (k in n.e.t.pending ==> Repeats(n, m) && n.e.t.snoopToOrig[m.txnId] == k && CarriesLine(n, m))
    && (k !in n.e.t.pending ==> Late(n, m))
  }

  lemma AfterExpected(n: Net, m: Msg, ws: set<LineNo>)
    requires Sound(n) && Roomy(n.e, ws) && OneTxnPerLine(n.e.t) && Expected(n, m)
    ensures NetAdmits(n, m) && Sound(NetNext(n, m)) && Roomy(NetNext(n, m).e, ws) && OneTxnPerLine(NetNext(n, m).e.t)
    ensures Spent(NetNext(n, m), m, ForWhom(n, m))
  {
    hide Step, View, ApplyOps, Barrier, Roomy, Sent, SentWanting, Dead, RequestOk, ViewFor, LineFor, Target,
         Consistent, Counts, OneTxnPerLine;
    ExpectedTarget(n, m);
    NetNextKeepsSound(n, m);
    BeatIsWithin(n.e, m, ws);
    NextKeepsRoomy(n.e, m, ws);
    BarrierIsConsistent(n.e.t, n.open, n.wants);
    DeliveryAddsNoWrites(n.e.t, ViewFor(n.e, m), m, m.addr);
    OneTxnPerLineKept(n.e.t, ViewFor(n.e, m), m);
    var n1, k := NetNext(n, m), ForWhom(n, m);
    SoundRoomy(n1, ws);
    StillAsAsked(n, m);
    if k !in n1.e.t.pending {
      AnsweredIdsAreDead(n.e, m, k);
      assert m.txnId in n.e.t.snoopToOrig ==> m.txnId in SnoopsOf(n.e.t, k);
    } else {
      MemDataCloses(n, m);
      BeatStep(n.e, m, k);
      OwnerOf(n.e.t, n.open, n.wants, m.txnId);
      EntryTarget(n.e.t, k);
      RoomyStepViews(n.e, m, ws, EntryLine(n.e.t.pending[k]));
      FillLands(View(n.e.store, EntryLine(n.e.t.pending[k])), n.e.t.pending[k].target, m.data);
    }
  }

  lemma MemDataCloses(n: Net, m: Msg)
    requires Sound(n) && Expected(n, m) && ForWhom(n, m) in NetNext(n, m).e.t.pending
    ensures m.txnId in n.e.t.snoopToOrig
  {
    hide Counts, View, ViewOps, ApplyOps, Sent, SentWanting;
    RoutingIsExact(n.e.t, m.txnId, m.fb);
  }

  lemma StillAsAsked(n: Net, m: Msg)
    requires Sound(n) && Expected(n, m)
    ensures AnsweredAsAsked(NetNext(n, m), m)
  {
    hide Step, View, ApplyOps, Sent, SentWanting, RequestOk, ViewFor, Counts, Consistent;
    BarrierIsConsistent(n.e.t, n.open, n.wants);
    DeliveryAddsNoSnoops(n.e.t, ViewFor(n.e, m), m);
  }

  /** The transaction that may differ after repeated beats: the one they were for, while it waits. */
  function Waiter(n: Net, k: TxnID): set<TxnID> { if k in n.e.t.pending then {k} else {} }

  lemma SpentAlike(n: Net, m: Msg, ws: set<LineNo>, k: TxnID)
    requires Sound(n) && Roomy(n.e, ws) && OneTxnPerLine(n.e.t) && Spent(n, m, k)
    ensures Alike(n, n, ws, Waiter(n, k), {})
  {
    hide Barrier, View, Roomy, OneTxnPerLine, Step, MsgOk, LineFor;
    AlikeSelf(n, ws);
    if k in n.e.t.pending { RepeatStep(n, m); }
  }

  /** A spent beat can come again, and changes nothing that the first did not. */
  lemma SpentAgain(n: Net, n': Net, m: Msg, ws: set<LineNo>, k: TxnID)
    requires Spent(n, m, k) && Alike(n, n', ws, Waiter(n, k), {})
    ensures NetAdmits(n', m) && StepOut(n'.e, m).actions == [] && Alike(n, NetNext(n', m), ws, Waiter(n, k), {})
    ensures k !in n.e.t.pending ==> NetNext(n', m) == n'
  {
    hide Sound, View, NetNext, StepOut, Roomy, OneTxnPerLine, MsgOk, AnsweredAsAsked, AwaitData;
    BeatIsWithin(n.e, m, ws);
    AdmitsAlike(n, n', m, ws, Waiter(n, k), {});
    SoundRoomy(n', ws);
    if k in n.e.t.pending {
      RepeatAlike(n, n', m, ws, {k}, {});
      var l := EntryLine(n.e.t.pending[k]);
      assert LineAlike(n.e.t, {}, l, View(n.e.store, l), View(n'.e.store, l));
      assert CarriesLine(n', m);
      assert {k} + {k} == {k};
    } else {
      assert forall j :: AwaitsWriteOf(n'.e.t, j, m.addr) ==> AwaitsWriteOf(n.e.t, j, m.addr);
      LateIsNothing(n', m);
    }
  }

  /** The first of any number of identical beats does the work. Every further one is possible and sends nothing; all
      lines stay as the first left them, and so do the tables, but for the countdown of a transaction that still
      waits. */
  lemma {:induction false} IdenticalBeats(ns: seq<Net>, m: Msg, ws: set<LineNo>, j: nat)
    requires 1 <= j < |ns| && Sound(ns[0]) && Roomy(ns[0].e, ws) && OneTxnPerLine(ns[0].e.t) && Expected(ns[0], m)
    requires forall i :: 0 <= i < |ns| - 1 && NetAdmits(ns[i], m) ==> ns[i + 1] == NetNext(ns[i], m)
    ensures NetAdmits(ns[j], m) && StepOut(ns[j].e, m).actions == []
    ensures ForWhom(ns[0], m) !in ns[1].e.t.pending ==> ns[j] == ns[1]
    ensures TablesAlike(ns[1].e.t, ns[j].e.t, Waiter(ns[1], ForWhom(ns[0], m)))
    ensures ValidStore(ns[1].e.store) && ValidStore(ns[j].e.store)
            && forall l: LineNo :: View(ns[j].e.store, l) == View(ns[1].e.store, l)
  {
    hide Sound, Roomy, OneTxnPerLine, NetNext, StepOut, Alike, View, Spent, NetAdmits, ForWhom, Expected, Waiter;
    IdenticalStep(ns, m, ws, j);
    var k := ForWhom(ns[0], m);
    SpentAgain(ns[1], ns[j], m, ws, k);
    AlikeMeans(ns[1], ns[j], ws, Waiter(ns[1], k), {});
  }

  lemma {:induction false} IdenticalStep(ns: seq<Net>, m: Msg, ws: set<LineNo>, j: nat)
    requires 1 <= j < |ns| && Sound(ns[0]) && Roomy(ns[0].e, ws) && OneTxnPerLine(ns[0].e.t) && Expected(ns[0], m)
    requires forall i :: 0 <= i < |ns| - 1 && NetAdmits(ns[i], m) ==> ns[i + 1] == NetNext(ns[i], m)
    ensures m.DataBeat? && Spent(ns[1], m, ForWhom(ns[0], m))
            && Alike(ns[1], ns[j], ws, Waiter(ns[1], ForWhom(ns[0], m)), {})
    ensures ForWhom(ns[0], m) !in ns[1].e.t.pending ==> ns[j] == ns[1]
  {
    hide Sound, Roomy, OneTxnPerLine, NetNext, Alike, Spent, NetAdmits, Waiter, Admits;
    AfterExpected(ns[0], m, ws);
    assert ns[1] == NetNext(ns[0], m);
    var k := ForWhom(ns[0], m);
    if j == 1 {
      SpentAlike(ns[1], m, ws, k);
    } else {
      IdenticalStep(ns, m, ws, j - 1);
      SpentAgain(ns[1], ns[j - 1], m, ws, k);
    }
  }
}
