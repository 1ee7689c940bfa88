/** Answers for two different transactions can be delivered in either order: the tables, every line and the answers
    to the requesters come out the same. */
module Diamond {
  import opened ChiTypes
  import opened CacheStore
  import opened EngineSpec
  import opened EngineTables
  import opened Directory
  import opened WorkingSet

  /** What one delivery does to the tables, as an edit that names only its own transaction `k`: its entry changes or
      goes, its snoops go, one snoop is marked as answered, or matching memory entries go. */
  datatype Edit = Edit(k: TxnID, entry: Option<PendingTxn>, dropSnoops: bool, mark: set<TxnID>, memValues: set<TxnID>,
                       memKeys: set<TxnID>)

  function OwnedBy(t: Tables, k: TxnID): set<TxnID> { set q | q in t.snoopToOrig && t.snoopToOrig[q] == k }

  function DropMem(m: map<TxnID, TxnID>, values: set<TxnID>, keys: set<TxnID>): map<TxnID, TxnID> {
    map q | q in m && m[q] !in values && q !in keys :: m[q]
  }

  function Edited(t: Tables, d: Edit): Tables {
    t.(pending := if d.entry.Some? then t.pending[d.k := d.entry.value] else t.pending - {d.k},
       snoopToOrig := if d.dropSnoops then t.snoopToOrig - OwnedBy(t, d.k) else t.snoopToOrig,
       counted := if d.dropSnoops then t.counted - OwnedBy(t, d.k) else t.counted + d.mark,
       memToOrig := DropMem(t.memToOrig, d.memValues, d.memKeys))
  }

  ghost predicate EditOk(t: Tables, d: Edit) {
    d.k in t.pending && (forall q <- d.mark :: q in t.snoopToOrig && t.snoopToOrig[q] == d.k)
  }

  /** Edits of different transactions commute. */
  lemma EditsCommute(t: Tables, a: Edit, b: Edit)
    requires EditOk(t, a) && EditOk(t, b) && a.k != b.k
    ensures Edited(Edited(t, a), b) == Edited(Edited(t, b), a)
  {
    hide DropMem;
    OwnedAfter(t, a, b.k);
    OwnedAfter(t, b, a.k);
    DropMemCommutes(t.memToOrig, a, b);
    var ab, ba := Edited(Edited(t, a), b), Edited(Edited(t, b), a);
    assert ab.pending == ba.pending;
    assert ab.snoopToOrig == ba.snoopToOrig;
    assert ab.counted == ba.counted;
  }

  lemma OwnedAfter(t: Tables, d: Edit, k: TxnID)
    requires d.k != k
    ensures OwnedBy(Edited(t, d), k) == OwnedBy(t, k)
  {
    hide DropMem;
  }

  lemma DropMemCommutes(m: map<TxnID, TxnID>, a: Edit, b: Edit)
    ensures DropMem(DropMem(m, a.memValues, a.memKeys), b.memValues, b.memKeys)
            == DropMem(DropMem(m, b.memValues, b.memKeys), a.memValues, a.memKeys)
  {
  }

  // ---------- deliveries are edits ----------

  predicate IsAnswer(m: Msg) { m.DataBeat? || m.Response? }

  /** The edit a delivery makes. */
  function EditOf(t: Tables, m: Msg): Edit
    requires IsAnswer(m) && Target(t, m).Some? && Target(t, m).value in t.pending
  {
    var k := Target(t, m).value;
    var pt := t.pending[k];
    if m.txnId in t.snoopToOrig then
      var pt' := if m.Response? then pt.(snoops := pt.snoops - 1)
                 else pt.(beats := pt.beats - 1, snoops := if m.txnId in t.counted then pt.snoops else pt.snoops - 1);
      if Finished(pt') then Edit(k, None, true, {}, {}, {})
      else Edit(k, Some(pt'), false, if m.DataBeat? then {m.txnId} else {}, {}, {})
    else if m.Response? then Edit(k, None, false, {}, {k}, {k})
    else if pt.state == WaitMemData then Edit(k, None, false, {}, {pt.req.txnID}, {})
    else Edit(k, None, false, {}, {}, {})
  }

  lemma SameTables(a: Tables, b: Tables)
    requires a.pending == b.pending && a.snoopToOrig == b.snoopToOrig && a.memToOrig == b.memToOrig
             && a.counted == b.counted
    requires a.nextSnoop == b.nextSnoop && a.nextMem == b.nextMem
    ensures a == b
  {
  }

  lemma CompleteIsEdit(t: Tables, t1: Tables, v: Option<Line>, k: TxnID)
    requires k in t.pending && k in t1.pending
             && t1 == t.(pending := t.pending[k := t1.pending[k]], counted := t1.counted)
    requires t1.counted - OwnedBy(t, k) == t.counted - OwnedBy(t, k)
    ensures Complete(t1, v, k).t == Edited(t, Edit(k, None, true, {}, {}, {}))
  {
    hide ViewOps;
    var x, y := Complete(t1, v, k).t, Edited(t, Edit(k, None, true, {}, {}, {}));
    assert x.pending == y.pending;
    assert x.snoopToOrig == y.snoopToOrig;
    assert x.counted == y.counted;
    assert x.memToOrig == y.memToOrig;
  }

  lemma SnoopAnswerIsEdit(t: Tables, v: Option<Line>, m: Msg)
    requires Consistent(t) && Deliverable(t, m) && IsAnswer(m) && m.txnId in t.snoopToOrig
             && t.snoopToOrig[m.txnId] in t.pending
    ensures Step(t, v, m).t == Edited(t, EditOf(t, m)) && EditOk(t, EditOf(t, m))
  {
    hide Complete, ViewOps, ApplyView, Edited, Consistent;
    var k := t.snoopToOrig[m.txnId];
    var pt := t.pending[k];
    assert m.txnId in OwnedBy(t, k);
    if m.Response? {
      var pt' := pt.(snoops := pt.snoops - 1);
      var t1 := t.(pending := t.pending[k := pt']);
      CompleteIsEdit(t, t1, v, k);
      EntryEdit(t, k, pt', {});
    } else {
      var pt' := pt.(beats := pt.beats - 1, snoops := if m.txnId in t.counted then pt.snoops else pt.snoops - 1);
      var t1 := t.(pending := t.pending[k := pt'], counted := t.counted + {m.txnId} - {m.txnId});
      CompleteIsEdit(t, t1, ApplyView(v, Fill(pt.target, m.data)), k);
      EntryEdit(t, k, pt', {m.txnId});
    }
  }

  lemma EntryEdit(t: Tables, k: TxnID, pt: PendingTxn, mark: set<TxnID>)
    ensures Edited(t, Edit(k, Some(pt), false, mark, {}, {}))
            == t.(pending := t.pending[k := pt], counted := t.counted + mark)
  {
    assert DropMem(t.memToOrig, {}, {}) == t.memToOrig;
  }

  lemma OtherAnswerIsEdit(t: Tables, v: Option<Line>, m: Msg)
    requires Consistent(t) && Deliverable(t, m) && IsAnswer(m) && m.txnId !in t.snoopToOrig && Target(t, m).Some?
    ensures Target(t, m).value in t.pending && Step(t, v, m).t == Edited(t, EditOf(t, m)) && EditOk(t, EditOf(t, m))
  {
    hide ViewOps, ApplyView, Consistent, RecvSnoopData, RecvSnoopResponse;
    if m.DataBeat? { RoutingIsExact(t, m.txnId, m.fb); }
    var k, x, y := Target(t, m).value, Step(t, v, m).t, Edited(t, EditOf(t, m));
    assert x.pending == y.pending;
    assert x.memToOrig == y.memToOrig;
    assert x.counted == y.counted;
    SameTables(x, y);
  }

  lemma AnswerIsEdit(t: Tables, v: Option<Line>, m: Msg)
    requires Consistent(t) && Deliverable(t, m) && IsAnswer(m) && Target(t, m).Some?
    ensures Target(t, m).value in t.pending && Step(t, v, m).t == Edited(t, EditOf(t, m)) && EditOk(t, EditOf(t, m))
  {
    hide Step, Edited, EditOf, EditOk, EntryOk, FallbackOk;
    if m.txnId in t.snoopToOrig {
      assert SnoopEntryOk(t, m.txnId);
      SnoopAnswerIsEdit(t, v, m);
    } else {
      OtherAnswerIsEdit(t, v, m);
    }
  }

  // ---------- a delivery after another one ----------

  /** The same message when it arrives in tables `t`: the address fallback makes its choice there. */
  ghost function Arriving(t: Tables, m: Msg): Msg {
    if m.DataBeat? then m.(fb := SomeFallback(t, m.addr)) else m
  }

  /** A changed entry keeps its request and its state. */
  ghost predicate KeepsRequest(t: Tables, d: Edit) {
    d.k in t.pending
      && (d.entry.Some? ==> d.entry.value.req == t.pending[d.k].req && d.entry.value.state == t.pending[d.k].state)
  }

  lemma AnswerKeepsRequest(t: Tables, m: Msg)
    requires IsAnswer(m) && Target(t, m).Some? && Target(t, m).value in t.pending
    ensures KeepsRequest(t, EditOf(t, m)) && EditOf(t, m).k == Target(t, m).value
  {
    hide DataRoute;
  }

  /** In tables with one transaction per line there is at most one write an address can fall back on. */
  lemma FallbackSurvives(t: Tables, d: Edit, addr: Addr, k: TxnID)
    requires OneTxnPerLine(t) && KeepsRequest(t, d) && AwaitsWriteOf(t, k, addr) && d.k != k
    ensures SomeFallback(Edited(t, d), addr) == Some(k)
  {
    hide OwnedBy, DropMem;
    var t1 := Edited(t, d);
    assert AwaitsWriteOf(t1, k, addr);
    var fb := SomeFallback(t1, addr);
    assert fb.Some?;
    assert t.pending[fb.value].req.addr == addr;
  }

  lemma RouteSurvives(t: Tables, m: Msg, d: Edit)
    requires Consistent(t) && OneTxnPerLine(t) && Deliverable(t, m) && IsAnswer(m) && Target(t, m).Some?
    requires EditOk(t, d) && KeepsRequest(t, d) && d.k != Target(t, m).value
    ensures var t1 := Edited(t, d);
            && Target(t1, Arriving(t1, m)) == Target(t, m) && Target(t, m).value in t.pending
            && Target(t, m).value in t1.pending
            && t1.pending[Target(t, m).value] == t.pending[Target(t, m).value]
            && (m.txnId in t1.snoopToOrig <==> m.txnId in t.snoopToOrig)
            && (m.txnId in t.snoopToOrig ==> (m.txnId in t1.counted <==> m.txnId in t.counted))
            && (m.DataBeat? ==> DataRoute(t1, m.txnId, SomeFallback(t1, m.addr)) == DataRoute(t, m.txnId, m.fb))
  {
    hide DropMem, EntryOk, MemEntryOk, Finished;
    var k := Target(t, m).value;
    assert m.txnId in t.snoopToOrig ==> SnoopEntryOk(t, m.txnId);
    if m.DataBeat? {
      RoutingIsExact(t, m.txnId, m.fb);
      if m.txnId !in t.snoopToOrig && m.txnId !in t.pending { FallbackSurvives(t, d, m.addr, k); }
    }
  }

  lemma EditSurvives(t: Tables, m: Msg, d: Edit)
    requires Consistent(t) && OneTxnPerLine(t) && Deliverable(t, m) && IsAnswer(m) && Target(t, m).Some?
    requires EditOk(t, d) && KeepsRequest(t, d) && d.k != Target(t, m).value
    ensures var t1 := Edited(t, d);
            && Target(t1, Arriving(t1, m)) == Target(t, m) && Target(t, m).value in t.pending
            && Target(t, m).value in t1.pending
            && EditOf(t1, Arriving(t1, m)) == EditOf(t, m)
  {
    hide Target, DataRoute, Edited, Consistent, OneTxnPerLine, FallbackOk, EditOk, KeepsRequest;
    RouteSurvives(t, m, d);
  }

  lemma OutputSurvives(t: Tables, v: Option<Line>, m: Msg, d: Edit)
    requires Consistent(t) && OneTxnPerLine(t) && Deliverable(t, m) && IsAnswer(m) && Target(t, m).Some?
    requires EditOk(t, d) && KeepsRequest(t, d) && d.k != Target(t, m).value
    ensures var t1 := Edited(t, d);
            && Step(t1, v, Arriving(t1, m)).ops == Step(t, v, m).ops
            && Step(t1, v, Arriving(t1, m)).actions == Step(t, v, m).actions
  {
    hide Edited, Consistent, OneTxnPerLine, FallbackOk, EditOk, KeepsRequest, ViewOps, ApplyView, DataRoute;
    RouteSurvives(t, m, d);
    RouteOwner(t, m);
    RouteOwner(Edited(t, d), Arriving(Edited(t, d), m));
  }

  lemma RouteOwner(t: Tables, m: Msg)
    ensures m.DataBeat? && m.txnId in t.snoopToOrig && t.snoopToOrig[m.txnId] in t.pending ==>
              DataRoute(t, m.txnId, m.fb) == SnoopData(t.snoopToOrig[m.txnId])
    ensures m.DataBeat? && m.txnId !in t.snoopToOrig ==> !DataRoute(t, m.txnId, m.fb).SnoopData?
  {
  }

  // ---------- the diamond ----------

  /** Two answers awaited by two different transactions. */
  ghost predicate TwoAnswers(e: Engine, m1: Msg, m2: Msg) {
    && Consistent(e.t) && OneTxnPerLine(e.t) && Admits(e, m1) && Admits(e, m2) && IsAnswer(m1) && IsAnswer(m2)
    && Target(e.t, m1).Some? && Target(e.t, m2).Some? && Target(e.t, m1) != Target(e.t, m2)
  }

  lemma ArrivingIsAdmitted(e: Engine, m: Msg)
    requires ValidStore(e.store) && IsAnswer(m)
    ensures Admits(e, Arriving(e.t, m))
  {
  }

  lemma LinesDiffer(e: Engine, m1: Msg, m2: Msg)
    requires TwoAnswers(e, m1, m2)
    ensures LineFor(e.t, m1).Some? && LineFor(e.t, m2).Some? && LineFor(e.t, m1) != LineFor(e.t, m2)
    ensures EditOk(e.t, EditOf(e.t, m1)) && KeepsRequest(e.t, EditOf(e.t, m1))
            && EditOf(e.t, m1).k == Target(e.t, m1).value
  {
    hide Consistent, Target, EditOk, KeepsRequest, EditOf, MsgOk;
    AnswerTarget(e, m1);
    AnswerTarget(e, m2);
    AnswerKeepsRequest(e.t, m1);
  }

  lemma AnswerTarget(e: Engine, m: Msg)
    requires Consistent(e.t) && Admits(e, m) && IsAnswer(m) && Target(e.t, m).Some?
    ensures Target(e.t, m).value in e.t.pending && EditOk(e.t, EditOf(e.t, m))
    ensures LineFor(e.t, m) == Some(EntryLine(e.t.pending[Target(e.t, m).value]))
    ensures StepOut(e, m).t == Edited(e.t, EditOf(e.t, m))
  {
    hide Consistent, Target, EditOk, EditOf, Step, Edited, FallbackOk;
    AnswerIsEdit(e.t, ViewFor(e, m), m);
  }

  /** The message does the same in `e1` as the original does in `e`, and edits the tables in the same way. */
  ghost predicate SameAnswer(e: Engine, m: Msg, e1: Engine, m1: Msg) {
    && Admits(e1, m1) && Admits(e, m) && LineFor(e1.t, m1) == LineFor(e.t, m)
    && StepOut(e1, m1).actions == StepOut(e, m).actions && StepOut(e1, m1).ops == StepOut(e, m).ops
    && IsAnswer(m) && IsAnswer(m1) && Target(e.t, m).Some? && Target(e1.t, m1) == Target(e.t, m)
    && Target(e.t, m).value in e.t.pending && Target(e.t, m).value in e1.t.pending
    && StepOut(e1, m1).t == Edited(e1.t, EditOf(e.t, m)) && EditOf(e1.t, m1) == EditOf(e.t, m)
  }

  /** The second answer finds what it would have found without the first, and does what it would have done. */
  lemma SecondAnswer(e: Engine, m1: Msg, m2: Msg, ws: set<LineNo>)
    requires TwoAnswers(e, m1, m2) && Roomy(e, ws)
    ensures Roomy(Next(e, m1), ws) && SameAnswer(e, m2, Next(e, m1), Arriving(Next(e, m1).t, m2))
  {
    hide Consistent, Target, EditOk, EditOf, Step, Edited, OneTxnPerLine, View, ApplyOps, KeepsRequest, Roomy,
         Arriving, MsgOk, ViewOps;
    AnswersAreWithin(e, m1, m2, ws);
    NextKeepsRoomy(e, m1, ws);
    LinesDiffer(e, m1, m2);
    AnswerTarget(e, m1);
    AnswerTarget(e, m2);
    var e1 := Next(e, m1);
    var m, d := Arriving(e1.t, m2), EditOf(e.t, m1);
    ArrivingIsAdmitted(e1, m2);
    AdmittedIsDeliverable(e, m2);
    EditSurvives(e.t, m2, d);
    ArrivingIsAnswer(e1.t, m2);
    RoomyIsConsistent(e1, ws);
    SameEntryAfter(e.t, m2, d);
    AnswerTarget(e1, m);
    RoomyStepViews(e, m1, ws, LineFor(e.t, m2).value);
    OutputSurvives(e.t, ViewFor(e, m2), m2, d);
  }

  lemma NextTables(e: Engine, m: Msg)
    requires Steppable(e, m)
    ensures Next(e, m).t == StepOut(e, m).t
  {
    hide Step, ApplyOps;
  }

  lemma AdmittedIsDeliverable(e: Engine, m: Msg)
    requires Admits(e, m)
    ensures Deliverable(e.t, m)
  {
  }

  lemma ArrivingIsAnswer(t: Tables, m: Msg)
    requires IsAnswer(m)
    ensures IsAnswer(Arriving(t, m))
  {
  }

  lemma RoomyIsConsistent(e: Engine, ws: set<LineNo>)
    requires Roomy(e, ws)
    ensures Consistent(e.t) && ValidStore(e.store)
  {
  }

  lemma SameEntryAfter(t: Tables, m: Msg, d: Edit)
    requires Consistent(t) && OneTxnPerLine(t) && Deliverable(t, m) && IsAnswer(m) && Target(t, m).Some?
    requires EditOk(t, d) && KeepsRequest(t, d) && d.k != Target(t, m).value
    ensures Target(t, m).value in t.pending && Target(t, m).value in Edited(t, d).pending
    ensures Edited(t, d).pending[Target(t, m).value] == t.pending[Target(t, m).value]
  {
    hide Target, Edited, Consistent, OneTxnPerLine, EditOk, KeepsRequest, FallbackOk;
    RouteSurvives(t, m, d);
  }

  lemma AnswersAreWithin(e: Engine, m1: Msg, m2: Msg, ws: set<LineNo>)
    requires TwoAnswers(e, m1, m2) && Roomy(e, ws)
    ensures ValidStore(e.store) && Within(e, m1, ws) && Within(e, m2, ws) && TwoAnswers(e, m2, m1)
  {
    hide Consistent, Target, OneTxnPerLine, MsgOk, Fits, HoldsOnly, View;
  }

  /** The lines after both answers, in terms of the state before either. */
  lemma LinesAfterBoth(e: Engine, m1: Msg, m2: Msg, ws: set<LineNo>, l: LineNo)
    requires TwoAnswers(e, m1, m2) && Roomy(e, ws) && SameAnswer(e, m2, Next(e, m1), Arriving(Next(e, m1).t, m2))
    ensures View(Next(Next(e, m1), Arriving(Next(e, m1).t, m2)).store, l) ==
            if LineFor(e.t, m1) == Some(l) then ViewOps(View(e.store, l), StepOut(e, m1).ops)
            else if LineFor(e.t, m2) == Some(l) then ViewOps(View(e.store, l), StepOut(e, m2).ops)
            else View(e.store, l)
  {
    hide Consistent, Target, Step, OneTxnPerLine, View, ApplyOps, Roomy, ViewOps, LineFor, MsgOk, Arriving;
    AnswersAreWithin(e, m1, m2, ws);
    SecondAnswer(e, m1, m2, ws);
    LinesDiffer(e, m1, m2);
    RoomyStepViews(e, m1, ws, l);
    var e1 := Next(e, m1);
    ArrivingIsAnswer(e1.t, m2);
    RoomyStepViews(e1, Arriving(e1.t, m2), ws, l);
  }

  /** The diamond: whichever answer comes first, both arrive, the tables are equal, every line has the same state,
      data and sharers, and each answer causes the same actions. Only ways and ranks may differ. */
  lemma AnswersCommute(e: Engine, m1: Msg, m2: Msg, ws: set<LineNo>)
    requires TwoAnswers(e, m1, m2) && Roomy(e, ws)
    ensures var e1, e2 := Next(e, m1), Next(e, m2);
            var n2, n1 := Arriving(e1.t, m2), Arriving(e2.t, m1);
            && Admits(e1, n2) && Admits(e2, n1)
            && Next(e1, n2).t == Next(e2, n1).t
            && (forall l: LineNo :: View(Next(e1, n2).store, l) == View(Next(e2, n1).store, l))
            && StepOut(e1, n2).actions == StepOut(e, m2).actions
            && StepOut(e2, n1).actions == StepOut(e, m1).actions
  {
    hide Consistent, Target, Step, OneTxnPerLine, View, Next, Roomy, ViewOps, LineFor, MsgOk, Arriving, Edited,
         EditOf, EditOk, KeepsRequest;
    AnswersAreWithin(e, m1, m2, ws);
    SecondAnswer(e, m1, m2, ws);
    SecondAnswer(e, m2, m1, ws);
    LinesDiffer(e, m1, m2);
    LinesDiffer(e, m2, m1);
    AnswerTarget(e, m1);
    AnswerTarget(e, m2);
    EditsCommute(e.t, EditOf(e.t, m1), EditOf(e.t, m2));
    var e1, e2 := Next(e, m1), Next(e, m2);
    NextTables(e, m1);
    NextTables(e, m2);
    NextTables(e1, Arriving(e1.t, m2));
    NextTables(e2, Arriving(e2.t, m1));
    forall l: LineNo
      ensures View(Next(e1, Arriving(e1.t, m2)).store, l) == View(Next(e2, Arriving(e2.t, m1)).store, l)
    {
      LinesAfterBoth(e, m1, m2, ws, l);
      LinesAfterBoth(e, m2, m1, ws, l);
    }
  }
}
