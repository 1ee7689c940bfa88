/** When the working set fits, nothing is lost: no fill ever replaces a line, the assertions against dirty victims
    hold, and every answer carries the line the cache really holds. */
module WorkingSet {
  import opened ChiTypes
  import opened CacheSets
  import opened CacheStore
  import opened EngineSpec
  import opened EngineTables
  import opened Directory

  /** The lines of `ws` that compete for set `i`. */
  ghost function Rivals(n: nat, ws: set<LineNo>, i: nat): set<LineNo>
    requires n >= 1
  {
    set l | l in ws && SetOf(n, l) == i
  }

  /** Per set, the working set has at most as many lines as there are ways. */
  ghost predicate Fits(st: Store, ws: set<LineNo>)
    requires ValidStore(st)
  {
    forall i :: 0 <= i < |st.sets| ==> |Rivals(|st.sets|, ws, i)| <= st.numWays
  }

  ghost predicate HoldsOnly(st: Store, ws: set<LineNo>)
    requires ValidStore(st)
  {
    forall l: LineNo :: View(st, l).Some? ==> l in ws
  }

  /** The lines held by the first `k` ways of a set. */
  ghost function LinesOfWays(st: Store, i: nat, k: nat): set<LineNo>
    requires ValidStore(st) && i < |st.sets| && k <= st.numWays
  {
    if k == 0 then {} else LinesOfWays(st, i, k - 1) + {LineAt(|st.sets|, st.sets[i].lines[k - 1].tag, i)}
  }

  /** One of the first `k` ways of the set carries the tag of line `x`. */
  ghost predicate HeldBelow(st: Store, i: nat, k: nat, x: LineNo)
    requires ValidStore(st) && i < |st.sets| && k <= st.numWays
  {
    exists w :: 0 <= w < k && st.sets[i].lines[w].tag == TagOf(|st.sets|, x)
  }

  /** The line in a valid way is viewed, belongs to this set and carries the way's tag. */
  lemma WayHoldsItsLine(st: Store, i: nat, w: nat)
    requires ValidStore(st) && i < |st.sets| && w < st.numWays && st.sets[i].lines[w].Valid()
    ensures var x := LineAt(|st.sets|, st.sets[i].lines[w].tag, i);
            View(st, x).Some? && SetOf(|st.sets|, x) == i && TagOf(|st.sets|, x) == st.sets[i].lines[w].tag
  {
    hide LineAt, TagOf, SetOf;
    TagSetOfLineAt(|st.sets|, st.sets[i].lines[w].tag, i);
    SetViewOf(st.sets[i], st.sets[i].lines[w].tag, w);
  }

  /** No earlier way holds the line of way `k - 1`, and being held below is monotone. */
  lemma NextWayIsNew(st: Store, i: nat, k: nat)
    requires ValidStore(st) && i < |st.sets| && 1 <= k <= st.numWays
    requires forall w :: 0 <= w < st.numWays ==> st.sets[i].lines[w].Valid()
    ensures var x := LineAt(|st.sets|, st.sets[i].lines[k - 1].tag, i);
            !HeldBelow(st, i, k - 1, x) && HeldBelow(st, i, k, x)
  {
    hide View, LineAt, TagOf, SetOf;
    WayHoldsItsLine(st, i, k - 1);
    assert ValidSet(st.sets[i], st.numWays);
  }

  lemma HeldStaysHeld(st: Store, i: nat, k: nat, x: LineNo)
    requires ValidStore(st) && i < |st.sets| && 1 <= k <= st.numWays && HeldBelow(st, i, k - 1, x)
    ensures HeldBelow(st, i, k, x)
  {
    hide View, TagOf;
  }

  /** In a full set every way holds a different line of the working set. */
  lemma {:induction false} FullSetHoldsDistinctLines(st: Store, ws: set<LineNo>, i: nat, k: nat)
    requires ValidStore(st) && HoldsOnly(st, ws) && i < |st.sets| && k <= st.numWays
    requires forall w :: 0 <= w < st.numWays ==> st.sets[i].lines[w].Valid()
    ensures |LinesOfWays(st, i, k)| == k && LinesOfWays(st, i, k) <= Rivals(|st.sets|, ws, i)
    ensures forall x <- LinesOfWays(st, i, k) :: View(st, x).Some? && HeldBelow(st, i, k, x)
  {
    hide View, HoldsOnly, LineAt, TagOf, SetOf, HeldBelow, UniqueTags, Ranked, Rivals;
    if k > 0 {
      FullSetHoldsDistinctLines(st, ws, i, k - 1);
      var y := LineAt(|st.sets|, st.sets[i].lines[k - 1].tag, i);
      WayHoldsItsLine(st, i, k - 1);
      NextWayIsNew(st, i, k);
      HeldLineIsRival(st, ws, i, y);
      forall x | x in LinesOfWays(st, i, k - 1) ensures HeldBelow(st, i, k, x) { HeldStaysHeld(st, i, k, x); }
    } else {
      assert LinesOfWays(st, i, 0) == {};
    }
  }

  lemma HeldLineIsRival(st: Store, ws: set<LineNo>, i: nat, x: LineNo)
    requires ValidStore(st) && HoldsOnly(st, ws) && i < |st.sets| && View(st, x).Some? && SetOf(|st.sets|, x) == i
    ensures x in Rivals(|st.sets|, ws, i)
  {
    hide View, SetOf;
  }

  /** Pigeonhole: an absent line of a fitting working set finds a free way. */
  lemma FreeWayForAbsentLine(st: Store, ws: set<LineNo>, l: LineNo)
    requires ValidStore(st) && Fits(st, ws) && HoldsOnly(st, ws) && l in ws && View(st, l) == None
    ensures FindFree(Home(st, l).lines) >= 0
  {
    hide View, HoldsOnly, LineAt, TagOf, SetOf, HeldBelow, UniqueTags, Ranked, LinesOfWays;
    var n := |st.sets|;
    var i := SetOf(n, l);
    if FindFree(st.sets[i].lines) < 0 {
      FullSetHoldsDistinctLines(st, ws, i, st.numWays);
      var held := LinesOfWays(st, i, st.numWays);
      assert l !in held;
      SubsetSize(held + {l}, Rivals(n, ws, i));
      assert false;
    }
  }

  lemma FittingFillDropsNothing(st: Store, ws: set<LineNo>, l: LineNo, ops: seq<Op>)
    requires ValidStore(st) && Fits(st, ws) && HoldsOnly(st, ws) && l in ws
    ensures DroppedBy(st, l, ops) == None && !Lookup(st, l).MissEvictDirty?
  {
    if View(st, l) == None {
      FreeWayForAbsentLine(st, ws, l);
    }
  }

  // ---------- the engine on a fitting working set ----------

  ghost predicate Roomy(e: Engine, ws: set<LineNo>) {
    && ValidStore(e.store) && Consistent(e.t) && Fits(e.store, ws) && HoldsOnly(e.store, ws)
    && (forall k :: k in e.t.pending ==> EntryLine(e.t.pending[k]) in ws)
    && (forall k :: k in e.t.pending && e.t.pending[k].state == WaitSnoopResp ==>
          View(e.store, EntryLine(e.t.pending[k])).Some?)
  }

  /** Only lines of the working set are requested, and no line with a transaction in flight is evicted. */
  ghost predicate Within(e: Engine, m: Msg, ws: set<LineNo>) {
    && (m.Request? ==> LineOf(m.txn.addr) in ws)
    && (m.Evict? ==> LineFree(e.t, LineOf(m.addr)))
  }

  lemma LineForInWorkingSet(e: Engine, m: Msg, ws: set<LineNo>)
    requires Roomy(e, ws) && Admits(e, m) && Within(e, m, ws) && !m.Evict? && LineFor(e.t, m).Some?
    ensures LineFor(e.t, m).value in ws
  {
    hide Consistent, Fits, HoldsOnly, View, MsgOk, Target;
  }

  /** Every step touches its own line only. */
  lemma RoomyStepViews(e: Engine, m: Msg, ws: set<LineNo>, other: LineNo)
    requires Roomy(e, ws) && Admits(e, m) && Within(e, m, ws)
    ensures View(Next(e, m).store, other) ==
            if LineFor(e.t, m) == Some(other) then ViewOps(View(e.store, other), StepOut(e, m).ops)
            else View(e.store, other)
    ensures !Aborts(e, m)
  {
    hide Step, View, ApplyOps, ViewOps, Consistent, Lookup, LineFor;
    StepFillsOnlyFirst(e.t, ViewFor(e, m), m);
    RequestLineIs(e.t, m);
    if LineFor(e.t, m).Some? {
      var l := LineFor(e.t, m).value;
      ApplyOpsRefineMap(e.store, l, StepOut(e, m).ops, other);
      if m.Evict? {
        EvictDropsNothing(e.store, l, m);
        assert StepOut(e, m).ops == [Invalidate] by { EvictOps(e.t, ViewFor(e, m), m); }
      } else {
        LineForInWorkingSet(e, m, ws);
        FittingFillDropsNothing(e.store, ws, l, StepOut(e, m).ops);
      }
    }
  }

  lemma RequestLineIs(t: Tables, m: Msg)
    ensures m.Request? ==> LineFor(t, m) == Some(LineOf(m.txn.addr))
  {
  }

  lemma EvictOps(t: Tables, v: Option<Line>, m: Msg)
    requires m.Evict?
    ensures Step(t, v, m).ops == [Invalidate]
  {
  }

  lemma EvictDropsNothing(st: Store, l: LineNo, m: Msg)
    requires ValidStore(st)
    ensures DroppedBy(st, l, [Invalidate]) == None
  {
  }

  // ---------- residency of the message's line ----------

  ghost predicate NoRemoval(ops: seq<Op>) {
    forall i :: 0 <= i < |ops| ==>
      ops[i] != Invalidate && (ops[i].SetLineState? ==> ops[i].state != I) && (ops[i].Fill? ==> ops[i].state != I)
  }

  lemma {:induction false} ResidentStays(v: Option<Line>, ops: seq<Op>)
    requires NoRemoval(ops) && (v.Some? ==> v.value.state != I)
    ensures v.Some? ==> ViewOps(v, ops).Some?
    ensures ViewOps(v, ops).Some? ==> ViewOps(v, ops).value.state != I
    decreases |ops|
  {
    if ops != [] { ResidentStays(ApplyView(v, ops[0]), ops[1..]); }
  }

  lemma StepRemovesNothing(t: Tables, v: Option<Line>, m: Msg)
    requires Consistent(t) && MsgOk(t, v, m) && !m.Evict?
    ensures NoRemoval(Step(t, v, m).ops)
  {
    hide ViewOps, ApplyView, Snoop, Consistent, RequestOk;
    if !m.Request? {
      if Target(t, m).Some? { TargetNotInvalid(t, m); }
    } else {
      RequestRemovesNothing(t, v, m.txn);
    }
  }

  lemma ServingRemovesNothing(t: Tables, line: Line, txn: Txn)
    ensures NoRemoval(ServeShared(t, line, txn).ops) && NoRemoval(ServeUnique(t, line, txn).ops)
    ensures NoRemoval(CleanDirtyLine(t, line, txn).ops)
    ensures NoRemoval([Touch, ClearSharers, SetLineState(UC), AddSharer(txn.src)])
    ensures NoRemoval([Touch]) && NoRemoval([])
  {
    hide ViewOps;
  }

  lemma RequestRemovesNothing(t: Tables, v: Option<Line>, txn: Txn)
    ensures NoRemoval(RecvRequest(t, v, txn).ops)
  {
    hide ViewOps, ServeShared, ServeUnique, CleanDirtyLine, NoRemoval, IssueSnoops, Ascending;
    if v.Some? {
      ServingRemovesNothing(t, v.value, txn);
    } else {
      ServingRemovesNothing(t, Line(SC, ZeroData(), {}), txn);
    }
  }

  lemma TargetNotInvalid(t: Tables, m: Msg)
    requires Consistent(t) && Deliverable(t, m) && Target(t, m).Some?
    ensures Target(t, m).value in t.pending
    ensures t.pending[Target(t, m).value].state in {WaitSnoopResp, WaitMemData} ==>
              t.pending[Target(t, m).value].target != I
    ensures DataRoute(t, if m.DataBeat? then m.txnId else 0, if m.DataBeat? then m.fb else None).MemData? && m.DataBeat?
            ==> t.pending[Target(t, m).value].state == WaitMemData
    ensures m.DataBeat? && DataRoute(t, m.txnId, m.fb).SnoopData? ==>
              t.pending[Target(t, m).value].state == WaitSnoopResp
    ensures m.Response? && m.txnId in t.snoopToOrig ==> t.pending[Target(t, m).value].state == WaitSnoopResp
  {
    var k := Target(t, m).value;
    if m.Response? { assert m.txnId in t.snoopToOrig ==> SnoopEntryOk(t, m.txnId); }
    if m.DataBeat? { RoutingIsExact(t, m.txnId, m.fb); }
    assert k in t.pending ==> EntryOk(t, k);
  }

  // ---------- what the answers say ----------

  /** An answer tells the state and the data of the line as it is now, and a write to memory carries its data. */
  predicate TellsLine(a: Action, v: Option<Line>) {
    && (a.SendCompData? ==> v.Some? && a.payload == Some(v.value.data) && a.respState == v.value.state)
    && (a.SendWriteNoSnp? ==> v.Some? && a.payload == Some(v.value.data))
  }

  ghost predicate AllTell(actions: seq<Action>, v: Option<Line>) {
    forall i :: 0 <= i < |actions| ==> TellsLine(actions[i], v)
  }

  lemma CompDataTells(txn: Txn, v: Option<Line>)
    requires v.Some?
    ensures AllTell([CompDataFor(txn, v)], v) && AllTell([CompFor(txn)], v)
  {
  }

  lemma ServeUniqueTells(t: Tables, line: Line, txn: Txn)
    requires line.state != I
    ensures AllTell(ServeUnique(t, line, txn).actions, ViewOps(Some(line), ServeUnique(t, line, txn).ops))
  {
    hide ViewOps;
    ViewShort(Some(line), Touch, SetLineState(UD), ClearSharers, AddSharer(txn.src));
  }

  lemma RequestTells(t: Tables, v: Option<Line>, txn: Txn)
    requires v.Some? ==> v.value.state != I
    requires t.nextSnoop + |SnoopTargets(v, txn)| < ID_LIMIT
    ensures AllTell(RecvRequest(t, v, txn).actions, ViewOps(v, RecvRequest(t, v, txn).ops))
  {
    hide RecvRequest, ViewOps, SnoopStep, SnoopTargets, Ascending, AllTell;
    RequestShape(t, v, txn);
    if IsWrite(txn.opcode) || v.None? || txn.opcode == Other {
      QuietRequestTells(t, v, txn);
    } else if SnoopTargets(v, txn) != {} {
      SnoopStepEffect(t, v.value, txn);
      SnoopsTell(SnoopStep(t, v.value, txn).actions, ViewOps(v, [Touch]));
    } else {
      ServedTells(t, v.value, txn);
    }
  }

  lemma SnoopsTell(actions: seq<Action>, v: Option<Line>)
    requires forall i :: 0 <= i < |actions| ==> actions[i].SendSnoop?
    ensures AllTell(actions, v)
  {
  }

  lemma QuietRequestTells(t: Tables, v: Option<Line>, txn: Txn)
    requires IsWrite(txn.opcode) || v.None? || txn.opcode == Other
    ensures AllTell(RecvRequest(t, v, txn).actions, ViewOps(v, RecvRequest(t, v, txn).ops))
  {
    hide ViewOps;
  }

  lemma ServedTells(t: Tables, line: Line, txn: Txn)
    requires !IsWrite(txn.opcode) && txn.opcode != Other && SnoopTargets(Some(line), txn) == {} && line.state != I
    ensures var out := RecvRequest(t, Some(line), txn); AllTell(out.actions, ViewOps(Some(line), out.ops))
  {
    hide ViewOps, ServeUnique, AllTell, Snoop;
    var out := RecvRequest(t, Some(line), txn);
    var v' := ViewOps(Some(line), out.ops);
    RequestRemovesNothing(t, Some(line), txn);
    ResidentStays(Some(line), out.ops);
    CompDataTells(txn, v');
    ServeUniqueTells(t, line, txn);
    ViewShort(Some(line), Touch, Touch, Touch, Touch);
    if txn.opcode == CleanUnique && line.state == UD {
      WriteBackTells(SendWriteNoSnp(txn.addr, t.nextMem, Payload(v')), CompFor(txn), v');
    }
  }

  lemma WriteBackTells(a: Action, b: Action, v: Option<Line>)
    requires a.SendWriteNoSnp? && a.payload == Payload(v) && v.Some? && b.SendComp?
    ensures AllTell([a, b], v)
  {
  }

  lemma CompleteTells(t: Tables, v: Option<Line>, k: TxnID)
    requires k in t.pending && v.Some? && v.value.state != I && t.pending[k].target != I
    ensures AllTell(Complete(t, v, k).actions, ViewOps(v, Complete(t, v, k).ops))
  {
    hide ViewOps, AllTell;
    var out := Complete(t, v, k);
    ResidentStays(v, out.ops);
    CompDataTells(t.pending[k].req, ViewOps(v, out.ops));
  }

  lemma MemDataTells(t: Tables, v: Option<Line>, k: TxnID, data: Data)
    requires k in t.pending && (v.Some? ==> v.value.state != I) && t.pending[k].target != I
    ensures AllTell(RecvMemData(t, v, k, data).actions, ViewOps(v, RecvMemData(t, v, k, data).ops))
  {
    hide ViewOps, AllTell;
    var pt := t.pending[k];
    var out := RecvMemData(t, v, k, data);
    ViewShort(v, Fill(pt.target, data), AddSharer(pt.req.src), Touch, Touch);
    CompDataTells(pt.req, ViewOps(v, out.ops));
  }

  lemma SnoopDataTells(t: Tables, v: Option<Line>, k: TxnID, id: TxnID, data: Data)
    requires k in t.pending && (v.Some? ==> v.value.state != I) && t.pending[k].target != I
    ensures AllTell(RecvSnoopData(t, v, k, id, data).actions, ViewOps(v, RecvSnoopData(t, v, k, id, data).ops))
  {
    hide ViewOps, AllTell, Complete;
    var pt := t.pending[k];
    var pt' := pt.(beats := pt.beats - 1, snoops := if id in t.counted then pt.snoops else pt.snoops - 1);
    var t' := t.(pending := t.pending[k := pt'], counted := t.counted + {id} - {id});
    var v' := ApplyView(v, Fill(pt.target, data));
    CompleteTells(t', v', k);
    ViewFirst(v, Fill(pt.target, data), Complete(t', v', k).ops);
    SnoopsTell([], ViewOps(v, [Fill(pt.target, data)]));
  }

  lemma StepTells(t: Tables, v: Option<Line>, m: Msg)
    requires Consistent(t) && MsgOk(t, v, m) && (v.Some? ==> v.value.state != I)
    requires (Target(t, m).Some? && Target(t, m).value in t.pending
              && t.pending[Target(t, m).value].state == WaitSnoopResp) ==> v.Some?
    ensures AllTell(Step(t, v, m).actions, ViewOps(v, Step(t, v, m).ops))
  {
    hide RecvRequest, ViewOps, AllTell, Consistent, Complete, RecvMemData, RecvSnoopData, ApplyView;
    SnoopsTell([], ViewOps(v, Step(t, v, m).ops));
    if m.Request? {
      RequestTells(t, v, m.txn);
    } else if Target(t, m).Some? {
      TargetNotInvalid(t, m);
      var k := Target(t, m).value;
      if m.DataBeat? {
        match DataRoute(t, m.txnId, m.fb)
        case SnoopData(_) => SnoopDataTells(t, v, k, m.txnId, m.data);
        case MemData(_) => MemDataTells(t, v, k, m.data);
        case _ =>
      } else if m.txnId in t.snoopToOrig {
        CompleteTells(t.(pending := t.pending[k := t.pending[k].(snoops := t.pending[k].snoops - 1)]), v, k);
      }
    }
  }

  // ---------- steps and runs ----------

  lemma ViewIsNormal(st: Store, l: LineNo)
    requires ValidStore(st)
    ensures View(st, l).Some? ==> View(st, l).value.state != I
  {
    assert Home(st, l) == st.sets[SetOf(|st.sets|, l)];
  }

  lemma ViewForIsNormal(e: Engine, m: Msg)
    requires ValidStore(e.store)
    ensures ViewFor(e, m).Some? ==> ViewFor(e, m).value.state != I
  {
    hide View, LineFor;
    if LineFor(e.t, m).Some? { ViewIsNormal(e.store, LineFor(e.t, m).value); }
  }

  lemma NewSnoopFindsItsLine(t: Tables, v: Option<Line>, m: Msg, k: TxnID)
    requires Consistent(t) && MsgOk(t, v, m) && m.Request? && ChangedKey(t, v, m) == Some(k)
    requires k in Step(t, v, m).t.pending && Step(t, v, m).t.pending[k].state == WaitSnoopResp
    ensures v.Some?
  {
    hide SnoopStep, RecvRequest, Consistent, RequestOk;
    RequestShape(t, v, m.txn);
  }

  lemma SnoopingStateStays(t: Tables, v: Option<Line>, m: Msg, k: TxnID)
    requires Consistent(t) && MsgOk(t, v, m) && !m.Request? && k in t.pending && k in Step(t, v, m).t.pending
    ensures Step(t, v, m).t.pending[k].state == t.pending[k].state
  {
    hide Consistent, ViewOps, ApplyView;
  }

  /** The line of the message stays resident when a snooping entry needs it, and stays inside the working set. */
  lemma OwnLineStays(e: Engine, m: Msg, ws: set<LineNo>, l: LineNo)
    requires Roomy(e, ws) && Admits(e, m) && Within(e, m, ws) && LineFor(e.t, m) == Some(l) && !m.Evict?
    ensures l in ws && (View(e.store, l).Some? ==> View(Next(e, m).store, l).Some?)
  {
    hide Step, View, ApplyOps, ViewOps, Consistent, LineFor, MsgOk, Fits, HoldsOnly;
    LineForInWorkingSet(e, m, ws);
    RoomyStepViews(e, m, ws, l);
    StepRemovesNothing(e.t, ViewFor(e, m), m);
    ViewIsNormal(e.store, l);
    ResidentStays(View(e.store, l), StepOut(e, m).ops);
  }

  lemma HoldsOnlyKept(e: Engine, m: Msg, ws: set<LineNo>)
    requires Roomy(e, ws) && Admits(e, m) && Within(e, m, ws)
    ensures HoldsOnly(Next(e, m).store, ws) && Fits(Next(e, m).store, ws)
  {
    hide Step, View, ApplyOps, ViewOps, Consistent, LineFor, MsgOk, Within, Next;
    forall l: LineNo | View(Next(e, m).store, l).Some? ensures l in ws {
      RoomyStepViews(e, m, ws, l);
      if LineFor(e.t, m) == Some(l) {
        if m.Evict? { EvictedViewIsNone(e, m, ws, l); } else { OwnLineStays(e, m, ws, l); }
      }
    }
  }

  lemma EvictedViewIsNone(e: Engine, m: Msg, ws: set<LineNo>, l: LineNo)
    requires Roomy(e, ws) && Admits(e, m) && Within(e, m, ws) && LineFor(e.t, m) == Some(l) && m.Evict?
    ensures View(Next(e, m).store, l) == None
  {
    hide Step, View, ApplyOps, ViewOps, Consistent, LineFor, MsgOk;
    RoomyStepViews(e, m, ws, l);
    EvictOps(e.t, ViewFor(e, m), m);
    EvictedLine(e.t, View(e.store, l));
  }

  /** The lines of all pending entries stay in the working set, and lines under snoop stay resident. */
  lemma EntryLinesKept(e: Engine, m: Msg, ws: set<LineNo>, k: TxnID)
    requires Roomy(e, ws) && Admits(e, m) && Within(e, m, ws) && k in Next(e, m).t.pending
    ensures var pt := Next(e, m).t.pending[k];
            EntryLine(pt) in ws && (pt.state == WaitSnoopResp ==> View(Next(e, m).store, EntryLine(pt)).Some?)
  {
    hide Step, View, ApplyOps, ViewOps, Consistent, LineFor, KeyUsed, Target, RequestOk, Fits, HoldsOnly;
    var v := ViewFor(e, m);
    EntriesAfter(e.t, v, m);
    var pt := Next(e, m).t.pending[k];
    var l := EntryLine(pt);
    RoomyStepViews(e, m, ws, l);
    if LineFor(e.t, m) == Some(l) && !m.Evict? { OwnLineStays(e, m, ws, l); }
    if Some(k) == ChangedKey(e.t, v, m) {
      ChangedEntryFindsItsLine(e, m, ws, k);
    } else if m.Evict? {
      RequestOrEvictLine(e.t, m);
      FreeLineHasNoEntry(e.t, LineOf(m.addr), k);
    }
  }

  lemma RequestOrEvictLine(t: Tables, m: Msg)
    ensures m.Evict? ==> LineFor(t, m) == Some(LineOf(m.addr)) && Target(t, m) == None
  {
  }

  lemma ChangedEntryFindsItsLine(e: Engine, m: Msg, ws: set<LineNo>, k: TxnID)
    requires Roomy(e, ws) && Admits(e, m) && Some(k) == ChangedKey(e.t, ViewFor(e, m), m)
             && k in StepOut(e, m).t.pending
    ensures !m.Evict? && LineFor(e.t, m) == Some(EntryLine(StepOut(e, m).t.pending[k]))
    ensures StepOut(e, m).t.pending[k].state == WaitSnoopResp ==>
              View(e.store, EntryLine(StepOut(e, m).t.pending[k])).Some?
  {
    hide Step, View, Consistent, KeyUsed, RequestOk, Fits, HoldsOnly, DataRoute;
    var v := ViewFor(e, m);
    EntriesAfter(e.t, v, m);
    if m.Request? {
      if StepOut(e, m).t.pending[k].state == WaitSnoopResp { NewSnoopFindsItsLine(e.t, v, m, k); }
    } else {
      SnoopingStateStays(e.t, v, m, k);
    }
  }

  lemma NextKeepsRoomy(e: Engine, m: Msg, ws: set<LineNo>)
    requires Roomy(e, ws) && Admits(e, m) && Within(e, m, ws)
    ensures Roomy(Next(e, m), ws)
  {
    hide View, Consistent, Next, MsgOk, Fits, HoldsOnly, Within;
    NextKeepsConsistent(e, m);
    HoldsOnlyKept(e, m, ws);
    forall k | k in Next(e, m).t.pending
      ensures var pt := Next(e, m).t.pending[k];
              EntryLine(pt) in ws && (pt.state == WaitSnoopResp ==> View(Next(e, m).store, EntryLine(pt)).Some?)
    {
      EntryLinesKept(e, m, ws, k);
    }
  }

  /** What a step of a fitting working set guarantees: no assertion fires, no other line is touched, and every answer
      tells the state and data of its line as the cache holds it from then on. */
  ghost predicate LosesNothing(e: Engine, m: Msg)
    requires Admits(e, m)
  {
    && !Aborts(e, m)
    && (forall l: LineNo :: LineFor(e.t, m) != Some(l) ==> View(Next(e, m).store, l) == View(e.store, l))
    && (LineFor(e.t, m).Some? ==> AllTell(StepOut(e, m).actions, View(Next(e, m).store, LineFor(e.t, m).value)))
    && (LineFor(e.t, m).None? ==> StepOut(e, m).actions == [])
  }

  lemma NoTargetNoActions(t: Tables, v: Option<Line>, m: Msg)
    requires Consistent(t) && MsgOk(t, v, m) && LineFor(t, m).None?
    ensures Step(t, v, m).actions == []
  {
    hide ViewOps, ApplyView, Consistent;
    if Target(t, m).Some? { TargetNotInvalid(t, m); }
  }

  lemma StepLosesNothing(e: Engine, m: Msg, ws: set<LineNo>)
    requires Roomy(e, ws) && Admits(e, m) && Within(e, m, ws)
    ensures LosesNothing(e, m)
  {
    hide View, Consistent, Next, Step, MsgOk, Fits, HoldsOnly, Within, LineFor, AllTell, ViewOps, Aborts;
    forall l: LineNo { RoomyStepViews(e, m, ws, l); }
    RoomyStepViews(e, m, ws, 0);
    if LineFor(e.t, m).Some? {
      ViewForIsNormal(e, m);
      SnoopedTargetIsResident(e, m, ws);
      StepTells(e.t, ViewFor(e, m), m);
      RoomyStepViews(e, m, ws, LineFor(e.t, m).value);
    } else {
      NoTargetNoActions(e.t, ViewFor(e, m), m);
    }
  }

  lemma SnoopedTargetIsResident(e: Engine, m: Msg, ws: set<LineNo>)
    requires Roomy(e, ws)
    ensures Target(e.t, m).Some? && Target(e.t, m).value in e.t.pending
            && e.t.pending[Target(e.t, m).value].state == WaitSnoopResp
            ==> ViewFor(e, m).Some?
  {
    hide View, Consistent, Fits, HoldsOnly, DataRoute;
  }

  /** Over any run whose lines fit, from an empty cache or any other roomy state, nothing is ever lost. */
  lemma {:induction false} RunLosesNothing(es: seq<Engine>, ms: seq<Msg>, ws: set<LineNo>, i: nat)
    requires IsRun(es, ms) && Roomy(es[0], ws) && i <= |ms|
    requires forall j :: 0 <= j < |ms| ==> Within(es[j], ms[j], ws)
    ensures Roomy(es[i], ws)
    ensures i < |ms| ==> LosesNothing(es[i], ms[i])
  {
    hide Roomy, Next, Admits, Within, LosesNothing;
    if i > 0 {
      RunLosesNothing(es, ms, ws, i - 1);
      RunAt(es, ms, i - 1);
      NextKeepsRoomy(es[i - 1], ms[i - 1], ws);
    }
    if i < |ms| {
      RunAt(es, ms, i);
      StepLosesNothing(es[i], ms[i], ws);
    }
  }

  lemma EmptyIsRoomy(e: Engine, ws: set<LineNo>)
    requires ValidStore(e.store) && e.t == INITIAL_TABLES && Fits(e.store, ws)
             && forall l: LineNo :: View(e.store, l) == None
    ensures Roomy(e, ws)
  {
    hide View, Fits;
  }
}
