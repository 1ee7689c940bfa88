/** The directory invariant: outside a transaction, a line in a unique or dirty state has at most one sharer. */
module Directory {
  import opened ChiTypes
  import opened CacheStore
  import opened EngineSpec
  import opened EngineTables

  function EntryLine(pt: PendingTxn): LineNo { LineOf(pt.req.addr) }

  /** No transaction is in flight on this line. */
  ghost predicate LineFree(t: Tables, l: LineNo) { forall k :: k in t.pending ==> EntryLine(t.pending[k]) != l }

  ghost predicate OneTxnPerLine(t: Tables) {
    forall j, k :: j in t.pending && k in t.pending && EntryLine(t.pending[j]) == EntryLine(t.pending[k]) ==> j == k
  }

  function SharersOf(v: Option<Line>): set<NodeID> { match v case Some(line) => line.sharers case None => {} }

  ghost predicate AtMostOne(s: set<NodeID>) { forall x, y :: x in s && y in s ==> x == y }

  /** Only a shared clean line has several sharers. */
  ghost predicate LineOk(v: Option<Line>) { StateOf(v) in {UC, UD, SD} ==> AtMostOne(SharersOf(v)) }

  /** What is known about the line of an in-flight transaction. */
  ghost predicate EntryDir(pt: PendingTxn, v: Option<Line>) {
    match pt.state
    case WaitMemData => pt.target in {UC, UD} ==> v == None
    case WaitMemWriteAck => LineOk(v)
    case WaitL1Data => SharersOf(v) <= {pt.req.src}
    case WaitSnoopResp => true
  }

  ghost predicate LineInv(t: Tables, l: LineNo, v: Option<Line>) {
    && (LineFree(t, l) ==> LineOk(v))
    && (forall k :: k in t.pending && EntryLine(t.pending[k]) == l ==> EntryDir(t.pending[k], v))
  }

  ghost predicate DirectoryOk(e: Engine) {
    && ValidStore(e.store) && Consistent(e.t) && OneTxnPerLine(e.t)
    && forall l: LineNo :: LineInv(e.t, l, View(e.store, l))
  }

  /** At most one transaction per line at a time; a write comes only from the sole sharer, if there is any. */
  ghost predicate Orderly(t: Tables, v: Option<Line>, m: Msg) {
    m.Request? ==> LineFree(t, LineOf(m.txn.addr)) && (IsWrite(m.txn.opcode) ==> SharersOf(v) <= {m.txn.src})
  }

  // ---------- the line the message concerns ----------

  lemma RequestLine(t: Tables, v: Option<Line>, txn: Txn)
    requires LineOk(v) && (IsWrite(txn.opcode) ==> SharersOf(v) <= {txn.src})
    ensures var out, k := RecvRequest(t, v, txn), KeyUsed(t, v, txn);
            && (k.None? ==> LineOk(ViewOps(v, out.ops)))
            && (k.Some? && k.value in out.t.pending ==> EntryDir(out.t.pending[k.value], ViewOps(v, out.ops)))
  {
    hide RecvRequest, ViewOps, Snoop;
    RequestShape(t, v, txn);
    RequestOps(t, v, txn);
    ViewShort(v, Touch, Touch, Touch, Touch);
    if KeyUsed(t, v, txn).None? {
      ServedLine(t, v, txn);
    } else if !IsWrite(txn.opcode) && SnoopTargets(v, txn) != {} {
      SnoopEntryDir(t, v.value, txn, ViewOps(v, [Touch]));
    } else if v.Some? && txn.opcode == CleanUnique {
      ViewShort(v, Touch, SetLineState(UC), Touch, Touch);
    }
  }

  lemma SnoopEntryDir(t: Tables, line: Line, txn: Txn, v: Option<Line>)
    ensures txn.txnID in SnoopStep(t, line, txn).t.pending ==> EntryDir(SnoopStep(t, line, txn).t.pending[txn.txnID], v)
  {
    hide Ascending, SnoopTargets;
    IssueKeepsPending(t.(pending := t.pending[txn.txnID := SnoopEntry(line, txn)]), txn, SnoopKindFor(line, txn.opcode),
      Ascending(SnoopTargets(Some(line), txn)), Dirty(line.state));
  }

  lemma {:induction false} IssueKeepsPending(t: Tables, txn: Txn, kind: SnoopKind, order: seq<NodeID>, ret: bool)
    ensures IssueSnoops(t, txn, kind, order, ret).t.pending == t.pending
  {
    if order != [] { IssueKeepsPending(t, txn, kind, order[..|order| - 1], ret); }
  }

  lemma RequestOps(t: Tables, v: Option<Line>, txn: Txn)
    ensures var ops := RecvRequest(t, v, txn).ops;
            if IsWrite(txn.opcode) || txn.opcode == Other then ops == []
            else if SnoopTargets(v, txn) != {} || v.None? then ops == [Touch]
            else if txn.opcode == CleanUnique && v.value.state == UD then ops == [Touch, SetLineState(UC)]
            else true
  {
    hide ViewOps, IssueSnoops;
  }

  lemma ServedLine(t: Tables, v: Option<Line>, txn: Txn)
    requires KeyUsed(t, v, txn).None? && LineOk(v)
    ensures LineOk(ViewOps(v, RecvRequest(t, v, txn).ops))
  {
    hide ViewOps, Snoop;
    var src := txn.src;
    ViewShort(v, Touch, AddSharer(src), SetLineState(SC), Touch);
    ViewShort(v, Touch, AddSharer(src), SetLineState(SD), Touch);
    ViewShort(v, Touch, SetLineState(UD), ClearSharers, AddSharer(src));
    ViewShort(v, Touch, ClearSharers, SetLineState(UC), AddSharer(src));
  }

  lemma CompleteLine(t: Tables, v: Option<Line>, k: TxnID)
    requires k in t.pending
    ensures LineOk(ViewOps(v, Complete(t, v, k).ops))
  {
    hide ViewOps;
    var pt := t.pending[k];
    ViewShort(v, ClearSharers, SetLineState(pt.target), AddSharer(pt.req.src), Touch);
  }

  /** A delivery that finishes its transaction leaves the line in order. */
  lemma DeliveryLine(t: Tables, v: Option<Line>, m: Msg, k: TxnID)
    requires Consistent(t) && Deliverable(t, m) && Target(t, m) == Some(k) && k in t.pending
             && EntryDir(t.pending[k], v)
    ensures var out := Step(t, v, m);
            if k in out.t.pending then EntryDir(out.t.pending[k], ViewOps(v, out.ops)) else LineOk(ViewOps(v, out.ops))
  {
    hide Consistent, ViewOps, Complete, ApplyView;
    var pt := t.pending[k];
    if m.Response? {
      ResponseLine(t, v, m.txnId, k);
    } else {
      RoutingIsExact(t, m.txnId, m.fb);
      match DataRoute(t, m.txnId, m.fb)
      case SnoopData(_) => SnoopDataLine(t, v, k, m.txnId, m.data);
      case WriteBack(_) => WriteDataLine(v, pt, m.data);
      case MemData(_) =>
        TargetIsKnown(t, k);
        MemDataLine(v, pt, m.data);
    }
  }

  lemma TargetIsKnown(t: Tables, k: TxnID)
    requires Consistent(t) && k in t.pending && t.pending[k].state != WaitL1Data
    ensures t.pending[k].target == TargetState(t.pending[k].req.opcode)
  {
    assert EntryOk(t, k);
  }

  lemma ResponseLine(t: Tables, v: Option<Line>, id: TxnID, k: TxnID)
    requires Consistent(t) && Target(t, Response(id)) == Some(k) && k in t.pending && EntryDir(t.pending[k], v)
    ensures var out := RecvResponse(t, v, id);
            if k in out.t.pending then EntryDir(out.t.pending[k], ViewOps(v, out.ops)) else LineOk(ViewOps(v, out.ops))
  {
    hide Consistent, ViewOps;
    ViewShort(v, Touch, Touch, Touch, Touch);
    if id in t.snoopToOrig {
      assert t.pending[k].state == WaitSnoopResp by { RoutingIsExact(t, id, None); }
      CompleteLine(t.(pending := t.pending[k := t.pending[k].(snoops := t.pending[k].snoops - 1)]), v, k);
    }
  }

  lemma SnoopDataLine(t: Tables, v: Option<Line>, k: TxnID, id: TxnID, data: Data)
    requires k in t.pending && t.pending[k].state == WaitSnoopResp
    ensures var out := RecvSnoopData(t, v, k, id, data);
            if k in out.t.pending then EntryDir(out.t.pending[k], ViewOps(v, out.ops)) else LineOk(ViewOps(v, out.ops))
  {
    hide ViewOps;
    var pt := t.pending[k];
    var pt' := pt.(beats := pt.beats - 1, snoops := if id in t.counted then pt.snoops else pt.snoops - 1);
    var t' := t.(pending := t.pending[k := pt'], counted := t.counted + {id});
    var v' := ApplyView(v, Fill(pt.target, data));
    CompleteLine(t'.(counted := t'.counted - {id}), v', k);
    ViewFirst(v, Fill(pt.target, data), Complete(t'.(counted := t'.counted - {id}), v', k).ops);
  }

  lemma WriteDataLine(v: Option<Line>, pt: PendingTxn, data: Data)
    requires SharersOf(v) <= {pt.req.src}
    ensures LineOk(ViewOps(v, [Fill(UD, data), AddSharer(pt.req.src)]))
  {
    hide ViewOps;
    ViewShort(v, Fill(UD, data), AddSharer(pt.req.src), Touch, Touch);
  }

  lemma MemDataLine(v: Option<Line>, pt: PendingTxn, data: Data)
    requires pt.target in {UC, UD} ==> v == None
    requires pt.target in {SC, UC, UD}
    ensures LineOk(ViewOps(v, [Fill(pt.target, data), AddSharer(pt.req.src)]))
            && LineOk(ViewOps(v, [Fill(pt.target, data)]))
  {
    hide ViewOps;
    ViewShort(v, Fill(pt.target, data), AddSharer(pt.req.src), Touch, Touch);
  }

  // ---------- steps and runs ----------

  lemma FreeLineHasNoEntry(t: Tables, l: LineNo, k: TxnID)
    requires LineFree(t, l) && k in t.pending
    ensures EntryLine(t.pending[k]) != l
  {
  }

  /** Entries other than the changed one are carried over, and the changed one stays on the message's line. */
  lemma EntriesAfter(t: Tables, v: Option<Line>, m: Msg)
    requires Consistent(t) && MsgOk(t, v, m)
    ensures var p, c := Step(t, v, m).t.pending, ChangedKey(t, v, m);
            && (forall k :: Some(k) != c ==> (k in p <==> k in t.pending) && (k in p ==> p[k] == t.pending[k]))
            && (c.Some? && c.value in p ==> Some(EntryLine(p[c.value])) == LineFor(t, m))
            && (c.Some? && m.Request? ==> c.value !in t.pending && c.value in p)
            && (c.Some? && !m.Request? ==> c.value in t.pending && Some(EntryLine(t.pending[c.value])) == LineFor(t, m))
            && (c.None? ==> p == t.pending)
  {
    hide Consistent, RequestOk, Step, KeyUsed, DataRoute;
    StepChangesOneEntry(t, v, m);
    var p, c := Step(t, v, m).t.pending, ChangedKey(t, v, m);
    if c.Some? {
      forall k | k != c.value ensures (k in p <==> k in t.pending) && (k in p ==> p[k] == t.pending[k]) {
        assert k in p <==> k in p - {c.value};
        assert k in t.pending <==> k in t.pending - {c.value};
      }
    }
  }

  lemma OneTxnPerLineKept(t: Tables, v: Option<Line>, m: Msg)
    requires Consistent(t) && MsgOk(t, v, m) && OneTxnPerLine(t) && (m.Request? ==> LineFree(t, LineOf(m.txn.addr)))
    ensures OneTxnPerLine(Step(t, v, m).t)
  {
    hide Consistent, MsgOk, Step, KeyUsed, Target;
    EntriesAfter(t, v, m);
  }

  /** The line of the message satisfies its invariant again. */
  lemma OwnLineKept(t: Tables, v: Option<Line>, m: Msg, l: LineNo)
    requires Consistent(t) && MsgOk(t, v, m) && OneTxnPerLine(t) && LineInv(t, l, v) && Orderly(t, v, m)
    requires LineFor(t, m) == Some(l)
    ensures LineInv(Step(t, v, m).t, l, ViewOps(v, Step(t, v, m).ops))
  {
    hide Consistent, RecvRequest, ViewOps, EntryDir, LineOk, KeyUsed, RecvData, RecvResponse, DataRoute;
    EntriesAfter(t, v, m);
    match m
    case Request(txn) => RequestLine(t, v, txn);
    case Evict(_) => EvictedLine(t, v);
    case _ => DeliveryLine(t, v, m, Target(t, m).value);
  }

  lemma EvictedLine(t: Tables, v: Option<Line>)
    ensures ViewOps(v, [Invalidate]) == None && LineOk(None)
    ensures forall pt: PendingTxn :: EntryDir(pt, v) ==> EntryDir(pt, None)
  {
    ViewShort(v, Invalidate, Touch, Touch, Touch);
  }

  lemma OtherLineKept(t: Tables, v: Option<Line>, m: Msg, l: LineNo, before: Option<Line>, after: Option<Line>)
    requires Consistent(t) && MsgOk(t, v, m) && LineInv(t, l, before) && LineFor(t, m) != Some(l)
             && after in {before, None}
    ensures LineInv(Step(t, v, m).t, l, after)
  {
    hide Consistent, Step, KeyUsed, Target;
    EntriesAfter(t, v, m);
    EvictedLine(t, before);
    var t' := Step(t, v, m).t;
    forall k | k in t'.pending && EntryLine(t'.pending[k]) == l ensures EntryDir(t'.pending[k], after) {
      assert Some(k) != ChangedKey(t, v, m);
      assert EntryDir(t.pending[k], before);
    }
    if LineFree(t', l) {
      forall k | k in t.pending ensures EntryLine(t.pending[k]) != l {
        if Some(k) != ChangedKey(t, v, m) { assert k in t'.pending; }
      }
    }
  }

  /** One step from a state that satisfies the directory invariant leads to another. */
  lemma NextKeepsDirectory(e: Engine, m: Msg)
    requires DirectoryOk(e) && Admits(e, m) && Orderly(e.t, ViewFor(e, m), m)
    ensures DirectoryOk(Next(e, m))
  {
    hide Consistent, Step, MsgOk, View, LineInv, ApplyOps, OneTxnPerLine, Orderly, LineFor;
    NextKeepsConsistent(e, m);
    OrderlyMeans(e.t, ViewFor(e, m), m);
    OneTxnPerLineKept(e.t, ViewFor(e, m), m);
    var e' := Next(e, m);
    forall l: LineNo ensures LineInv(e'.t, l, View(e'.store, l)) {
      StepViews(e, m, l);
      if LineFor(e.t, m) == Some(l) {
        OwnLineKept(e.t, ViewFor(e, m), m, l);
      } else {
        OtherLineKept(e.t, ViewFor(e, m), m, l, View(e.store, l), View(e'.store, l));
      }
    }
  }

  lemma OrderlyMeans(t: Tables, v: Option<Line>, m: Msg)
    requires Orderly(t, v, m)
    ensures m.Request? ==> LineFree(t, LineOf(m.txn.addr))
  {
  }

  /** In every run with one transaction per line and orderly writes, every line with no transaction in flight has at
      most one sharer unless it is shared clean. Evictions, capacity victims and unexpected answers do not disturb
      this. */
  lemma {:induction false} RunKeepsDirectory(es: seq<Engine>, ms: seq<Msg>, i: nat)
    requires IsRun(es, ms) && DirectoryOk(es[0]) && i <= |ms|
    requires forall j :: 0 <= j < |ms| ==> Orderly(es[j].t, ViewFor(es[j], ms[j]), ms[j])
    ensures DirectoryOk(es[i])
    ensures forall l: LineNo :: LineFree(es[i].t, l) ==> LineOk(View(es[i].store, l))
  {
    hide Admits, LineOk, LineFree, View, Consistent, Next, OneTxnPerLine, Orderly;
    if i > 0 {
      RunKeepsDirectory(es, ms, i - 1);
      RunAt(es, ms, i - 1);
      NextKeepsDirectory(es[i - 1], ms[i - 1]);
    }
    FreeLinesOk(es[i]);
  }

  lemma FreeLinesOk(e: Engine)
    requires DirectoryOk(e)
    ensures forall l: LineNo :: LineFree(e.t, l) ==> LineOk(View(e.store, l))
  {
    hide Consistent, View, LineOk;
    assert forall l: LineNo :: LineInv(e.t, l, View(e.store, l));
  }

  lemma EmptyDirectoryOk(e: Engine)
    requires ValidStore(e.store) && e.t == INITIAL_TABLES && forall l: LineNo :: View(e.store, l) == None
    ensures DirectoryOk(e)
  {
  }

  /** The condition on writes is exact: absorbed write data leaves the line in order just when nobody but the writer
      was a sharer. */
  lemma WriteDataInOrderIff(t: Tables, v: Option<Line>, k: TxnID, data: Data)
    requires k in t.pending
    ensures LineOk(ViewOps(v, RecvWriteData(t, k, data).ops)) <==> SharersOf(v) <= {t.pending[k].req.src}
  {
    hide ViewOps;
    var src := t.pending[k].req.src;
    ViewShort(v, Fill(UD, data), AddSharer(src), Touch, Touch);
    var after := ViewOps(v, RecvWriteData(t, k, data).ops);
    assert SharersOf(after) == SharersOf(v) + {src} && StateOf(after) == UD;
    if LineOk(after) {
      forall x | x in SharersOf(v) ensures x == src { assert x in SharersOf(after) && src in SharersOf(after); }
    }
  }
}
