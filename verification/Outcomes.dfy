/** What each kind of transaction leaves in its line, and whom its messages address, stated per opcode and
    independently of the handlers. */
module Outcomes {
  import opened ChiTypes
  import opened CacheStore
  import opened EngineSpec
  import opened EngineTables
  import opened Directory

  // ---------- requests served at once ----------

  /** The line as a request that needs nobody else leaves it. */
  function ServedLineOf(line: Line, txn: Txn): Line {
    match txn.opcode
    case ReadOnce => line
    case ReadShared | ReadNoSnp =>
      Line(if line.state == UC then SC else if line.state == UD then SD else line.state, line.data,
           line.sharers + {txn.src})
    case CleanUnique => if Unique(line.state) then line.(state := UC) else Line(UC, line.data, {txn.src})
    case _ => Line(UD, line.data, {txn.src})
  }

  /** The answer to a request served at once. */
  function ServedAnswer(line: Line, txn: Txn): Action {
    if txn.opcode == CleanUnique then SendComp(txn.addr, txn.txnID, txn.src)
    else SendCompData(txn.addr, txn.txnID, txn.src, ServedLineOf(line, txn).state, Some(line.data))
  }

  ghost predicate LeavesServed(out: Out, t: Tables, line: Line, txn: Txn) {
    out.t == t && ViewOps(Some(line), out.ops) == Some(ServedLineOf(line, txn))
      && out.actions == [ServedAnswer(line, txn)]
  }

  lemma ServeSharedLine(t: Tables, line: Line, txn: Txn)
    requires line.state != I && txn.opcode in {ReadShared, ReadNoSnp}
    ensures LeavesServed(ServeShared(t, line, txn), t, line, txn)
  {
    hide ViewOps;
    ViewShort(Some(line), Touch, AddSharer(txn.src), SetLineState(SC), Touch);
    ViewShort(Some(line), Touch, AddSharer(txn.src), SetLineState(SD), Touch);
  }

  lemma ServeUniqueLine(t: Tables, line: Line, txn: Txn)
    requires line.state != I && txn.opcode in {ReadUnique, ReadNotSharedDirty}
    ensures LeavesServed(ServeUnique(t, line, txn), t, line, txn)
  {
    hide ViewOps;
    ViewShort(Some(line), Touch, SetLineState(UD), ClearSharers, AddSharer(txn.src));
    assert {} + {txn.src} == {txn.src};
  }

  lemma CleanUniqueLine(t: Tables, line: Line, txn: Txn)
    requires line.state !in {I, UD} && txn.opcode == CleanUnique && SnoopTargets(Some(line), txn) == {}
    ensures LeavesServed(HandleCleanUnique(t, Some(line), txn), t, line, txn)
  {
    hide ViewOps, Snoop;
    ViewShort(Some(line), Touch, ClearSharers, SetLineState(UC), AddSharer(txn.src));
    assert {} + {txn.src} == {txn.src};
  }

  /** A hit that needs no snoop (and no write to memory) is answered from the line it leaves behind. */
  lemma ServedLeaves(t: Tables, line: Line, txn: Txn)
    requires !IsWrite(txn.opcode) && txn.opcode != Other && SnoopTargets(Some(line), txn) == {} && line.state != I
    requires !(txn.opcode == CleanUnique && line.state == UD)
    ensures LeavesServed(RecvRequest(t, Some(line), txn), t, line, txn)
  {
    hide ViewOps, Snoop, ServeShared, ServeUnique, HandleCleanUnique;
    if txn.opcode in {ReadShared, ReadNoSnp} { ServeSharedLine(t, line, txn); }
    if txn.opcode in {ReadUnique, ReadNotSharedDirty} { ServeUniqueLine(t, line, txn); }
    if txn.opcode == CleanUnique { CleanUniqueLine(t, line, txn); }
    ViewShort(Some(line), Touch, Touch, Touch, Touch);
  }

  /** CleanUnique on a dirty unique line: its data goes to memory, the line becomes clean, the requester is answered. */
  lemma CleaningLeaves(t: Tables, line: Line, txn: Txn)
    requires txn.opcode == CleanUnique && line.state == UD
    ensures var out := RecvRequest(t, Some(line), txn);
            && ViewOps(Some(line), out.ops) == Some(line.(state := UC))
            && out.actions == [SendWriteNoSnp(txn.addr, t.nextMem, Some(line.data)),
                 SendComp(txn.addr, txn.txnID, txn.src)]
            && out.t.pending == t.pending[t.nextMem := PendingTxn(txn, WaitMemWriteAck, UC, 0, 0)]
  {
    hide ViewOps, Snoop;
    ViewShort(Some(line), Touch, SetLineState(UC), Touch, Touch);
  }

  // ---------- transactions that finish later ----------

  /** Whom a finished transaction leaves as sharers. */
  function FinalSharers(pt: PendingTxn): set<NodeID> { if pt.req.opcode == ReadOnce then {} else {pt.req.src} }

  /** The line as a transaction leaves it when its last snoop is answered: nobody but the requester is a sharer. */
  function FinalLine(pt: PendingTxn, data: Data): Line { Line(pt.target, data, FinalSharers(pt)) }

  function FinalAnswer(pt: PendingTxn, data: Data): Action {
    if pt.req.opcode == CleanUnique then SendComp(pt.req.addr, pt.req.txnID, pt.req.src)
    else SendCompData(pt.req.addr, pt.req.txnID, pt.req.src, pt.target, Some(data))
  }

  lemma CompletionLeaves(t: Tables, v: Option<Line>, k: TxnID)
    requires k in t.pending && v.Some? && v.value.state != I && t.pending[k].target != I
    ensures var out, pt := Complete(t, v, k), t.pending[k];
            && ViewOps(v, out.ops) == Some(FinalLine(pt, v.value.data))
            && out.actions == [FinalAnswer(pt, v.value.data)]
  {
    hide ViewOps;
    var pt := t.pending[k];
    ViewShort(v, ClearSharers, SetLineState(pt.target), AddSharer(pt.req.src), Touch);
    assert {} + {pt.req.src} == {pt.req.src};
  }

  /** Memory data is installed in the target state, keeps the sharers there are, and answers the requester. */
  lemma MemDataLeaves(t: Tables, v: Option<Line>, k: TxnID, data: Data)
    requires k in t.pending && t.pending[k].target != I
    ensures var out, pt := RecvMemData(t, v, k, data), t.pending[k];
            && ViewOps(v, out.ops) == Some(Line(pt.target, data, SharersOf(v) + FinalSharers(pt)))
            && out.actions == [FinalAnswer(pt, data)] && k !in out.t.pending
  {
    hide ViewOps;
    var pt := t.pending[k];
    ViewShort(v, Fill(pt.target, data), AddSharer(pt.req.src), Touch, Touch);
    assert SharersOf(v) + {} == SharersOf(v);
  }

  /** Write data makes the line dirty and its sender a sharer. */
  lemma WriteDataLeaves(t: Tables, v: Option<Line>, k: TxnID, data: Data)
    requires k in t.pending
    ensures var out, pt := RecvWriteData(t, k, data), t.pending[k];
            && ViewOps(v, out.ops) == Some(Line(UD, data, SharersOf(v) + {pt.req.src}))
            && out.actions == [] && k !in out.t.pending
  {
    hide ViewOps;
    ViewShort(v, Fill(UD, data), AddSharer(t.pending[k].req.src), Touch, Touch);
  }

  // ---------- addresses and destinations ----------

  /** The message concerns the requested address; answers go to the requester under its own id, snoops to others
      under snoop ids, memory traffic carries memory ids. */
  predicate Addressed(a: Action, req: Txn) {
    match a
    case SendReadNoSnp(addr, id) => addr == req.addr && id >= MEM_ID_BASE
    case SendWriteNoSnp(addr, id, _) => addr == req.addr && id >= MEM_ID_BASE
    case SendCompData(addr, id, dest, _, _) => addr == req.addr && id == req.txnID && dest == req.src
    case SendComp(addr, id, dest) => addr == req.addr && id == req.txnID && dest == req.src
    case SendCompDBIDResp(addr, id, dest) => addr == req.addr && id == req.txnID && dest == req.src
    case SendSnoop(_, addr, id, dest, _) => addr == req.addr && SNOOP_ID_BASE <= id < MEM_ID_BASE && dest != req.src
  }

  ghost predicate AllAddressed(actions: seq<Action>, req: Txn) {
    forall i :: 0 <= i < |actions| ==> Addressed(actions[i], req)
  }

  lemma SnoopsAddressed(t: Tables, line: Line, txn: Txn)
    requires Consistent(t) && t.nextSnoop + |SnoopTargets(Some(line), txn)| <= MEM_ID_BASE
    ensures AllAddressed(SnoopStep(t, line, txn).actions, txn)
  {
    hide SnoopStep, SnoopTargets, Ascending, SnoopKindFor, SnoopEntry, EntryOk, SnoopEntryOk, MemEntryOk;
    SnoopStepEffect(t, line, txn);
    var order := Ascending(SnoopTargets(Some(line), txn));
    forall i | 0 <= i < |order| ensures order[i] != txn.src {
      assert order[i] in order;
      TargetsAreOthers(Some(line), txn);
    }
  }

  lemma TargetsAreOthers(v: Option<Line>, txn: Txn)
    ensures txn.src !in SnoopTargets(v, txn)
  {
  }

  lemma RequestActionsAddressed(t: Tables, v: Option<Line>, txn: Txn)
    requires Consistent(t) && RequestOk(t, v, txn)
    ensures AllAddressed(RecvRequest(t, v, txn).actions, txn)
  {
    hide RecvRequest, SnoopStep, SnoopTargets, EntryOk, SnoopEntryOk, MemEntryOk;
    RequestShape(t, v, txn);
    if !IsWrite(txn.opcode) && SnoopTargets(v, txn) != {} {
      SnoopsAddressed(t, v.value, txn);
    } else if !IsWrite(txn.opcode) && v.Some? && txn.opcode != Other
      && !(txn.opcode == CleanUnique && v.value.state == UD) {
      ServedAddressed(t, v.value, txn);
    }
  }

  lemma ServedAddressed(t: Tables, line: Line, txn: Txn)
    requires !IsWrite(txn.opcode) && txn.opcode != Other && SnoopTargets(Some(line), txn) == {}
    requires !(txn.opcode == CleanUnique && line.state == UD)
    ensures AllAddressed(RecvRequest(t, Some(line), txn).actions, txn)
  {
    hide ViewOps, Snoop;
  }

  /** Every message the engine sends is about the address, and to the node, of the transaction it belongs to. */
  lemma ActionsAreAddressed(t: Tables, v: Option<Line>, m: Msg)
    requires Consistent(t) && MsgOk(t, v, m)
    ensures m.Request? ==> AllAddressed(Step(t, v, m).actions, m.txn)
    ensures !m.Request? && Target(t, m).Some? ==>
              Target(t, m).value in t.pending && AllAddressed(Step(t, v, m).actions, t.pending[Target(t, m).value].req)
    ensures !m.Request? && Target(t, m).None? ==> Step(t, v, m).actions == []
  {
    hide RecvRequest, ViewOps, ApplyView, EntryOk, MemEntryOk, RequestOk;
    if m.Request? { RequestActionsAddressed(t, v, m.txn); }
    assert forall k :: k in t.snoopToOrig ==> SnoopEntryOk(t, k);
  }
}
