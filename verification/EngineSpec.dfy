/** The protocol engine as a state machine on values: what one message does to the tables, to the one line
    it concerns, and which actions it returns. */
module EngineSpec {
  import opened ChiTypes
  import opened CacheStore

  datatype SnoopKind = SnpCleanInvalid | SnpUnique | SnpNotSharedDirty | SnpOnce

  /** An instruction to the surroundings. A payload of None is a copy from a null line pointer. */
  datatype Action =
    | SendReadNoSnp(addr: Addr, txnId: TxnID)
    | SendWriteNoSnp(addr: Addr, txnId: TxnID, payload: Option<Data>)
    | SendCompData(addr: Addr, txnId: TxnID, dest: NodeID, respState: LineState, payload: Option<Data>)
    | SendComp(addr: Addr, txnId: TxnID, dest: NodeID)
    | SendCompDBIDResp(addr: Addr, txnId: TxnID, dest: NodeID)
    | SendSnoop(kind: SnoopKind, addr: Addr, txnId: TxnID, dest: NodeID, retToSrc: bool)

  datatype PendingState = WaitMemData | WaitMemWriteAck | WaitSnoopResp | WaitL1Data

  /** `snoops` and `beats` are the two countdowns; repeated data beats can drive `beats` below zero.
      Write transactions never read `target`, which the source leaves unset. */
  datatype PendingTxn = PendingTxn(req: Txn, state: PendingState, target: LineState, snoops: int, beats: int)

  datatype Tables = Tables(
    pending: map<TxnID, PendingTxn>,
    snoopToOrig: map<TxnID, TxnID>,
    memToOrig: map<TxnID, TxnID>,
    counted: set<TxnID>,
    nextSnoop: TxnID,
    nextMem: TxnID)

  const INITIAL_TABLES := Tables(map[], map[], map[], {}, SNOOP_ID_BASE, MEM_ID_BASE)

  /** The result of a step: new tables, operations on the line concerned, actions. */
  datatype Out = Out(t: Tables, ops: seq<Op>, actions: seq<Action>)

  function StateOf(v: Option<Line>): LineState { if v.Some? then v.value.state else I }

  function Payload(v: Option<Line>): Option<Data> { if v.Some? then Some(v.value.data) else None }

  function CompDataFor(txn: Txn, v: Option<Line>): Action {
    SendCompData(txn.addr, txn.txnID, txn.src, StateOf(v), Payload(v))
  }

  function CompFor(txn: Txn): Action { SendComp(txn.addr, txn.txnID, txn.src) }

  // ---------- requests ----------

  function AwaitMemory(t: Tables, txn: Txn, state: PendingState, target: LineState): Tables {
    t.(pending := t.pending[t.nextMem := PendingTxn(txn, state, target, 0, 0)],
       memToOrig := t.memToOrig[t.nextMem := txn.txnID],
       nextMem := NextId(t.nextMem))
  }

  function Fetch(t: Tables, txn: Txn, target: LineState, ops: seq<Op>): Out {
    Out(AwaitMemory(t, txn, WaitMemData, target), ops, [SendReadNoSnp(txn.addr, t.nextMem)])
  }

  datatype Issued = Issued(t: Tables, actions: seq<Action>)

  /** One snoop per node of `order`, each under the next snoop id. */
  function IssueSnoops(t: Tables, txn: Txn, kind: SnoopKind, order: seq<NodeID>, ret: bool): Issued {
    if order == [] then Issued(t, [])
    else
      var done := IssueSnoops(t, txn, kind, order[..|order| - 1], ret);
      Issued(
        done.t.(snoopToOrig := done.t.snoopToOrig[done.t.nextSnoop := txn.txnID],
                nextSnoop := NextId(done.t.nextSnoop)),
        done.actions + [SendSnoop(kind, txn.addr, done.t.nextSnoop, order[|order| - 1], ret)])
  }

  function Snoop(t: Tables, txn: Txn, target: LineState, kind: SnoopKind, others: set<NodeID>, ret: bool): Out {
    var n := |others|;
    var entry := PendingTxn(txn, WaitSnoopResp, target, n, if ret then n else 0);
    var waiting := t.(pending := t.pending[txn.txnID := entry]);
    var issued := IssueSnoops(waiting, txn, kind, Ascending(others), ret);
    Out(issued.t, [Touch], issued.actions)
  }

  function ServeShared(t: Tables, line: Line, txn: Txn): Out {
    var ops := if line.state == UC then [Touch, AddSharer(txn.src), SetLineState(SC)]
               else if line.state == UD then [Touch, AddSharer(txn.src), SetLineState(SD)]
               else [Touch, AddSharer(txn.src)];
    Out(t, ops, [CompDataFor(txn, ViewOps(Some(line), ops))])
  }

  function HandleReadShared(t: Tables, v: Option<Line>, txn: Txn): Out {
    match v
    case None => Fetch(t, txn, SC, [Touch])
    case Some(line) =>
      var others := line.sharers - {txn.src};
      if Dirty(line.state) && others != {} then Snoop(t, txn, SC, SnpCleanInvalid, others, true)
      else ServeShared(t, line, txn)
  }

  function ServeUnique(t: Tables, line: Line, txn: Txn): Out {
    var ops := [Touch, SetLineState(UD), ClearSharers, AddSharer(txn.src)];
    Out(t, ops, [SendCompData(txn.addr, txn.txnID, txn.src, UD, Payload(ViewOps(Some(line), ops)))])
  }

  /** ReadUnique and ReadNotSharedDirty are handled alike. */
  function HandleReadUnique(t: Tables, v: Option<Line>, txn: Txn): Out {
    match v
    case None => Fetch(t, txn, UD, [Touch])
    case Some(line) =>
      var others := line.sharers - {txn.src};
      if others == {} then ServeUnique(t, line, txn)
      else Snoop(t, txn, UD, SnpUnique, others, Dirty(line.state))
  }

  function HandleReadOnce(t: Tables, v: Option<Line>, txn: Txn): Out {
    match v
    case None => Fetch(t, txn, SC, [Touch])
    case Some(line) =>
      var others := line.sharers - {txn.src};
      if Dirty(line.state) && others != {} then Snoop(t, txn, SC, SnpOnce, others, true)
      else Out(t, [Touch], [CompDataFor(txn, v)])
  }

  function CleanDirtyLine(t: Tables, line: Line, txn: Txn): Out {
    var ops := [Touch, SetLineState(UC)];
    Out(AwaitMemory(t, txn, WaitMemWriteAck, UC), ops,
        [SendWriteNoSnp(txn.addr, t.nextMem, Payload(ViewOps(Some(line), ops))), CompFor(txn)])
  }

  function HandleCleanUnique(t: Tables, v: Option<Line>, txn: Txn): Out {
    match v
    case None => Fetch(t, txn, UC, [Touch])
    case Some(line) =>
      var others := line.sharers - {txn.src};
      if line.state == UC then Out(t, [Touch], [CompFor(txn)])
      else if line.state == UD then CleanDirtyLine(t, line, txn)
      else if others == {} then
        Out(t, [Touch, ClearSharers, SetLineState(UC), AddSharer(txn.src)], [CompFor(txn)])
      else
        Snoop(t, txn, UC, if line.state == SD then SnpNotSharedDirty else SnpCleanInvalid, others, line.state == SD)
  }

  /** The write-class requests park themselves until their data arrives; WriteNoSnp is not even acknowledged. */
  function HandleWrite(t: Tables, txn: Txn): Out {
    Out(t.(pending := t.pending[txn.txnID := PendingTxn(txn, WaitL1Data, I, 0, 0)]), [],
        if txn.opcode == WriteNoSnp then [] else [SendCompDBIDResp(txn.addr, txn.txnID, txn.src)])
  }

  predicate IsWrite(op: Opcode) { op in {WriteBackFull, WriteUniqueFull, WriteEvictFull, WriteNoSnp} }

  function RecvRequest(t: Tables, v: Option<Line>, txn: Txn): Out {
    match txn.opcode
    case ReadShared | ReadNoSnp => HandleReadShared(t, v, txn)
    case ReadUnique | ReadNotSharedDirty => HandleReadUnique(t, v, txn)
    case CleanUnique => HandleCleanUnique(t, v, txn)
    case ReadOnce => HandleReadOnce(t, v, txn)
    case WriteBackFull | WriteUniqueFull | WriteEvictFull | WriteNoSnp => HandleWrite(t, txn)
    case Other => Fetch(t, txn, SC, [])
  }

  // ---------- data and responses ----------

  /** Which pending transaction a data message belongs to. */
  datatype Route = NoRoute | SnoopData(key: TxnID) | WriteBack(key: TxnID) | MemData(key: TxnID)

  predicate AwaitsWriteOf(t: Tables, k: TxnID, addr: Addr) {
    k in t.pending && t.pending[k].state == WaitL1Data && t.pending[k].req.addr == addr
  }

  /** The address fallback takes whichever matching entry it meets first, in no particular order. */
  ghost predicate FallbackOk(t: Tables, addr: Addr, fb: Option<TxnID>) {
    match fb
    case Some(k) => AwaitsWriteOf(t, k, addr)
    case None => forall k :: !AwaitsWriteOf(t, k, addr)
  }

  ghost function SomeFallback(t: Tables, addr: Addr): (fb: Option<TxnID>)
    ensures FallbackOk(t, addr, fb)
  {
    if exists k :: AwaitsWriteOf(t, k, addr) then var k :| AwaitsWriteOf(t, k, addr); Some(k) else None
  }

  function DataRoute(t: Tables, txnId: TxnID, fb: Option<TxnID>): Route {
    if txnId in t.snoopToOrig then
      if t.snoopToOrig[txnId] in t.pending then SnoopData(t.snoopToOrig[txnId]) else NoRoute
    else if txnId in t.pending then
      match t.pending[txnId].state
      case WaitL1Data => WriteBack(txnId)
      case WaitMemData => MemData(txnId)
      case _ => NoRoute
    else
      match fb
      case Some(k) => WriteBack(k)
      case None => NoRoute
  }

  function Without<T>(m: map<TxnID, T>, k: TxnID): map<TxnID, T> { m - {k} }

  function DropValue(m: map<TxnID, TxnID>, orig: TxnID): map<TxnID, TxnID> {
    map k | k in m && m[k] != orig :: m[k]
  }

  /** Every snoop of `orig` is answered: forget them, install the target state, answer the requester. */
  function Complete(t: Tables, v: Option<Line>, orig: TxnID): Out
    requires orig in t.pending
  {
    var pt := t.pending[orig];
    var ops := if pt.req.opcode == ReadOnce then [ClearSharers, SetLineState(pt.target)]
               else [ClearSharers, SetLineState(pt.target), AddSharer(pt.req.src)];
    Out(t.(pending := Without(t.pending, orig),
           snoopToOrig := DropValue(t.snoopToOrig, orig),
           counted := set k | k in t.counted && !(k in t.snoopToOrig && t.snoopToOrig[k] == orig)),
        ops,
        if pt.req.opcode == CleanUnique then [CompFor(pt.req)] else [CompDataFor(pt.req, ViewOps(v, ops))])
  }

  predicate Finished(pt: PendingTxn) { pt.snoops <= 0 && pt.beats <= 0 }

  /** A data beat for a snoop: it fills the line, and the first one of its id also counts as the answer. */
  function RecvSnoopData(t: Tables, v: Option<Line>, orig: TxnID, txnId: TxnID, data: Data): Out
    requires orig in t.pending
  {
    var pt := t.pending[orig];
    var fill := Fill(pt.target, data);
    var pt' := pt.(beats := pt.beats - 1, snoops := if txnId in t.counted then pt.snoops else pt.snoops - 1);
    var t' := t.(pending := t.pending[orig := pt'], counted := t.counted + {txnId});
    if Finished(pt') then
      var done := Complete(t'.(counted := t'.counted - {txnId}), ApplyView(v, fill), orig);
      Out(done.t, [fill] + done.ops, done.actions)
    else Out(t', [fill], [])
  }

  function RecvWriteData(t: Tables, key: TxnID, data: Data): Out
    requires key in t.pending
  {
    Out(t.(pending := Without(t.pending, key)), [Fill(UD, data), AddSharer(t.pending[key].req.src)], [])
  }

  function RecvMemData(t: Tables, v: Option<Line>, key: TxnID, data: Data): Out
    requires key in t.pending
  {
    var pt := t.pending[key];
    var ops := if pt.req.opcode == ReadOnce then [Fill(pt.target, data)]
               else [Fill(pt.target, data), AddSharer(pt.req.src)];
    Out(t.(pending := Without(t.pending, key), memToOrig := DropValue(t.memToOrig, pt.req.txnID)),
        ops,
        if pt.req.opcode == CleanUnique then [CompFor(pt.req)] else [CompDataFor(pt.req, ViewOps(v, ops))])
  }

  function RecvData(t: Tables, v: Option<Line>, txnId: TxnID, data: Data, fb: Option<TxnID>): Out
    requires fb.Some? ==> fb.value in t.pending
  {
    match DataRoute(t, txnId, fb)
    case NoRoute => Out(t, [], [])
    case SnoopData(orig) => RecvSnoopData(t, v, orig, txnId, data)
    case WriteBack(key) => RecvWriteData(t, key, data)
    case MemData(key) => RecvMemData(t, v, key, data)
  }

  function RecvSnoopResponse(t: Tables, v: Option<Line>, orig: TxnID): Out
    requires orig in t.pending
  {
    var pt := t.pending[orig].(snoops := t.pending[orig].snoops - 1);
    var t' := t.(pending := t.pending[orig := pt]);
    if Finished(pt) then Complete(t', v, orig) else Out(t', [], [])
  }

  function RecvWriteAck(t: Tables, txnId: TxnID): Out {
    Out(t.(pending := Without(t.pending, txnId),
           memToOrig := map k | k in t.memToOrig && t.memToOrig[k] != txnId && k != txnId :: t.memToOrig[k]),
        [], [])
  }

  function RecvResponse(t: Tables, v: Option<Line>, txnId: TxnID): Out {
    if txnId in t.snoopToOrig then
      if t.snoopToOrig[txnId] in t.pending then RecvSnoopResponse(t, v, t.snoopToOrig[txnId]) else Out(t, [], [])
    else if txnId in t.pending && t.pending[txnId].state == WaitMemWriteAck then RecvWriteAck(t, txnId)
    else Out(t, [], [])
  }

  // ---------- the engine ----------

  /** The three entry points and the direct invalidation. `fb` is the entry the address fallback meets. */
  datatype Msg =
    | Request(txn: Txn)
    | DataBeat(txnId: TxnID, addr: Addr, data: Data, fb: Option<TxnID>)
    | Response(txnId: TxnID)
    | Evict(addr: Addr)

  /** A message is deliverable when its fallback choice is one the engine could make. */
  ghost predicate Deliverable(t: Tables, m: Msg) { m.DataBeat? ==> FallbackOk(t, m.addr, m.fb) }

  /** The pending transaction a data or response message is applied to. */
  function Target(t: Tables, m: Msg): Option<TxnID> {
    match m
    case DataBeat(id, _, _, fb) =>
      (match DataRoute(t, id, fb)
       case NoRoute => None
       case SnoopData(k) => Some(k)
       case WriteBack(k) => Some(k)
       case MemData(k) => Some(k))
    case Response(id) =>
      if id in t.snoopToOrig then
        if t.snoopToOrig[id] in t.pending then Some(t.snoopToOrig[id]) else None
      else if id in t.pending && t.pending[id].state == WaitMemWriteAck then Some(id)
      else None
    case _ => None
  }

  /** The line a message concerns, if it concerns any. */
  function LineFor(t: Tables, m: Msg): Option<LineNo> {
    match m
    case Request(txn) => Some(LineOf(txn.addr))
    case Evict(addr) => Some(LineOf(addr))
    case _ =>
      match Target(t, m)
      case Some(k) => if k in t.pending then Some(LineOf(t.pending[k].req.addr)) else None
      case None => None
  }

  function Step(t: Tables, v: Option<Line>, m: Msg): Out
    requires m.DataBeat? && m.fb.Some? ==> m.fb.value in t.pending
  {
    match m
    case Request(txn) => RecvRequest(t, v, txn)
    case DataBeat(id, addr, data, fb) => RecvData(t, v, id, data, fb)
    case Response(id) => RecvResponse(t, v, id)
    case Evict(addr) => Out(t, [Invalidate], [])
  }

  datatype Engine = Engine(t: Tables, store: Store)

  ghost predicate Steppable(e: Engine, m: Msg) {
    ValidStore(e.store) && (m.DataBeat? && m.fb.Some? ==> m.fb.value in e.t.pending)
  }

  function ViewFor(e: Engine, m: Msg): Option<Line>
    requires ValidStore(e.store)
  {
    match LineFor(e.t, m)
    case Some(l) => View(e.store, l)
    case None => None
  }

  function StepOut(e: Engine, m: Msg): Out
    requires Steppable(e, m)
  {
    Step(e.t, ViewFor(e, m), m)
  }

  function Next(e: Engine, m: Msg): (e': Engine)
    requires Steppable(e, m)
    ensures ValidStore(e'.store) && e'.store.numWays == e.store.numWays && |e'.store.sets| == |e.store.sets|
  {
    var out := StepOut(e, m);
    match LineFor(e.t, m)
    case Some(l) => Engine(out.t, ApplyOps(e.store, l, out.ops))
    case None => Engine(out.t, e.store)
  }

  /** The requests that look the line up, and so assert that no dirty victim is in the way. */
  predicate LooksUp(op: Opcode) { !IsWrite(op) && op != Other }

  predicate Aborts(e: Engine, m: Msg)
    requires ValidStore(e.store)
  {
    m.Request? && LooksUp(m.txn.opcode) && Lookup(e.store, LineOf(m.txn.addr)).MissEvictDirty?
  }
}
