/** The engine together with its requesters: which node holds which copy, and which messages are on their way.
    Requests are ReadShared, ReadUnique, ReadNotSharedDirty, ReadOnce and WriteBackFull. */
module RequesterWorld {
  import opened ChiTypes
  import opened CacheStore
  import opened EngineSpec
  import opened EngineTables

  /** A node's copy of a line; a writable copy may be changed by the node at any time. */
  datatype Copy = Clean(data: Data) | Writable(data: Data)

  /** A snoop on its way to a node, or the node's answer on its way back. */
  datatype SnoopMsg = Asked(node: NodeID, retToSrc: bool) | WithData(data: Data) | WithoutData

  datatype WriteMsg = WriteMsg(addr: Addr, data: Data)

  /** A further beat of data whose first beat has been delivered, by a node or the memory, or by a writer back. */
  datatype Stray = ReadStray(id: TxnID, addr: Addr, data: Data) | WriteStray(addr: Addr, data: Data)

  datatype Grant = Grant(dest: NodeID, state: LineState, payload: Option<Data>)

  /** Everything about one line outside the engine. `latest` is the value last written by anybody; `asked` is the
      request whose answer its node still waits for (or whose write data it has not sent yet); `dbid` is the node that
      has been told to send its write data. */
  datatype Env = Env(
    memory: Data,
    latest: Data,
    copies: map<NodeID, Copy>,
    asked: Option<Txn>,
    snoops: map<TxnID, SnoopMsg>,
    fetches: set<TxnID>,
    write: Option<WriteMsg>,
    grant: Option<Grant>,
    dbid: Option<NodeID>,
    strays: set<Stray>)

  datatype World = World(e: Engine, envs: map<LineNo, Env>)

  /** What can happen next. `last` says whether more beats of the same data will follow. */
  datatype Event =
    | StoreTo(l: LineNo, node: NodeID, data: Data)
    | DropCopy(l: LineNo, node: NodeID)
    | Ask(txn: Txn)
    | SendWriteData(l: LineNo)
    | AnswerSnoop(l: LineNo, id: TxnID, withData: bool)
    | SnoopBeat(l: LineNo, id: TxnID, addr: Addr, fb: Option<TxnID>, last: bool)
    | SnoopAck(l: LineNo, id: TxnID)
    | MemBeat(l: LineNo, id: TxnID, addr: Addr, fb: Option<TxnID>, last: bool)
    | WriteBeat(l: LineNo, id: TxnID, fb: Option<TxnID>, last: bool)
    | StrayBeat(l: LineNo, stray: Stray, id: TxnID, fb: Option<TxnID>, last: bool)
    | Receive(l: LineNo)

  function EventLine(ev: Event): LineNo { if ev.Ask? then LineOf(ev.txn.addr) else ev.l }

  predicate IsRead(op: Opcode) { op in {ReadShared, ReadUnique, ReadNotSharedDirty, ReadOnce} }

  predicate CanWrite(env: Env, node: NodeID) { node in env.copies && env.copies[node].Writable? }

  /** Nothing concerning the line is on its way, except perhaps further beats of data that has arrived. */
  predicate Idle(env: Env) {
    && env.asked == None && env.snoops == map[] && env.fetches == {} && env.write == None
    && env.grant == None && env.dbid == None
  }

  /** What the nodes and the memory may do. A new request waits until the line is idle, and a write-back until no
      further beats are on their way either; readers do not hold the line writable and writers back do. A snooped node
      returns its data if asked to and the copy is writable; it may if the copy is clean. A writer sends its data once
      it has been told to, and an answer is taken by the node that asked. */
  predicate EventOk(env: Env, ev: Event) {
    match ev
    case StoreTo(_, node, _) => CanWrite(env, node)
    case DropCopy(_, node) => node in env.copies && env.copies[node].Clean?
    case Ask(txn) =>
      && Idle(env) && (txn.opcode == WriteBackFull ==> env.strays == {})
      && (IsRead(txn.opcode) || txn.opcode == WriteBackFull)
      && (CanWrite(env, txn.src) <==> txn.opcode == WriteBackFull)
    case SendWriteData(_) =>
      && env.asked.Some? && env.asked.value.opcode == WriteBackFull && CanWrite(env, env.asked.value.src)
      && env.dbid == Some(env.asked.value.src)
    case AnswerSnoop(_, id, withData) =>
      && id in env.snoops && env.snoops[id].Asked?
      && (withData ==> env.snoops[id].retToSrc && env.snoops[id].node in env.copies)
      && (env.snoops[id].retToSrc && CanWrite(env, env.snoops[id].node) ==> withData)
    case SnoopBeat(l, id, addr, _, _) => id in env.snoops && env.snoops[id].WithData? && LineOf(addr) == l
    case SnoopAck(_, id) => id in env.snoops && env.snoops[id].WithoutData?
    case MemBeat(l, id, addr, _, _) => id in env.fetches && LineOf(addr) == l
    case WriteBeat(_, _, _, _) => env.write.Some?
    case StrayBeat(_, stray, id, _, _) => stray in env.strays && (stray.ReadStray? ==> id == stray.id)
    case Receive(_) => env.grant.Some? && env.asked.Some? && env.grant.value.dest == env.asked.value.src
  }

  /** The message an event hands to the engine. */
  function MsgOf(env: Env, ev: Event): Option<Msg>
    requires EventOk(env, ev)
  {
    match ev
    case Ask(txn) => Some(Request(txn))
    case SnoopBeat(_, id, addr, fb, _) => Some(DataBeat(id, addr, env.snoops[id].data, fb))
    case SnoopAck(_, id) => Some(Response(id))
    case MemBeat(_, id, addr, fb, _) => Some(DataBeat(id, addr, env.memory, fb))
    case WriteBeat(_, id, fb, _) => Some(DataBeat(id, env.write.value.addr, env.write.value.data, fb))
    case StrayBeat(_, stray, id, fb, _) => Some(DataBeat(id, stray.addr, stray.data, fb))
    case _ => None
  }

  /** The nodes' and the memory's own part of an event. A snooped node gives its copy up. */
  function Local(env: Env, ev: Event): Env
    requires EventOk(env, ev)
  {
    match ev
    case StoreTo(_, node, data) => env.(copies := env.copies[node := Writable(data)], latest := data)
    case DropCopy(_, node) => env.(copies := env.copies - {node})
    case Ask(txn) => env.(asked := Some(txn))
    case SendWriteData(_) =>
      var txn := env.asked.value;
      env.(asked := None, dbid := None, copies := env.copies - {txn.src},
           write := Some(WriteMsg(txn.addr, env.copies[txn.src].data)))
    case AnswerSnoop(_, id, withData) =>
      var node := env.snoops[id].node;
      env.(snoops := env.snoops[id := if withData then WithData(env.copies[node].data) else WithoutData],
           copies := env.copies - {node})
    case SnoopBeat(_, id, addr, _, last) =>
      var more := if last then {} else {ReadStray(id, addr, env.snoops[id].data)};
      env.(snoops := env.snoops - {id}, strays := env.strays + more)
    case SnoopAck(_, id) => env.(snoops := env.snoops - {id})
    case MemBeat(_, id, addr, _, last) =>
      env.(fetches := env.fetches - {id}, strays := env.strays + if last then {} else {ReadStray(id, addr, env.memory)})
    case WriteBeat(_, _, _, last) =>
      var msg := env.write.value;
      env.(write := None, strays := env.strays + if last then {} else {WriteStray(msg.addr, msg.data)})
    case StrayBeat(_, stray, _, _, last) => env.(strays := env.strays - if last then {stray} else {})
    case Receive(_) =>
      var g := env.grant.value;
      env.(asked := None, grant := None,
           copies := if env.asked.value.opcode == ReadOnce || g.payload == None then env.copies
                     else env.copies[g.dest := if Unique(g.state) then Writable(g.payload.value)
                                             else Clean(g.payload.value)])
  }

  /** Each action becomes a message on its way. */
  function Absorb(env: Env, a: Action): Env {
    match a
    case SendSnoop(_, _, id, dest, ret) => env.(snoops := env.snoops[id := Asked(dest, ret)])
    case SendReadNoSnp(_, id) => env.(fetches := env.fetches + {id})
    case SendCompData(_, _, dest, state, payload) => env.(grant := Some(Grant(dest, state, payload)))
    case SendCompDBIDResp(_, _, dest) => env.(dbid := Some(dest))
    case _ => env
  }

  function AbsorbAll(env: Env, actions: seq<Action>): Env {
    if actions == [] then env
    else Absorb(AbsorbAll(env, actions[..|actions| - 1]), actions[|actions| - 1])
  }

  /** Write data carries its request's id or an id that is not live; so do its further beats. */
  predicate WriteIdOk(t: Tables, ev: Event, env: Env)
    requires EventOk(env, ev)
  {
    && (ev.WriteBeat? ==>
          AwaitsWriteOf(t, ev.id, env.write.value.addr) || (ev.id !in t.pending && ev.id !in t.snoopToOrig))
    && (ev.StrayBeat? && ev.stray.WriteStray? ==> ev.id !in t.pending && ev.id !in t.snoopToOrig)
  }

  ghost predicate Allowed(w: World, ev: Event) {
    && ValidStore(w.e.store) && EventLine(ev) in w.envs && EventOk(w.envs[EventLine(ev)], ev)
    && WriteIdOk(w.e.t, ev, w.envs[EventLine(ev)])
    && var m := MsgOf(w.envs[EventLine(ev)], ev); m.Some? ==> Admits(w.e, m.value)
  }

  ghost function After(w: World, ev: Event): World
    requires Allowed(w, ev)
  {
    var l := EventLine(ev);
    var env := Local(w.envs[l], ev);
    match MsgOf(w.envs[l], ev)
    case None => World(w.e, w.envs[l := env])
    case Some(m) => World(Next(w.e, m), w.envs[l := AbsorbAll(env, StepOut(w.e, m).actions)])
  }
}
