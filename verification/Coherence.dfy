/** Coherence over whole runs: one writer at a time and then nobody else, and every answer and every copy is the
    value last written. */
module Coherence {
  import opened ChiTypes
  import opened CacheStore
  import opened EngineSpec
  import opened EngineTables
  import opened Directory
  import opened SnoopBarrier
  import opened WorkingSet
  import opened LineFrames
  import opened Outcomes
  import opened RequesterWorld

  // ---------- the invariant of one line ----------

  ghost predicate NoWriter(env: Env) { forall x :: x in env.copies ==> env.copies[x].Clean? }

  /** Every copy is known to the directory and up to date, and a writable one is the only one. */
  ghost predicate CopiesOk(v: Option<Line>, env: Env) {
    && (forall x :: x in env.copies ==> x in SharersOf(v) && env.copies[x].data == env.latest)
    && (forall x, y :: x in env.copies && y in env.copies && env.copies[x].Writable? ==> x == y)
  }

  /** Unless some node may write, the latest value is in the cache, or in memory if the cache does not have the line. */
  ghost predicate Settled(v: Option<Line>, env: Env) {
    NoWriter(env) ==> env.latest == if v.Some? then v.value.data else env.memory
  }

  ghost predicate GrantOk(v: Option<Line>, env: Env, g: Grant) {
    && NoWriter(env) && v.Some? && g.payload == Some(env.latest) && g.state == v.value.state
    && env.asked.Some? && g.dest == env.asked.value.src
    && (env.asked.value.opcode != ReadOnce ==> g.dest in v.value.sharers)
  }

  /** A line without a transaction. */
  ghost predicate FreeOk(v: Option<Line>, env: Env) {
    && Settled(v, env)
    && (v.Some? ==>
          v.value.state in {SC, UD, SD} && if v.value.state == SC then NoWriter(env) else AtMostOne(v.value.sharers))
    && env.snoops == map[] && env.fetches == {} && env.write == None && env.dbid == None
    && (env.grant.Some? ==> GrantOk(v, env, env.grant.value))
    && (env.asked.Some? ==> IsRead(env.asked.value.opcode) && env.grant.Some?)
  }

  ghost predicate FetchOk(k: TxnID, pt: PendingTxn, v: Option<Line>, env: Env) {
    && v == None && env.copies == map[] && env.latest == env.memory
    && env.asked == Some(pt.req) && IsRead(pt.req.opcode)
    && env.snoops == map[] && env.fetches == {k} && env.write == None && env.grant == None && env.dbid == None
  }

  /** A write-back: the writer still holds the line, or has sent its data. */
  ghost predicate WriteBackOk(pt: PendingTxn, v: Option<Line>, env: Env) {
    && SharersOf(v) <= {pt.req.src} && pt.req.opcode == WriteBackFull && env.strays == {}
    && env.snoops == map[] && env.fetches == {} && env.grant == None
    && if env.write == None then
         env.asked == Some(pt.req) && CanWrite(env, pt.req.src) && env.dbid == Some(pt.req.src)
       else
         && env.asked == None && env.copies == map[] && env.write == Some(WriteMsg(pt.req.addr, env.latest))
         && env.dbid == None
  }

  /** The one other sharer of a dirty line is asked for its data. */
  ghost predicate DataSnoopOk(pt: PendingTxn, mine: set<TxnID>, counted: set<TxnID>, v: Option<Line>, env: Env,
                              id: TxnID) {
    && mine == {id} && id !in counted && pt.beats == 1 && pt.snoops == (if id in env.snoops then 1 else 0)
    && pt.req.src !in env.copies
    && if id !in env.snoops then env.copies == map[]
       else match env.snoops[id]
            case Asked(x, ret) => ret && env.copies.Keys <= {x} && Settled(v, env)
            case WithData(d) => d == env.latest && env.copies == map[]
            case WithoutData => env.copies == map[]
  }

  ghost predicate AskedFor(env: Env, x: NodeID) {
    exists id :: id in env.snoops && env.snoops[id].Asked? && env.snoops[id].node == x
  }

  /** The other sharers of a clean line are asked to give it up. */
  ghost predicate PlainSnoopOk(pt: PendingTxn, v: Option<Line>, env: Env) {
    && pt.beats == 0 && pt.snoops == |env.snoops.Keys| && pt.target == UD
    && NoWriter(env) && Settled(v, env)
    && (forall id :: id in env.snoops ==>
          env.snoops[id].WithoutData? || (env.snoops[id].Asked? && !env.snoops[id].retToSrc))
    && (forall x :: x in env.copies ==> x == pt.req.src || AskedFor(env, x))
  }

  ghost predicate SnoopOk(pt: PendingTxn, mine: set<TxnID>, counted: set<TxnID>, v: Option<Line>, env: Env) {
    && v.Some? && env.asked == Some(pt.req) && IsRead(pt.req.opcode) && env.snoops.Keys <= mine && pt.target in {SC, UD}
    && env.fetches == {} && env.write == None && env.grant == None && env.dbid == None
    && if pt.beats > 0 then exists id :: DataSnoopOk(pt, mine, counted, v, env, id)
       else PlainSnoopOk(pt, v, env) && pt.req.opcode != ReadOnce
  }

  ghost predicate InFlightOk(t: Tables, k: TxnID, v: Option<Line>, env: Env)
    requires k in t.pending
  {
    var pt := t.pending[k];
    match pt.state
    case WaitMemData => FetchOk(k, pt, v, env) && pt.target in {SC, UD}
    case WaitL1Data => WriteBackOk(pt, v, env)
    case WaitSnoopResp => SnoopOk(pt, SnoopsOf(t, k), t.counted * SnoopsOf(t, k), v, env)
    case WaitMemWriteAck => false
  }

  /** The id of a further beat has been handed out and is dead. */
  predicate IsDead(t: Tables, id: TxnID) {
    (SNOOP_ID_BASE <= id < t.nextSnoop && id !in t.snoopToOrig) || (MEM_ID_BASE <= id < t.nextMem && id !in t.pending)
  }

  predicate StrayOk(t: Tables, stray: Stray, l: LineNo) {
    LineOf(stray.addr) == l && (stray.ReadStray? ==> IsDead(t, stray.id))
  }

  /** Messages on their way carry ids of the line's own transaction; further beats carry dead ids. */
  ghost predicate IdsOk(t: Tables, env: Env, l: LineNo) {
    && (forall id :: id in env.snoops ==>
          SNOOP_ID_BASE <= id < t.nextSnoop && (id in t.snoopToOrig ==> SnoopOn(t, id, l)))
    && (forall id :: id in env.fetches ==>
          MEM_ID_BASE <= id < t.nextMem && (id in t.pending ==> EntryLine(t.pending[id]) == l))
    && (env.asked.Some? ==> LineOf(env.asked.value.addr) == l)
    && (env.write.Some? ==> LineOf(env.write.value.addr) == l)
    && (forall stray :: stray in env.strays ==> StrayOk(t, stray, l))
  }

  ghost predicate Coherent(t: Tables, v: Option<Line>, env: Env, l: LineNo) {
    && CopiesOk(v, env) && IdsOk(t, env, l)
    && (LineFree(t, l) ==> FreeOk(v, env))
    && (forall k :: k in t.pending && EntryLine(t.pending[k]) == l ==> InFlightOk(t, k, v, env))
  }

  /** A step on another line is not felt. */
  lemma SnoopsOfSlice(t: Tables, t': Tables, l: LineNo, k: TxnID)
    requires SameSlice(t, t', l) && k in t.pending && EntryLine(t.pending[k]) == l
    ensures SnoopsOf(t', k) == SnoopsOf(t, k) && t'.counted * SnoopsOf(t', k) == t.counted * SnoopsOf(t, k)
  {
    forall id: TxnID
      ensures id in SnoopsOf(t, k) <==> id in SnoopsOf(t', k)
      ensures id in SnoopsOf(t, k) ==> (id in t'.counted <==> id in t.counted)
    {
      assert id in SnoopsOf(t, k) ==> SnoopOn(t, id, l);
      assert id in SnoopsOf(t', k) ==> SnoopOn(t', id, l);
    }
  }

  lemma OtherLineStaysCoherent(t: Tables, t': Tables, v: Option<Line>, env: Env, l: LineNo)
    requires Coherent(t, v, env, l) && SameSlice(t, t', l) && t.nextSnoop <= MEM_ID_BASE
    ensures Coherent(t', v, env, l)
  {
    hide CopiesOk, FreeOk, SnoopOk, FetchOk, WriteBackOk, SnoopsOf;
    forall k | k in t'.pending && EntryLine(t'.pending[k]) == l ensures InFlightOk(t', k, v, env) {
      SnoopsOfSlice(t, t', l, k);
      assert InFlightOk(t, k, v, env);
    }
    if LineFree(t', l) {
      assert LineFree(t, l);
    }
  }

  // ---------- events outside the engine ----------

  predicate Silent(env: Env, ev: Event) { EventOk(env, ev) && MsgOf(env, ev) == None }

  lemma SilentFree(v: Option<Line>, env: Env, ev: Event)
    requires Silent(env, ev) && CopiesOk(v, env) && FreeOk(v, env)
    ensures CopiesOk(v, Local(env, ev)) && FreeOk(v, Local(env, ev))
  {
    var env' := Local(env, ev);
    if ev.StoreTo? || ev.SendWriteData? || ev.AnswerSnoop? {
      assert ev.StoreTo? && !NoWriter(env) && env'.copies[ev.node].Writable?;
    } else if ev.Receive? {
      ReceiveFree(v, env, ev);
    }
  }

  lemma ReceiveFree(v: Option<Line>, env: Env, ev: Event)
    requires EventOk(env, ev) && ev.Receive? && CopiesOk(v, env) && FreeOk(v, env)
    ensures CopiesOk(v, Local(env, ev)) && FreeOk(v, Local(env, ev))
  {
    var g := env.grant.value;
    assert GrantOk(v, env, g);
    if env.asked.value.opcode != ReadOnce && Unique(g.state) {
      assert Local(env, ev).copies[g.dest].Writable?;
      assert AtMostOne(v.value.sharers);
    }
  }

  /** While memory is being read, nobody holds the line, so nothing can happen outside the engine. */
  lemma FetchIsQuiet(k: TxnID, pt: PendingTxn, v: Option<Line>, env: Env, ev: Event)
    requires FetchOk(k, pt, v, env)
    ensures !Silent(env, ev)
  {
  }

  lemma SilentWriteBack(pt: PendingTxn, v: Option<Line>, env: Env, ev: Event)
    requires Silent(env, ev) && CopiesOk(v, env) && WriteBackOk(pt, v, env)
    ensures CopiesOk(v, Local(env, ev)) && WriteBackOk(pt, v, Local(env, ev))
  {
    if env.write == None {
      assert forall x :: x in env.copies ==> x == pt.req.src;
    }
  }

  lemma SilentDataSnoop(pt: PendingTxn, mine: set<TxnID>, counted: set<TxnID>, v: Option<Line>, env: Env, ev: Event,
                        id: TxnID)
    requires Silent(env, ev) && CopiesOk(v, env) && env.snoops.Keys <= mine && env.grant == None
    requires DataSnoopOk(pt, mine, counted, v, env, id) && env.asked.Some? && IsRead(env.asked.value.opcode)
    ensures CopiesOk(v, Local(env, ev)) && DataSnoopOk(pt, mine, counted, v, Local(env, ev), id)
    ensures Local(env, ev).snoops.Keys == env.snoops.Keys
  {
    var env' := Local(env, ev);
    if ev.AnswerSnoop? {
      assert ev.id == id;
      assert env.copies.Keys <= {env.snoops[id].node};
      assert env'.copies.Keys == {};
      if !ev.withData && env.snoops[id].node in env.copies { assert NoWriter(env); }
    } else if ev.StoreTo? {
      assert env'.copies[ev.node].Writable?;
    }
  }

  lemma SilentPlainSnoop(pt: PendingTxn, v: Option<Line>, env: Env, ev: Event)
    requires Silent(env, ev) && CopiesOk(v, env) && env.grant == None
    requires PlainSnoopOk(pt, v, env) && env.asked.Some? && IsRead(env.asked.value.opcode)
    ensures CopiesOk(v, Local(env, ev)) && PlainSnoopOk(pt, v, Local(env, ev))
    ensures Local(env, ev).snoops.Keys == env.snoops.Keys
  {
    var env' := Local(env, ev);
    forall x | x in env'.copies && x != pt.req.src ensures AskedFor(env', x) {
      var id :| id in env.snoops && env.snoops[id].Asked? && env.snoops[id].node == x;
      assert id in env'.snoops && env'.snoops[id] == env.snoops[id];
    }
  }

  lemma SilentSnoop(pt: PendingTxn, mine: set<TxnID>, counted: set<TxnID>, v: Option<Line>, env: Env, ev: Event)
    requires Silent(env, ev) && CopiesOk(v, env) && SnoopOk(pt, mine, counted, v, env)
    ensures CopiesOk(v, Local(env, ev)) && SnoopOk(pt, mine, counted, v, Local(env, ev))
  {
    hide DataSnoopOk, PlainSnoopOk, CopiesOk;
    if pt.beats > 0 {
      var id :| DataSnoopOk(pt, mine, counted, v, env, id);
      SilentDataSnoop(pt, mine, counted, v, env, ev, id);
    } else {
      SilentPlainSnoop(pt, v, env, ev);
    }
    assert !ev.SendWriteData? && !ev.Receive?;
  }

  lemma SilentStaysCoherent(t: Tables, v: Option<Line>, env: Env, ev: Event, l: LineNo)
    requires Silent(env, ev) && Coherent(t, v, env, l)
    ensures Coherent(t, v, Local(env, ev), l)
  {
    hide CopiesOk, FreeOk, SnoopOk, FetchOk, WriteBackOk, SnoopsOf;
    var env' := Local(env, ev);
    if LineFree(t, l) { SilentFree(v, env, ev); }
    forall k | k in t.pending && EntryLine(t.pending[k]) == l ensures InFlightOk(t, k, v, env') && CopiesOk(v, env') {
      var pt := t.pending[k];
      assert InFlightOk(t, k, v, env);
      match pt.state
      case WaitMemData => FetchIsQuiet(k, pt, v, env, ev); assert false;
      case WaitL1Data => SilentWriteBack(pt, v, env, ev);
      case WaitSnoopResp => SilentSnoop(pt, SnoopsOf(t, k), t.counted * SnoopsOf(t, k), v, env, ev);
      case WaitMemWriteAck =>
    }
    assert env'.fetches == env.fetches && env'.snoops.Keys == env.snoops.Keys;
  }

  // ---------- requests ----------

  lemma OnlyEntry(t: Tables, v: Option<Line>, env: Env, l: LineNo, k: TxnID)
    requires forall j :: j in t.pending && EntryLine(t.pending[j]) == l ==> j == k
    requires k in t.pending && EntryLine(t.pending[k]) == l && InFlightOk(t, k, v, env) && CopiesOk(v, env)
             && IdsOk(t, env, l)
    ensures Coherent(t, v, env, l)
  {
    hide InFlightOk, CopiesOk, IdsOk;
  }

  /** An idle line has no transaction in the engine. */
  lemma IdleIsFree(t: Tables, v: Option<Line>, env: Env, l: LineNo)
    requires Coherent(t, v, env, l) && Idle(env)
    ensures LineFree(t, l)
  {
    hide CopiesOk, FreeOk, IdsOk, SnoopsOf, DataSnoopOk, PlainSnoopOk;
    forall k | k in t.pending ensures EntryLine(t.pending[k]) != l {
      assert EntryLine(t.pending[k]) == l ==> InFlightOk(t, k, v, env);
    }
  }

  /** The requester of an answered request cannot write, so nobody can once the others are ruled out. */
  lemma NobodyElse(v: Option<Line>, env: Env, src: NodeID)
    requires CopiesOk(v, env) && !CanWrite(env, src) && SharersOf(v) <= {src}
    ensures NoWriter(env)
  {
  }

  ghost predicate AskOk(t: Tables, v: Option<Line>, env: Env, txn: Txn) {
    && Consistent(t) && RequestOk(t, v, txn) && LineFree(t, LineOf(txn.addr))
    && CopiesOk(v, env) && FreeOk(v, env) && Idle(env)
    && (IsRead(txn.opcode) || txn.opcode == WriteBackFull)
    && (CanWrite(env, txn.src) <==> txn.opcode == WriteBackFull)
    && (txn.opcode == WriteBackFull ==> env.strays == {}) && IdsOk(t, env, LineOf(txn.addr))
  }

  ghost predicate AskedCoherent(t: Tables, v: Option<Line>, env: Env, txn: Txn) {
    var out := RecvRequest(t, v, txn);
    Coherent(out.t, ViewOps(v, out.ops), AbsorbAll(env.(asked := Some(txn)), out.actions), LineOf(txn.addr))
  }

  lemma OneAction(env: Env, a: Action)
    ensures AbsorbAll(env, [a]) == Absorb(env, a) && AbsorbAll(env, []) == env
  {
    assert [a][..0] == [];
  }

  lemma AskWriteBack(t: Tables, v: Option<Line>, env: Env, txn: Txn)
    requires AskOk(t, v, env, txn) && txn.opcode == WriteBackFull
    ensures AskedCoherent(t, v, env, txn)
  {
    hide ViewOps, Consistent;
    var out, env' := RecvRequest(t, v, txn), env.(asked := Some(txn));
    OneAction(env', SendCompDBIDResp(txn.addr, txn.txnID, txn.src));
    ViewShort(v, Touch, Touch, Touch, Touch);
    assert SharersOf(v) <= {txn.src};
    OnlyEntry(out.t, v, env'.(dbid := Some(txn.src)), LineOf(txn.addr), txn.txnID);
  }

  lemma AskFetch(t: Tables, v: Option<Line>, env: Env, txn: Txn)
    requires AskOk(t, v, env, txn) && IsRead(txn.opcode) && v == None
    ensures AskedCoherent(t, v, env, txn)
  {
    hide ViewOps, Consistent;
    var out, env1 := RecvRequest(t, v, txn), env.(asked := Some(txn));
    OneAction(env1, SendReadNoSnp(txn.addr, t.nextMem));
    ViewShort(v, Touch, Touch, Touch, Touch);
    assert env.copies == map[];
    RangesApart(t);
    OnlyEntry(out.t, None, Absorb(env1, SendReadNoSnp(txn.addr, t.nextMem)), LineOf(txn.addr), t.nextMem);
  }

  lemma RangesApart(t: Tables)
    requires Consistent(t)
    ensures SNOOP_ID_BASE <= t.nextSnoop <= MEM_ID_BASE <= t.nextMem
  {
  }

  /** What the requester gets at once is the latest value, and it becomes a sharer unless it only reads once. */
  lemma AskServed(t: Tables, v: Option<Line>, env: Env, txn: Txn)
    requires AskOk(t, v, env, txn) && IsRead(txn.opcode) && v.Some? && SnoopTargets(v, txn) == {}
    ensures AskedCoherent(t, v, env, txn)
  {
    hide ViewOps, Consistent, CopiesOk, FreeOk;
    var out, env1 := RecvRequest(t, v, txn), env.(asked := Some(txn));
    var line := v.value;
    FreeIsNormal(v, env);
    ServedLeaves(t, line, txn);
    OneAction(env1, out.actions[0]);
    ServedFree(v, env, txn, ViewOps(v, out.ops), Absorb(env1, out.actions[0]));
  }

  lemma FreeIsNormal(v: Option<Line>, env: Env)
    requires FreeOk(v, env)
    ensures v.Some? ==> v.value.state in {SC, UD, SD}
  {
  }

  lemma ServedFree(v: Option<Line>, env: Env, txn: Txn, v': Option<Line>, env': Env)
    requires CopiesOk(v, env) && FreeOk(v, env) && Idle(env) && v.Some? && IsRead(txn.opcode) && !CanWrite(env, txn.src)
    requires SnoopTargets(v, txn) == {} && v' == Some(ServedLineOf(v.value, txn))
    requires env' == env.(asked := Some(txn), grant := Some(Grant(txn.src, v'.value.state, Some(v.value.data))))
    ensures CopiesOk(v', env') && FreeOk(v', env')
  {
    if v.value.state != SC { NobodyElse(v, env, txn.src); }
    assert env.latest == v.value.data;
  }

  ghost predicate AreSnoops(actions: seq<Action>, base: nat, order: seq<NodeID>, ret: bool) {
    && |actions| == |order|
    && (forall i :: 0 <= i < |order| ==>
          actions[i].SendSnoop? && actions[i].txnId == base + i && actions[i].dest == order[i]
            && actions[i].retToSrc == ret)
  }

  lemma {:induction false} AbsorbSnoops(env: Env, actions: seq<Action>, base: nat, order: seq<NodeID>, ret: bool)
    requires AreSnoops(actions, base, order, ret) && env.snoops == map[]
    ensures var snoops := AbsorbAll(env, actions).snoops;
            && AbsorbAll(env, actions) == env.(snoops := snoops)
            && (forall id :: id in snoops <==> base <= id < base + |order|)
            && (forall id :: id in snoops ==> snoops[id] == Asked(order[id - base], ret))
  {
    if actions != [] {
      var n := |actions| - 1;
      AbsorbSnoops(env, actions[..n], base, order[..n], ret);
    }
  }

  /** The line's part of the world right after its snoops went out. */
  ghost predicate SnoopsOut(env: Env, txn: Txn, env': Env, base: nat, order: seq<NodeID>, ret: bool) {
    && env' == env.(asked := Some(txn), snoops := env'.snoops)
    && (forall id :: id in env'.snoops <==> base <= id < base + |order|)
    && (forall id :: id in env'.snoops ==> env'.snoops[id] == Asked(order[id - base], ret))
  }

  lemma DataSnoopStarts(v: Option<Line>, env: Env, txn: Txn, env': Env, base: TxnID, pt: PendingTxn, mine: set<TxnID>,
                        order: seq<NodeID>)
    requires v.Some? && CopiesOk(v, env) && FreeOk(v, env) && Idle(env) && IsRead(txn.opcode) && !CanWrite(env, txn.src)
    requires order == Ascending(SnoopTargets(v, txn)) && order != [] && base + |order| < ID_LIMIT
    requires Dirty(v.value.state) && pt == SnoopEntry(v.value, txn) && mine == IdRange(base, |order|)
    requires SnoopsOut(env, txn, env', base, order, true)
    ensures SnoopOk(pt, mine, {}, v, env')
  {
    hide Ascending, IdRange;
    var x := order[0];
    assert x in order && x in SnoopTargets(v, txn) && x in v.value.sharers && x != txn.src;
    assert AtMostOne(v.value.sharers);
    assert SnoopTargets(v, txn) == {x};
    assert mine == {base};
    assert DataSnoopOk(pt, mine, {}, v, env', base);
  }

  lemma PlainSnoopStarts(v: Option<Line>, env: Env, txn: Txn, env': Env, base: TxnID, pt: PendingTxn,
                         mine: set<TxnID>, order: seq<NodeID>)
    requires v.Some? && CopiesOk(v, env) && FreeOk(v, env) && Idle(env) && IsRead(txn.opcode) && !CanWrite(env, txn.src)
    requires order == Ascending(SnoopTargets(v, txn)) && order != [] && base + |order| < ID_LIMIT
    requires !Dirty(v.value.state) && pt == SnoopEntry(v.value, txn) && mine == IdRange(base, |order|)
    requires SnoopsOut(env, txn, env', base, order, false)
    ensures SnoopOk(pt, mine, {}, v, env')
  {
    hide Ascending, IdRange;
    assert env'.snoops.Keys == mine;
    forall x | x in env'.copies && x != txn.src ensures AskedFor(env', x) {
      assert x in SnoopTargets(v, txn) && x in order;
      var i :| 0 <= i < |order| && order[i] == x;
      assert base + i in env'.snoops && env'.snoops[base + i].node == x;
    }
    assert PlainSnoopOk(pt, v, env');
  }

  lemma NewSnoopsOf(t: Tables, t': Tables, line: Line, txn: Txn, n: nat)
    requires Consistent(t) && txn.txnID !in t.pending && t.nextSnoop + n < ID_LIMIT && t'.counted == t.counted
    requires forall k :: k in t'.snoopToOrig <==> k in t.snoopToOrig || t.nextSnoop <= k < t.nextSnoop + n
    requires forall k :: k in t'.snoopToOrig ==>
               t'.snoopToOrig[k] == (if t.nextSnoop <= k < t.nextSnoop + n then txn.txnID else t.snoopToOrig[k])
    ensures SnoopsOf(t', txn.txnID) == IdRange(t.nextSnoop, n)
    ensures t'.counted * SnoopsOf(t', txn.txnID) == {}
  {
    hide EntryOk, MemEntryOk;
    assert forall k :: k in t.snoopToOrig ==> SnoopEntryOk(t, k);
  }

  /** The tables right after the snoops of `txn` went out under the next `n` ids. */
  ghost predicate SnoopTables(t: Tables, t': Tables, line: Line, txn: Txn, n: nat) {
    && t.nextSnoop + n < ID_LIMIT
    && t' == t.(pending := t.pending[txn.txnID := SnoopEntry(line, txn)],
                snoopToOrig := t'.snoopToOrig, nextSnoop := t.nextSnoop + n)
    && (forall k :: k in t'.snoopToOrig <==> k in t.snoopToOrig || t.nextSnoop <= k < t.nextSnoop + n)
    && (forall k :: k in t'.snoopToOrig ==>
          t'.snoopToOrig[k] == (if t.nextSnoop <= k < t.nextSnoop + n then txn.txnID else t.snoopToOrig[k]))
  }

  lemma SnoopsOutCoherent(t: Tables, t': Tables, v: Option<Line>, env: Env, txn: Txn, env': Env, order: seq<NodeID>)
    requires AskOk(t, v, env, txn) && IsRead(txn.opcode) && v.Some? && SnoopTargets(v, txn) != {}
    requires order == Ascending(SnoopTargets(v, txn)) && SnoopTables(t, t', v.value, txn, |order|)
    requires SnoopsOut(env, txn, env', t.nextSnoop, order, Dirty(v.value.state))
    ensures Coherent(t', v, env', LineOf(txn.addr))
  {
    hide Consistent, CopiesOk, FreeOk, SnoopTargets, Ascending, SnoopEntry, SnoopOk, SnoopsOf, IdRange;
    NewSnoopsOf(t, t', v.value, txn, |order|);
    var mine, pt := IdRange(t.nextSnoop, |order|), SnoopEntry(v.value, txn);
    if Dirty(v.value.state) { DataSnoopStarts(v, env, txn, env', t.nextSnoop, pt, mine, order); }
    else { PlainSnoopStarts(v, env, txn, env', t.nextSnoop, pt, mine, order); }
    RangesApart(t);
    SnoopEntryShape(v.value, txn);
    FreeCopies(v, env, env');
    OnlyEntry(t', v, env', LineOf(txn.addr), txn.txnID);
  }

  lemma SnoopStepTables(t: Tables, line: Line, txn: Txn)
    requires t.nextSnoop + |SnoopTargets(Some(line), txn)| < ID_LIMIT
    ensures var out, order := SnoopStep(t, line, txn), Ascending(SnoopTargets(Some(line), txn));
            && out.ops == [Touch] && SnoopTables(t, out.t, line, txn, |order|)
            && AreSnoops(out.actions, t.nextSnoop, order, Dirty(line.state))
  {
    hide SnoopStep, SnoopTargets, Ascending, SnoopEntry, SnoopKindFor;
    SnoopStepEffect(t, line, txn);
  }

  lemma AskSnoop(t: Tables, v: Option<Line>, env: Env, txn: Txn)
    requires AskOk(t, v, env, txn) && IsRead(txn.opcode) && v.Some? && SnoopTargets(v, txn) != {}
    ensures AskedCoherent(t, v, env, txn)
  {
    hide RecvRequest, ViewOps, Consistent, CopiesOk, FreeOk, SnoopStep, SnoopTargets, Ascending, AbsorbAll, Coherent,
         LineFree, SnoopTables, AreSnoops;
    RequestShape(t, v, txn);
    RangesApart(t);
    SnoopStepTables(t, v.value, txn);
    var out, env1 := RecvRequest(t, v, txn), env.(asked := Some(txn));
    var order := Ascending(SnoopTargets(v, txn));
    FreeIsNormal(v, env);
    ViewShort(v, Touch, Touch, Touch, Touch);
    AbsorbSnoops(env1, out.actions, t.nextSnoop, order, Dirty(v.value.state));
    SnoopsOutCoherent(t, out.t, v, env, txn, AbsorbAll(env1, out.actions), order);
  }

  lemma SnoopEntryShape(line: Line, txn: Txn)
    ensures SnoopEntry(line, txn).req == txn && SnoopEntry(line, txn).state == WaitSnoopResp
  {
  }

  lemma FreeCopies(v: Option<Line>, env: Env, env': Env)
    requires CopiesOk(v, env) && env'.copies == env.copies && env'.latest == env.latest
    ensures CopiesOk(v, env')
  {
  }

  lemma AskStaysCoherent(t: Tables, v: Option<Line>, env: Env, txn: Txn)
    requires AskOk(t, v, env, txn)
    ensures AskedCoherent(t, v, env, txn)
  {
    hide AskOk, AskedCoherent, SnoopTargets;
    AskOkMeans(t, v, env, txn);
    if txn.opcode == WriteBackFull { AskWriteBack(t, v, env, txn); }
    else if v == None { AskFetch(t, v, env, txn); }
    else if SnoopTargets(v, txn) == {} { AskServed(t, v, env, txn); }
    else { AskSnoop(t, v, env, txn); }
  }

  lemma AskOkMeans(t: Tables, v: Option<Line>, env: Env, txn: Txn)
    requires AskOk(t, v, env, txn)
    ensures IsRead(txn.opcode) || txn.opcode == WriteBackFull
  {
  }

  // ---------- deliveries ----------

  ghost predicate DeliveryOk(t: Tables, v: Option<Line>, env: Env, ev: Event, l: LineNo) {
    && Consistent(t) && OneTxnPerLine(t) && Coherent(t, v, env, l) && (v.Some? ==> v.value.state != I)
    && EventOk(env, ev) && EventLine(ev) == l && WriteIdOk(t, ev, env)
    && MsgOf(env, ev).Some? && !ev.Ask? && Deliverable(t, MsgOf(env, ev).value)
  }

  ghost predicate DeliveredCoherent(t: Tables, v: Option<Line>, env: Env, ev: Event, l: LineNo)
    requires DeliveryOk(t, v, env, ev, l)
  {
    var out := Step(t, v, MsgOf(env, ev).value);
    Coherent(out.t, ViewOps(v, out.ops), AbsorbAll(Local(env, ev), out.actions), l)
  }

  /** Further beats can be lost. */
  lemma ShedStrays(t: Tables, v: Option<Line>, env: Env, env': Env, l: LineNo)
    requires Coherent(t, v, env, l) && env' == env.(strays := env'.strays) && env'.strays <= env.strays
    ensures Coherent(t, v, env', l)
  {
    hide SnoopsOf, DataSnoopOk;
    forall k | k in t.pending && EntryLine(t.pending[k]) == l ensures InFlightOk(t, k, v, env') {
      assert InFlightOk(t, k, v, env);
      if t.pending[k].state == WaitSnoopResp {
        SameSnoop(t.pending[k], SnoopsOf(t, k), t.counted * SnoopsOf(t, k), v, env, env');
      }
    }
  }

  lemma SameSnoop(pt: PendingTxn, mine: set<TxnID>, counted: set<TxnID>, v: Option<Line>, env: Env, env': Env)
    requires env' == env.(strays := env'.strays) && SnoopOk(pt, mine, counted, v, env)
    ensures SnoopOk(pt, mine, counted, v, env')
  {
    if pt.beats > 0 {
      var id :| DataSnoopOk(pt, mine, counted, v, env, id);
      assert DataSnoopOk(pt, mine, counted, v, env', id);
    } else {
      assert forall x :: AskedFor(env, x) ==> AskedFor(env', x);
    }
  }

  /** A message of the line under an id that is no longer live meets no transaction, unless a write-back waits. */
  lemma StrayMeetsNothing(t: Tables, v: Option<Line>, l: LineNo, id: TxnID, addr: Addr, data: Data, fb: Option<TxnID>)
    requires forall k :: k in t.pending && EntryLine(t.pending[k]) == l ==> t.pending[k].state != WaitL1Data
    requires LineOf(addr) == l && FallbackOk(t, addr, fb) && id !in t.pending && id !in t.snoopToOrig
    ensures fb == None && RecvData(t, v, id, data, fb) == Out(t, [], [])
  {
    assert fb.Some? ==> AwaitsWriteOf(t, fb.value, addr);
  }

  /** Answers of snooped nodes on their way belong to live snoops. */
  lemma SnoopIsLive(t: Tables, v: Option<Line>, env: Env, l: LineNo, id: TxnID)
    requires Coherent(t, v, env, l) && id in env.snoops
    ensures id in t.snoopToOrig
  {
    hide CopiesOk, IdsOk, DataSnoopOk, PlainSnoopOk;
    assert LineFree(t, l) ==> FreeOk(v, env);
    if !LineFree(t, l) {
      var k :| k in t.pending && EntryLine(t.pending[k]) == l;
      assert InFlightOk(t, k, v, env);
    }
  }

  /** Where further beats are on their way no write-back waits. */
  lemma StraysMeanNoWriteBack(t: Tables, v: Option<Line>, env: Env, l: LineNo)
    requires Coherent(t, v, env, l) && env.strays != {}
    ensures forall k :: k in t.pending && EntryLine(t.pending[k]) == l ==> t.pending[k].state != WaitL1Data
  {
    hide CopiesOk, IdsOk, SnoopOk, FetchOk, FreeOk;
    assert forall k :: k in t.pending && EntryLine(t.pending[k]) == l ==> InFlightOk(t, k, v, env);
  }

  lemma DeadIsNotLive(t: Tables, id: TxnID)
    requires Consistent(t) && IsDead(t, id)
    ensures id !in t.pending && id !in t.snoopToOrig
  {
    hide MemEntryOk;
    assert id in t.pending ==> EntryOk(t, id);
    assert id in t.snoopToOrig ==> SnoopEntryOk(t, id);
  }

  /** A further beat does nothing. */
  lemma StrayDoesNothing(t: Tables, v: Option<Line>, env: Env, ev: Event, l: LineNo)
    requires DeliveryOk(t, v, env, ev, l) && ev.StrayBeat?
    ensures var m := MsgOf(env, ev).value;
            LineFor(t, m) == None && forall u: Option<Line> :: Step(t, u, m) == Out(t, [], [])
  {
    hide Consistent, Coherent, FallbackOk, OneTxnPerLine, RecvSnoopData, RecvWriteData, RecvMemData;
    StraysMeanNoWriteBack(t, v, env, l);
    CoherentIds(t, v, env, l);
    StrayIsOk(t, env, l, ev.stray);
    if ev.stray.ReadStray? { DeadIsNotLive(t, ev.id); }
    StrayMeetsNothing(t, v, l, ev.id, ev.stray.addr, ev.stray.data, ev.fb);
  }

  lemma StrayIsOk(t: Tables, env: Env, l: LineNo, stray: Stray)
    requires IdsOk(t, env, l) && stray in env.strays
    ensures StrayOk(t, stray, l)
  {
  }

  lemma StrayDelivered(t: Tables, v: Option<Line>, env: Env, ev: Event, l: LineNo)
    requires DeliveryOk(t, v, env, ev, l) && ev.StrayBeat?
    ensures DeliveredCoherent(t, v, env, ev, l)
  {
    hide ViewOps, Coherent, Consistent, FallbackOk, OneTxnPerLine, Step;
    StrayDoesNothing(t, v, env, ev, l);
    ViewShort(v, Touch, Touch, Touch, Touch);
    OneAction(Local(env, ev), SendReadNoSnp(0, 0));
    ShedStrays(t, v, env, Local(env, ev), l);
  }

  /** After its transaction the line is in order: only the requester can still hold a (clean) copy, and the answer
      carries the latest value. */
  lemma GrantedFree(pt: PendingTxn, data: Data, env: Env, env': Env)
    requires pt.target in {SC, UD} && data == env.latest && NoWriter(env) && env.copies.Keys <= {pt.req.src}
    requires forall x :: x in env.copies ==> env.copies[x].data == env.latest
    requires pt.req.opcode == ReadOnce ==> env.copies == map[]
    requires env.asked == Some(pt.req) && IsRead(pt.req.opcode)
    requires env' == env.(snoops := map[], fetches := {}, strays := env'.strays,
                          grant := Some(Grant(pt.req.src, pt.target, Some(data))))
    requires env.write == None && env.dbid == None
    ensures CopiesOk(Some(FinalLine(pt, data)), env') && FreeOk(Some(FinalLine(pt, data)), env')
  {
  }

  /** The tables when entry `k`, the only one of line `l`, is gone with all its snoops. */
  lemma RetiredIds(t: Tables, t': Tables, env: Env, env': Env, k: TxnID, l: LineNo)
    requires k in t.pending && EntryLine(t.pending[k]) == l && OneTxnPerLine(t) && IdsOk(t, env, l)
    requires t'.pending == Without(t.pending, k) && t'.nextSnoop == t.nextSnoop && t'.nextMem == t.nextMem
    requires forall id :: id in t'.snoopToOrig ==> id in t.snoopToOrig && t.snoopToOrig[id] != k
    requires env'.snoops == map[] && env'.fetches == {} && env'.asked == env.asked && env'.write == None
    requires forall stray :: stray in env'.strays ==> stray in env.strays || StrayOk(t', stray, l)
    ensures IdsOk(t', env', l) && LineFree(t', l)
  {
    forall stray | stray in env'.strays ensures StrayOk(t', stray, l) {
      assert stray in env.strays ==> StrayOk(t, stray, l);
    }
  }

  lemma FreeAgain(t: Tables, v: Option<Line>, env: Env, l: LineNo)
    requires CopiesOk(v, env) && FreeOk(v, env) && IdsOk(t, env, l) && LineFree(t, l)
    ensures Coherent(t, v, env, l)
  {
    hide CopiesOk, FreeOk, IdsOk;
  }

  /** The first beat for a data snoop finishes its transaction. */
  lemma BeatCompletes(t: Tables, v: Option<Line>, k: TxnID, id: TxnID, d: Data)
    requires id in t.snoopToOrig && t.snoopToOrig[id] == k && k in t.pending && id !in t.counted
    requires v.Some? && t.pending[k].target != I && IsRead(t.pending[k].req.opcode)
    requires t.pending[k].beats == 1 && t.pending[k].snoops == 1
    ensures var out, pt := RecvSnoopData(t, v, k, id, d), t.pending[k];
            && out.t.pending == Without(t.pending, k) && out.t.nextSnoop == t.nextSnoop && out.t.nextMem == t.nextMem
            && out.t.snoopToOrig == DropValue(t.snoopToOrig, k)
            && ViewOps(v, out.ops) == Some(FinalLine(pt, d)) && out.actions == [FinalAnswer(pt, d)]
  {
    hide ViewOps, FinalLine, FinalAnswer;
    var pt := t.pending[k];
    var pt' := pt.(beats := 0, snoops := 0);
    var t' := t.(pending := t.pending[k := pt'], counted := t.counted + {id} - {id});
    var v' := ApplyView(v, Fill(pt.target, d));
    CompletionLeaves(t', v', k);
    ViewFirst(v, Fill(pt.target, d), Complete(t', v', k).ops);
    assert Without(t'.pending, k) == Without(t.pending, k);
    assert FinalLine(pt', d) == FinalLine(pt, d) && FinalAnswer(pt', d) == FinalAnswer(pt, d) by {
      SameGrant(pt, pt', d);
    }
  }

  lemma SameGrant(pt: PendingTxn, pt': PendingTxn, d: Data)
    requires pt' == pt.(beats := pt'.beats, snoops := pt'.snoops)
    ensures FinalLine(pt', d) == FinalLine(pt, d) && FinalAnswer(pt', d) == FinalAnswer(pt, d)
  {
  }

  /** A snoop of the line whose id is live belongs to the transaction in flight on it. */
  lemma SnoopOwner(t: Tables, v: Option<Line>, env: Env, l: LineNo, id: TxnID)
    requires Consistent(t) && Coherent(t, v, env, l) && id in env.snoops && id in t.snoopToOrig
    ensures var k := t.snoopToOrig[id];
            && k in t.pending && EntryLine(t.pending[k]) == l && t.pending[k].state == WaitSnoopResp
            && SnoopOk(t.pending[k], SnoopsOf(t, k), t.counted * SnoopsOf(t, k), v, env)
            && id in SnoopsOf(t, k)
  {
    hide CopiesOk, FreeOk, SnoopOk;
    assert SnoopEntryOk(t, id);
    assert SnoopOn(t, id, l);
    assert InFlightOk(t, t.snoopToOrig[id], v, env);
  }

  lemma BeatIdInRange(t: Tables, env: Env, l: LineNo, id: TxnID)
    requires IdsOk(t, env, l) && id in env.snoops
    ensures SNOOP_ID_BASE <= id < t.nextSnoop
  {
  }

  lemma LiveBeat(t: Tables, v: Option<Line>, env: Env, ev: Event, l: LineNo)
    requires DeliveryOk(t, v, env, ev, l) && ev.SnoopBeat?
    ensures DeliveredCoherent(t, v, env, ev, l)
  {
    hide ViewOps, Consistent, FallbackOk, LineFree, CopiesOk, FreeOk, IdsOk, InFlightOk, RecvSnoopData, FinalLine,
         SnoopsOf, OneTxnPerLine;
    SnoopIsLive(t, v, env, l, ev.id);
    var id, k, d := ev.id, t.snoopToOrig[ev.id], env.snoops[ev.id].data;
    SnoopOwner(t, v, env, l, id);
    BeatIdInRange(t, env, l, id);
    var pt := t.pending[k];
    var id0 :| DataSnoopOk(pt, SnoopsOf(t, k), t.counted * SnoopsOf(t, k), v, env, id0);
    BeatCompletes(t, v, k, id, d);
    var out := RecvSnoopData(t, v, k, id, d);
    var env1 := Local(env, ev);
    OneAction(env1, FinalAnswer(pt, d));
    var env' := Absorb(env1, FinalAnswer(pt, d));
    GrantedFree(pt, d, env, env');
    RetiredIds(t, out.t, env, env', k, l);
    FreeAgain(out.t, Some(FinalLine(pt, d)), env', l);
  }

  /** One node less to wait for. */
  lemma AckCounts(t: Tables, v: Option<Line>, env: Env, ev: Event, l: LineNo, k: TxnID, pt: PendingTxn)
    requires DeliveryOk(t, v, env, ev, l) && ev.SnoopAck? && ev.id in t.snoopToOrig && k == t.snoopToOrig[ev.id]
    requires k in t.pending && pt == t.pending[k].(snoops := t.pending[k].snoops - 1)
    requires SnoopOk(t.pending[k], SnoopsOf(t, k), t.counted * SnoopsOf(t, k), v, env) && ev.id in SnoopsOf(t, k)
    ensures SnoopOk(pt, SnoopsOf(t, k), t.counted * SnoopsOf(t, k), v, Local(env, ev))
    ensures Finished(pt) ==> PlainSnoopOk(pt, v, Local(env, ev)) && Local(env, ev).snoops == map[]
  {
    hide Coherent, Consistent, SnoopsOf, OneTxnPerLine;
    var env', mine := Local(env, ev), SnoopsOf(t, k);
    assert env'.snoops.Keys == env.snoops.Keys - {ev.id};
    if pt.beats > 0 {
      var id :| DataSnoopOk(t.pending[k], mine, t.counted * mine, v, env, id);
      assert id == ev.id;
      assert DataSnoopOk(pt, mine, t.counted * mine, v, env', id);
    } else {
      forall x | x in env'.copies && x != pt.req.src ensures AskedFor(env', x) {
        assert AskedFor(env, x);
        var id :| id in env.snoops && env.snoops[id].Asked? && env.snoops[id].node == x;
        assert id in env'.snoops;
      }
      assert Finished(pt) ==> |env'.snoops.Keys| == 0;
    }
  }

  lemma EveryoneGone(pt: PendingTxn, v: Option<Line>, env: Env)
    requires PlainSnoopOk(pt, v, env) && env.snoops == map[]
    ensures env.copies.Keys <= {pt.req.src} && NoWriter(env) && pt.target == UD && Settled(v, env)
  {
  }

  lemma LastAck(t: Tables, v: Option<Line>, env: Env, ev: Event, l: LineNo, k: TxnID, pt: PendingTxn)
    requires DeliveryOk(t, v, env, ev, l) && ev.SnoopAck? && ev.id in t.snoopToOrig && k == t.snoopToOrig[ev.id]
    requires k in t.pending && EntryLine(t.pending[k]) == l && pt == t.pending[k].(snoops := t.pending[k].snoops - 1)
             && Finished(pt)
    requires SnoopOk(pt, SnoopsOf(t, k), t.counted * SnoopsOf(t, k), v, Local(env, ev)) && v.Some?
    requires PlainSnoopOk(pt, v, Local(env, ev)) && Local(env, ev).snoops == map[]
    ensures DeliveredCoherent(t, v, env, ev, l)
  {
    hide ViewOps, Consistent, LineFree, FreeOk, IdsOk, InFlightOk, FinalLine, SnoopsOf, OneTxnPerLine, PlainSnoopOk,
         CopiesOk, Settled;
    var env1 := Local(env, ev);
    EveryoneGone(pt, v, env1);
    CompletionLeaves(t.(pending := t.pending[k := pt]), v, k);
    var out := Complete(t.(pending := t.pending[k := pt]), v, k);
    var d := v.value.data;
    OneAction(env1, FinalAnswer(pt, d));
    var env' := Absorb(env1, FinalAnswer(pt, d));
    assert env1.latest == d && forall x :: x in env1.copies ==> env1.copies[x].data == env1.latest by {
      EveryoneUpToDate(v, env, env1);
    }
    GrantedFree(pt, d, env1, env');
    assert Without(t.pending[k := pt], k) == Without(t.pending, k);
    RetiredIds(t, out.t, env, env', k, l);
    FreeAgain(out.t, Some(FinalLine(pt, d)), env', l);
  }

  lemma EveryoneUpToDate(v: Option<Line>, env: Env, env': Env)
    requires CopiesOk(v, env) && env'.copies == env.copies && env'.latest == env.latest && v.Some? && NoWriter(env')
             && Settled(v, env')
    ensures env'.latest == v.value.data && forall x :: x in env'.copies ==> env'.copies[x].data == env'.latest
  {
  }

  lemma MiddleAck(t: Tables, v: Option<Line>, env: Env, ev: Event, l: LineNo, k: TxnID, pt: PendingTxn)
    requires DeliveryOk(t, v, env, ev, l) && ev.SnoopAck? && ev.id in t.snoopToOrig && k == t.snoopToOrig[ev.id]
    requires k in t.pending && EntryLine(t.pending[k]) == l && t.pending[k].state == WaitSnoopResp
    requires pt == t.pending[k].(snoops := t.pending[k].snoops - 1) && !Finished(pt)
    requires SnoopOk(pt, SnoopsOf(t, k), t.counted * SnoopsOf(t, k), v, Local(env, ev))
    ensures DeliveredCoherent(t, v, env, ev, l)
  {
    hide ViewOps, Consistent, SnoopOk, CopiesOk, FreeOk;
    var t', env' := t.(pending := t.pending[k := pt]), Local(env, ev);
    assert SnoopsOf(t', k) == SnoopsOf(t, k);
    OneAction(env', SendReadNoSnp(0, 0));
    ViewShort(v, Touch, Touch, Touch, Touch);
    FreeCopies(v, env, env');
    forall id | id in env'.snoops ensures id in t'.snoopToOrig ==> SnoopOn(t', id, l) {
      assert id in t.snoopToOrig ==> SnoopOn(t, id, l);
    }
    OnlyEntry(t', v, env', l, k);
  }

  lemma AckDelivered(t: Tables, v: Option<Line>, env: Env, ev: Event, l: LineNo)
    requires DeliveryOk(t, v, env, ev, l) && ev.SnoopAck?
    ensures DeliveredCoherent(t, v, env, ev, l)
  {
    hide ViewOps, Coherent, Consistent, FallbackOk, LineFree, DeliveredCoherent, PlainSnoopOk, DataSnoopOk, SnoopsOf,
         OneTxnPerLine, Finished;
    SnoopIsLive(t, v, env, l, ev.id);
    var k := t.snoopToOrig[ev.id];
    SnoopOwner(t, v, env, l, ev.id);
    var pt := t.pending[k].(snoops := t.pending[k].snoops - 1);
    AckCounts(t, v, env, ev, l, k, pt);
    if Finished(pt) { LastAck(t, v, env, ev, l, k, pt); } else { MiddleAck(t, v, env, ev, l, k, pt); }
  }

  /** Memory reads on their way are those of the line's transaction. */
  lemma FetchIsLive(t: Tables, v: Option<Line>, env: Env, l: LineNo, id: TxnID)
    requires Coherent(t, v, env, l) && id in env.fetches
    ensures id in t.pending
  {
    hide CopiesOk, IdsOk, DataSnoopOk, PlainSnoopOk;
    assert LineFree(t, l) ==> FreeOk(v, env);
    if !LineFree(t, l) {
      var k :| k in t.pending && EntryLine(t.pending[k]) == l;
      assert InFlightOk(t, k, v, env);
    }
  }

  lemma FetchOwner(t: Tables, v: Option<Line>, env: Env, l: LineNo, id: TxnID)
    requires Consistent(t) && Coherent(t, v, env, l) && id in env.fetches && id in t.pending
    ensures EntryLine(t.pending[id]) == l && t.pending[id].state == WaitMemData && id !in t.snoopToOrig
    ensures FetchOk(id, t.pending[id], v, env) && t.pending[id].target in {SC, UD}
    ensures forall j :: j in t.snoopToOrig ==> t.snoopToOrig[j] != id
  {
    hide CopiesOk, FreeOk, SnoopOk, FetchOk, WriteBackOk, MemEntryOk;
    assert EntryOk(t, id) && InFlightOk(t, id, v, env);
    assert forall j :: j in t.snoopToOrig ==> SnoopEntryOk(t, j);
  }

  lemma FetchedFinal(pt: PendingTxn, d: Data)
    ensures Line(pt.target, d, SharersOf(None) + FinalSharers(pt)) == FinalLine(pt, d)
  {
    assert {} + FinalSharers(pt) == FinalSharers(pt);
  }

  lemma MemBeatDelivered(t: Tables, v: Option<Line>, env: Env, ev: Event, l: LineNo)
    requires DeliveryOk(t, v, env, ev, l) && ev.MemBeat?
    ensures DeliveredCoherent(t, v, env, ev, l)
  {
    hide ViewOps, Coherent, Consistent, FallbackOk, LineFree, CopiesOk, FreeOk, IdsOk, FinalLine, OneTxnPerLine;
    var id, d, env1 := ev.id, env.memory, Local(env, ev);
    FetchIsLive(t, v, env, l, id);
    FetchOwner(t, v, env, l, id);
    var pt := t.pending[id];
    MemDataLeaves(t, v, id, d);
    FetchedFinal(pt, d);
    OneAction(env1, FinalAnswer(pt, d));
    var env', t' := Absorb(env1, FinalAnswer(pt, d)), RecvMemData(t, v, id, d).t;
    GrantedFree(pt, d, env, env');
    CoherentIds(t, v, env, l);
    FetchIdInRange(t, env, l, id);
    RetiredIds(t, t', env, env', id, l);
    FreeAgain(t', Some(FinalLine(pt, d)), env', l);
  }

  lemma FetchIdInRange(t: Tables, env: Env, l: LineNo, id: TxnID)
    requires IdsOk(t, env, l) && id in env.fetches
    ensures MEM_ID_BASE <= id < t.nextMem
  {
  }

  lemma CoherentIds(t: Tables, v: Option<Line>, env: Env, l: LineNo)
    requires Coherent(t, v, env, l)
    ensures IdsOk(t, env, l) && CopiesOk(v, env)
  {
  }

  lemma WriteOwner(t: Tables, v: Option<Line>, env: Env, l: LineNo, k: TxnID)
    requires Consistent(t) && Coherent(t, v, env, l) && env.write.Some? && k in t.pending
             && EntryLine(t.pending[k]) == l
    ensures t.pending[k].state == WaitL1Data && WriteBackOk(t.pending[k], v, env)
    ensures AwaitsWriteOf(t, k, env.write.value.addr)
    ensures forall j :: j in t.snoopToOrig ==> t.snoopToOrig[j] != k
  {
    hide CopiesOk, FreeOk, DataSnoopOk, PlainSnoopOk, MemEntryOk;
    assert InFlightOk(t, k, v, env);
    assert forall j :: j in t.snoopToOrig ==> SnoopEntryOk(t, j);
  }

  /** Write data installs the value last written. */
  lemma WriteDataFree(pt: PendingTxn, v: Option<Line>, env: Env, env': Env, v': Option<Line>)
    requires WriteBackOk(pt, v, env) && env.write.Some? && env' == env.(write := None, strays := env'.strays)
    requires v' == Some(Line(UD, env.latest, SharersOf(v) + {pt.req.src}))
    ensures CopiesOk(v', env') && FreeOk(v', env')
  {
    assert v'.value.sharers == {pt.req.src};
  }

  /** Write data on its way is awaited by the line's transaction, and reaches it. */
  lemma WriteBeatRoute(t: Tables, v: Option<Line>, env: Env, ev: Event, l: LineNo)
    requires DeliveryOk(t, v, env, ev, l) && ev.WriteBeat?
    ensures var r := DataRoute(t, ev.id, ev.fb);
            r.WriteBack? && r.key in t.pending && EntryLine(t.pending[r.key]) == l
  {
    hide CopiesOk, DataSnoopOk, PlainSnoopOk, EntryOk, MemEntryOk, FetchOk;
    var addr := env.write.value.addr;
    assert LineOf(addr) == l;
    assert !LineFree(t, l);
    var k :| k in t.pending && EntryLine(t.pending[k]) == l;
    WriteOwner(t, v, env, l, k);
    assert ev.id in t.snoopToOrig ==> SnoopEntryOk(t, ev.id);
    assert ev.fb.Some? ==> AwaitsWriteOf(t, ev.fb.value, addr);
    RoutingIsExact(t, ev.id, ev.fb);
  }

  lemma WriteBeatDelivered(t: Tables, v: Option<Line>, env: Env, ev: Event, l: LineNo)
    requires DeliveryOk(t, v, env, ev, l) && ev.WriteBeat?
    ensures DeliveredCoherent(t, v, env, ev, l)
  {
    hide ViewOps, Coherent, Consistent, FallbackOk, LineFree, CopiesOk, FreeOk, IdsOk, OneTxnPerLine, DataRoute;
    var env' := Local(env, ev);
    WriteBeatRoute(t, v, env, ev, l);
    OneAction(env', SendReadNoSnp(0, 0));
    var k := DataRoute(t, ev.id, ev.fb).key;
    WriteOwner(t, v, env, l, k);
    var pt, t' := t.pending[k], RecvWriteData(t, k, env.latest).t;
    WriteDataLeaves(t, v, k, env.latest);
    var v' := Some(Line(UD, env.latest, SharersOf(v) + {pt.req.src}));
    WriteDataFree(pt, v, env, env', v');
    CoherentIds(t, v, env, l);
    WriteAddr(t, env, l);
    RetiredIds(t, t', env, env', k, l);
    FreeAgain(t', v', env', l);
  }

  lemma WriteAddr(t: Tables, env: Env, l: LineNo)
    requires IdsOk(t, env, l) && env.write.Some?
    ensures LineOf(env.write.value.addr) == l
  {
  }

  lemma DeliveryStaysCoherent(t: Tables, v: Option<Line>, env: Env, ev: Event, l: LineNo)
    requires DeliveryOk(t, v, env, ev, l)
    ensures DeliveredCoherent(t, v, env, ev, l)
  {
    hide DeliveryOk, DeliveredCoherent;
    DeliveryKinds(t, v, env, ev, l);
    if ev.SnoopBeat? {
      LiveBeat(t, v, env, ev, l);
    } else if ev.StrayBeat? {
      StrayDelivered(t, v, env, ev, l);
    } else if ev.SnoopAck? {
      AckDelivered(t, v, env, ev, l);
    } else if ev.MemBeat? {
      MemBeatDelivered(t, v, env, ev, l);
    } else {
      WriteBeatDelivered(t, v, env, ev, l);
    }
  }

  lemma DeliveryKinds(t: Tables, v: Option<Line>, env: Env, ev: Event, l: LineNo)
    requires DeliveryOk(t, v, env, ev, l)
    ensures ev.SnoopBeat? || ev.SnoopAck? || ev.MemBeat? || ev.WriteBeat? || ev.StrayBeat?
  {
    hide Consistent, Coherent, OneTxnPerLine;
  }

  // ---------- the whole world ----------

  /** Every line is coherent, and the working set fits the cache. */
  ghost predicate Safe(w: World) {
    && Roomy(w.e, w.envs.Keys) && OneTxnPerLine(w.e.t)
    && (forall l :: l in w.envs ==> Coherent(w.e.t, View(w.e.store, l), w.envs[l], l))
  }

  /** At most one node may write a line, and then no other node holds it at all; every copy, and every answer on its
      way, is the value last written. */
  ghost predicate SingleWriter(env: Env) {
    && (forall x, y :: CanWrite(env, x) && y in env.copies ==> x == y)
    && (forall x :: x in env.copies ==> env.copies[x].data == env.latest)
    && (env.grant.Some? ==> env.grant.value.payload == Some(env.latest))
  }

  lemma SafeMeansSingleWriter(w: World, l: LineNo)
    requires Safe(w) && l in w.envs
    ensures SingleWriter(w.envs[l])
  {
    hide Fits, HoldsOnly, View, OneTxnPerLine, Consistent, SnoopsOf, DataSnoopOk, PlainSnoopOk;
    var t, v, env := w.e.t, View(w.e.store, l), w.envs[l];
    assert Coherent(t, v, env, l);
    if !LineFree(t, l) {
      var k :| k in t.pending && EntryLine(t.pending[k]) == l;
      assert InFlightOk(t, k, v, env);
    }
  }

  /** A delivery of line `l` is applied to the transaction of line `l`, or to none, and then it changes nothing. */
  lemma DeliveryReachesItsLine(t: Tables, v: Option<Line>, env: Env, ev: Event, l: LineNo)
    requires DeliveryOk(t, v, env, ev, l)
    ensures var m := MsgOf(env, ev).value;
            LineFor(t, m) == Some(l) || (LineFor(t, m) == None && forall u :: Step(t, u, m) == Out(t, [], []))
  {
    hide ViewOps, ApplyView, Consistent, Coherent, FallbackOk, OneTxnPerLine, Complete, SnoopOk, FetchOk, WriteBackOk,
         LineFree;
    if ev.SnoopBeat? || ev.SnoopAck? {
      SnoopIsLive(t, v, env, l, ev.id);
      SnoopOwner(t, v, env, l, ev.id);
    } else if ev.MemBeat? {
      FetchIsLive(t, v, env, l, ev.id);
      FetchOwner(t, v, env, l, ev.id);
    } else if ev.StrayBeat? {
      StrayDoesNothing(t, v, env, ev, l);
    } else {
      WriteBeatRoute(t, v, env, ev, l);
    }
  }

  // ---------- steps of the world ----------

  lemma EngineEventIsWithin(w: World, ev: Event)
    requires Safe(w) && Allowed(w, ev) && MsgOf(w.envs[EventLine(ev)], ev).Some?
    ensures Within(w.e, MsgOf(w.envs[EventLine(ev)], ev).value, w.envs.Keys)
  {
    hide Roomy, Coherent, OneTxnPerLine, Admits;
  }

  lemma AskIsOk(w: World, ev: Event)
    requires Safe(w) && Allowed(w, ev) && ev.Ask?
    ensures var l := EventLine(ev); AskOk(w.e.t, View(w.e.store, l), w.envs[l], ev.txn)
    ensures LineFor(w.e.t, Request(ev.txn)) == Some(EventLine(ev))
            && ViewFor(w.e, Request(ev.txn)) == View(w.e.store, EventLine(ev))
  {
    hide Fits, HoldsOnly, CopiesOk, FreeOk, IdsOk, InFlightOk, Consistent, View, OneTxnPerLine, RequestOk;
    var l := EventLine(ev);
    assert Coherent(w.e.t, View(w.e.store, l), w.envs[l], l);
    IdleIsFree(w.e.t, View(w.e.store, l), w.envs[l], l);
  }

  lemma DeliveryIsOk(w: World, ev: Event)
    requires Safe(w) && Allowed(w, ev) && MsgOf(w.envs[EventLine(ev)], ev).Some? && !ev.Ask?
    ensures var l := EventLine(ev); DeliveryOk(w.e.t, View(w.e.store, l), w.envs[l], ev, l)
  {
    hide Fits, HoldsOnly, Coherent, Consistent, View, OneTxnPerLine, FallbackOk;
    ViewIsNormal(w.e.store, EventLine(ev));
  }

  /** The event's own line stays coherent. */
  lemma OwnLineAfter(w: World, ev: Event)
    requires Safe(w) && Allowed(w, ev) && MsgOf(w.envs[EventLine(ev)], ev).Some?
    ensures var l := EventLine(ev); Coherent(After(w, ev).e.t, View(After(w, ev).e.store, l), After(w, ev).envs[l], l)
  {
    hide Roomy, Coherent, Consistent, View, OneTxnPerLine, Step, ApplyOps, ViewOps, AbsorbAll, LineFor, DeliveryOk,
         AskOk, Admits, Local, WriteIdOk;
    var l := EventLine(ev);
    var env := w.envs[l];
    var t, v, m := w.e.t, View(w.e.store, l), MsgOf(env, ev).value;
    EngineEventIsWithin(w, ev);
    AdmitsStep(w, ev);
    RoomyStepViews(w.e, m, w.envs.Keys, l);
    if ev.Ask? {
      AskIsOk(w, ev);
      AskStaysCoherent(t, v, env, ev.txn);
      AskStep(t, v, env, ev);
    } else {
      DeliveryIsOk(w, ev);
      DeliveryReachesItsLine(t, v, env, ev, l);
      DeliveryStaysCoherent(t, v, env, ev, l);
      ViewShort(v, Touch, Touch, Touch, Touch);
    }
  }

  lemma AdmitsStep(w: World, ev: Event)
    requires Allowed(w, ev) && MsgOf(w.envs[EventLine(ev)], ev).Some?
    ensures var m := MsgOf(w.envs[EventLine(ev)], ev).value; Admits(w.e, m)
  {
    hide Admits;
  }

  lemma AskStep(t: Tables, v: Option<Line>, env: Env, ev: Event)
    requires ev.Ask? && EventOk(env, ev)
    ensures Step(t, v, Request(ev.txn)) == RecvRequest(t, v, ev.txn) && Local(env, ev) == env.(asked := Some(ev.txn))
    ensures MsgOf(env, ev) == Some(Request(ev.txn))
  {
    hide RecvRequest;
  }

  lemma EventLineFor(w: World, ev: Event)
    requires Safe(w) && Allowed(w, ev) && MsgOf(w.envs[EventLine(ev)], ev).Some?
    ensures LineFor(w.e.t, MsgOf(w.envs[EventLine(ev)], ev).value) in {Some(EventLine(ev)), None}
  {
    hide Safe, View, LineFor, DeliveryOk, AskOk;
    var l := EventLine(ev);
    if ev.Ask? {
      AskIsOk(w, ev);
    } else {
      SafeStore(w);
      DeliveryIsOk(w, ev);
      DeliveryReachesItsLine(w.e.t, View(w.e.store, l), w.envs[l], ev, l);
    }
  }

  lemma SafeStore(w: World)
    requires Safe(w)
    ensures ValidStore(w.e.store) && Consistent(w.e.t) && w.e.t.nextSnoop <= MEM_ID_BASE
    ensures Roomy(w.e, w.envs.Keys) && OneTxnPerLine(w.e.t)
  {
  }

  /** All other lines stay coherent. */
  lemma OtherLineAfter(w: World, ev: Event, j: LineNo)
    requires Safe(w) && Allowed(w, ev) && MsgOf(w.envs[EventLine(ev)], ev).Some? && j in w.envs && j != EventLine(ev)
    ensures Coherent(After(w, ev).e.t, View(After(w, ev).e.store, j), After(w, ev).envs[j], j)
  {
    hide Roomy, Coherent, Consistent, View, OneTxnPerLine, Step, ApplyOps, ViewOps, AbsorbAll, LineFor, Local, MsgOk,
         WriteIdOk, SameSlice;
    var m := MsgOf(w.envs[EventLine(ev)], ev).value;
    SafeStore(w);
    EngineEventIsWithin(w, ev);
    EventLineFor(w, ev);
    RoomyStepViews(w.e, m, w.envs.Keys, j);
    StepKeepsSlice(w.e.t, ViewFor(w.e, m), m, j);
    OtherLineStaysCoherent(w.e.t, StepOut(w.e, m).t, View(w.e.store, j), w.envs[j], j);
  }

  lemma TablesAfter(w: World, ev: Event)
    requires Safe(w) && Allowed(w, ev) && MsgOf(w.envs[EventLine(ev)], ev).Some?
    ensures Roomy(After(w, ev).e, After(w, ev).envs.Keys) && OneTxnPerLine(After(w, ev).e.t)
  {
    hide Coherent, Consistent, View, OneTxnPerLine, Step, ApplyOps, AbsorbAll, LineFor, Local, MsgOk, WriteIdOk,
         AskOk, Roomy;
    var m := MsgOf(w.envs[EventLine(ev)], ev).value;
    SafeStore(w);
    EngineEventIsWithin(w, ev);
    NextKeepsRoomy(w.e, m, w.envs.Keys);
    if ev.Ask? { AskedLineFree(w, ev); }
    OneTxnPerLineKept(w.e.t, ViewFor(w.e, m), m);
    assert After(w, ev).envs.Keys == w.envs.Keys;
  }

  lemma AskedLineFree(w: World, ev: Event)
    requires Safe(w) && Allowed(w, ev) && ev.Ask?
    ensures LineFree(w.e.t, EventLine(ev)) && MsgOf(w.envs[EventLine(ev)], ev) == Some(Request(ev.txn))
  {
    hide Safe, View, LineFree, Admits;
    AskIsOk(w, ev);
    assert AskOk(w.e.t, View(w.e.store, EventLine(ev)), w.envs[EventLine(ev)], ev.txn);
  }

  lemma SilentAfter(w: World, ev: Event)
    requires Safe(w) && Allowed(w, ev) && MsgOf(w.envs[EventLine(ev)], ev) == None
    ensures Safe(After(w, ev))
  {
    hide Roomy, Coherent, View, OneTxnPerLine, Local, MsgOf, EventOk, WriteIdOk;
    SafeStore(w);
    var l := EventLine(ev);
    var w' := After(w, ev);
    assert w'.envs.Keys == w.envs.Keys;
    SilentStaysCoherent(w.e.t, View(w.e.store, l), w.envs[l], ev, l);
    assert forall j :: j in w.envs && j != l ==> w'.envs[j] == w.envs[j];
  }

  lemma StaysSafe(w: World, ev: Event)
    requires Safe(w) && Allowed(w, ev)
    ensures Safe(After(w, ev))
  {
    hide Roomy, Coherent, View, OneTxnPerLine, After, EventOk, WriteIdOk, Admits, MsgOf;
    if MsgOf(w.envs[EventLine(ev)], ev) == None {
      SilentAfter(w, ev);
    } else {
      TablesAfter(w, ev);
      AfterStore(w, ev);
      var w' := After(w, ev);
      forall j | j in w'.envs ensures Coherent(w'.e.t, View(w'.e.store, j), w'.envs[j], j) {
        if j == EventLine(ev) { OwnLineAfter(w, ev); } else { OtherLineAfter(w, ev, j); }
      }
    }
  }

  lemma AfterStore(w: World, ev: Event)
    requires Allowed(w, ev)
    ensures ValidStore(After(w, ev).e.store) && After(w, ev).envs.Keys == w.envs.Keys
  {
    hide Step, ApplyOps, AbsorbAll, Local, MsgOf, EventOk, WriteIdOk;
  }

  // ---------- answers ----------

  lemma {:induction false} AnswerBecomesGrant(env: Env, actions: seq<Action>)
    ensures (exists i :: 0 <= i < |actions| && actions[i].SendCompData?) ==> AbsorbAll(env, actions).grant.Some?
    ensures env.grant.Some? ==> AbsorbAll(env, actions).grant.Some?
  {
    if actions != [] {
      var n := |actions| - 1;
      AnswerBecomesGrant(env, actions[..n]);
      assert forall i :: 0 <= i < n ==> actions[..n][i] == actions[i];
    }
  }

  /** While an answer is on its way, the cache itself holds the latest value. */
  lemma GrantMeansCacheIsLatest(t: Tables, v: Option<Line>, env: Env, l: LineNo)
    requires Coherent(t, v, env, l) && env.grant.Some?
    ensures v.Some? && v.value.data == env.latest && env.grant.value.payload == Some(env.latest)
  {
    hide CopiesOk, IdsOk, SnoopsOf, DataSnoopOk, PlainSnoopOk;
    forall k | k in t.pending ensures EntryLine(t.pending[k]) != l {
      assert EntryLine(t.pending[k]) == l ==> InFlightOk(t, k, v, env);
    }
  }

  /** Every CompData the engine sends carries the value last written to its line. */
  lemma AnswersAreLatest(w: World, ev: Event)
    requires Safe(w) && Allowed(w, ev) && MsgOf(w.envs[EventLine(ev)], ev).Some?
    ensures var l, actions := EventLine(ev), StepOut(w.e, MsgOf(w.envs[EventLine(ev)], ev).value).actions;
            forall i :: 0 <= i < |actions| && actions[i].SendCompData? ==>
                actions[i].payload == Some(After(w, ev).envs[l].latest)
  {
    hide Roomy, Coherent, View, OneTxnPerLine, Step, ApplyOps, AbsorbAll, Local, WriteIdOk, LineFor, Consistent,
         MsgOk, AllTell, Aborts;
    var l := EventLine(ev);
    var m := MsgOf(w.envs[l], ev).value;
    var actions, w' := StepOut(w.e, m).actions, After(w, ev);
    SafeStore(w);
    EngineEventIsWithin(w, ev);
    EventLineFor(w, ev);
    StepLosesNothing(w.e, m, w.envs.Keys);
    OwnLineAfter(w, ev);
    AnswerBecomesGrant(Local(w.envs[l], ev), actions);
    if exists i :: 0 <= i < |actions| && actions[i].SendCompData? {
      GrantMeansCacheIsLatest(w'.e.t, View(w'.e.store, l), w'.envs[l], l);
      TellsLatest(actions, View(w'.e.store, l));
    }
  }

  lemma TellsLatest(actions: seq<Action>, v: Option<Line>)
    requires AllTell(actions, v) && v.Some?
    ensures forall i :: 0 <= i < |actions| && actions[i].SendCompData? ==> actions[i].payload == Some(v.value.data)
  {
    assert forall i :: 0 <= i < |actions| ==> TellsLine(actions[i], v);
  }

  // ---------- runs ----------

  /** The cache is empty, nothing is on its way, no node holds anything. */
  ghost predicate Fresh(w: World) {
    && ValidStore(w.e.store) && w.e.t == INITIAL_TABLES && Fits(w.e.store, w.envs.Keys)
    && (forall l: LineNo :: View(w.e.store, l) == None)
    && (forall l :: l in w.envs ==>
          Idle(w.envs[l]) && w.envs[l].strays == {} && w.envs[l].copies == map[]
            && w.envs[l].latest == w.envs[l].memory)
  }

  lemma FreshIsSafe(w: World)
    requires Fresh(w)
    ensures Safe(w)
  {
    hide Fits, View;
    EmptyIsRoomy(w.e, w.envs.Keys);
    forall l | l in w.envs ensures Coherent(w.e.t, View(w.e.store, l), w.envs[l], l) {
      assert View(w.e.store, l) == None;
    }
  }

  ghost predicate IsWorldRun(ws: seq<World>, evs: seq<Event>) {
    && |ws| == |evs| + 1 && Fresh(ws[0])
    && (forall i :: 0 <= i < |evs| ==> Allowed(ws[i], evs[i]) && ws[i + 1] == After(ws[i], evs[i]))
  }

  lemma {:induction false} RunIsSafe(ws: seq<World>, evs: seq<Event>, i: nat)
    requires IsWorldRun(ws, evs) && i <= |evs|
    ensures Safe(ws[i])
  {
    hide Safe, Allowed, After, Fresh;
    if i == 0 {
      FreshIsSafe(ws[0]);
    } else {
      RunIsSafe(ws, evs, i - 1);
      StaysSafe(ws[i - 1], evs[i - 1]);
    }
  }

  /** The coherence theorem. In every state of every run each line has a single writer or only readers, every copy
      holds the value last written, and every answer the engine sends carries that value. */
  lemma RunIsCoherent(ws: seq<World>, evs: seq<Event>, i: nat, l: LineNo)
    requires IsWorldRun(ws, evs) && i <= |evs| && l in ws[i].envs
    ensures SingleWriter(ws[i].envs[l])
    ensures i < |evs| && EventLine(evs[i]) == l ==>
              (Allowed(ws[i], evs[i]) && var m := MsgOf(ws[i].envs[l], evs[i]);
               m.Some? ==> var actions := StepOut(ws[i].e, m.value).actions;
               forall j :: 0 <= j < |actions| && actions[j].SendCompData? ==>
                   actions[j].payload == Some(ws[i + 1].envs[l].latest))
  {
    hide Safe, After, Fresh, SingleWriter, StepOut, EventOk, MsgOf, Admits;
    RunIsSafe(ws, evs, i);
    SafeMeansSingleWriter(ws[i], l);
    if i < |evs| && EventLine(evs[i]) == l {
      assert Allowed(ws[i], evs[i]);
      if MsgOf(ws[i].envs[l], evs[i]).Some? { AnswersAreLatest(ws[i], evs[i]); }
    }
  }
}
