/** Every line settles: as long as messages about it are on their way one of them can be delivered, each delivery leaves
    less work, and when none is left the line is idle, unless its data snoop has been answered without data. */
module Progress {
  import opened ChiTypes
  import opened CacheSets
  import opened CacheStore
  import opened EngineSpec
  import opened EngineTables
  import opened Directory
  import opened SnoopBarrier
  import opened WorkingSet
  import opened RequesterWorld
  import opened Coherence

  /** An event that takes a message about the line off its way for good, or hands over what a node still owes. */
  predicate Settles(ev: Event) {
    match ev
    case SendWriteData(_) => true
    case AnswerSnoop(_, _, _) => true
    case SnoopBeat(_, _, _, _, last) => last
    case SnoopAck(_, _) => true
    case MemBeat(_, _, _, _, last) => last
    case WriteBeat(_, _, _, last) => last
    case StrayBeat(_, _, _, _, last) => last
    case Receive(_) => true
    case _ => false
  }

  function AskedIds(env: Env): set<TxnID> { set id | id in env.snoops && env.snoops[id].Asked? }

  /** The work left on a line: what is on its way, and what will follow from it. */
  function Work(env: Env): nat {
    2 * |env.snoops.Keys| + |AskedIds(env)| + 2 * |env.fetches| + |env.strays|
    + (if env.write.Some? then 1 else 0) + (if env.grant.Some? then 1 else 0)
    + (if env.asked.Some? && env.asked.value.opcode == WriteBackFull then 2 else 0)
  }

  // ---------- each settling event leaves less work ----------

  lemma OneLessOf<T>(s: set<T>, x: T)
    requires x in s
    ensures |s - {x}| == |s| - 1
  {
  }

  /** The nodes' and memory's part of a settling event. */
  lemma LocalLowersWork(env: Env, ev: Event)
    requires EventOk(env, ev) && Settles(ev)
    requires ev.Receive? ==> env.asked.value.opcode != WriteBackFull
    ensures Work(Local(env, ev)) < Work(env)
    ensures ev.SnoopBeat? || ev.SnoopAck? || ev.MemBeat? ==> Work(Local(env, ev)) + 1 < Work(env)
  {
    hide Work, AskedIds;
    var env' := Local(env, ev);
    match ev
    case AnswerSnoop(_, id, _) => SnoopAnswered(env, env', id);
    case SnoopBeat(_, id, _, _, _) => SnoopGone(env, env', id);
    case SnoopAck(_, id) => SnoopGone(env, env', id);
    case MemBeat(_, id, _, _, _) =>
      assert env'.strays == env.strays;
      FetchGone(env, env', id);
    case StrayBeat(_, stray, _, _, _) => StrayGone(env, env', stray);
    case WriteBeat(_, _, _, _) =>
      assert env'.strays == env.strays;
      WriteGone(env, env');
    case SendWriteData(_) => WriteSent(env, env');
    case Receive(_) => GrantGone(env, env');
    case _ =>
  }

  lemma SnoopAnswered(env: Env, env': Env, id: TxnID)
    requires id in env.snoops && env.snoops[id].Asked?
    requires env' == env.(snoops := env'.snoops, copies := env'.copies) && id in env'.snoops
    requires !env'.snoops[id].Asked?
    requires env'.snoops == env.snoops[id := env'.snoops[id]]
    ensures Work(env') + 1 == Work(env)
  {
    assert env'.snoops.Keys == env.snoops.Keys && AskedIds(env') == AskedIds(env) - {id};
    OneLessOf(AskedIds(env), id);
  }

  lemma FetchGone(env: Env, env': Env, id: TxnID)
    requires id in env.fetches && env' == env.(fetches := env.fetches - {id})
    ensures Work(env') + 2 == Work(env)
  {
    assert AskedIds(env') == AskedIds(env);
    OneLessOf(env.fetches, id);
  }

  lemma StrayGone(env: Env, env': Env, stray: Stray)
    requires stray in env.strays && env' == env.(strays := env.strays - {stray})
    ensures Work(env') + 1 == Work(env)
  {
    assert AskedIds(env') == AskedIds(env);
    OneLessOf(env.strays, stray);
  }

  lemma WriteGone(env: Env, env': Env)
    requires env.write.Some? && env' == env.(write := None)
    ensures Work(env') + 1 == Work(env)
  {
    assert AskedIds(env') == AskedIds(env);
  }

  /** The write-back's two pending steps become one message. */
  lemma WriteSent(env: Env, env': Env)
    requires env.asked.Some? && env.asked.value.opcode == WriteBackFull && env'.asked == None && env'.write.Some?
    requires env' == env.(asked := None, dbid := None, copies := env'.copies, write := env'.write)
    ensures Work(env') < Work(env)
  {
    assert AskedIds(env') == AskedIds(env);
  }

  lemma GrantGone(env: Env, env': Env)
    requires env.asked.Some? && env.asked.value.opcode != WriteBackFull && env.grant.Some?
    requires env' == env.(asked := None, grant := None, copies := env'.copies)
    ensures Work(env') + 1 == Work(env)
  {
    assert AskedIds(env') == AskedIds(env);
  }

  lemma SnoopGone(env: Env, env': Env, id: TxnID)
    requires id in env.snoops && !env.snoops[id].Asked?
    requires env' == env.(snoops := env.snoops - {id}, strays := env'.strays) && env'.strays == env.strays
    ensures Work(env') + 2 == Work(env)
  {
    assert env'.snoops.Keys == env.snoops.Keys - {id} && AskedIds(env') == AskedIds(env);
    OneLessOf(env.snoops.Keys, id);
  }

  /** A delivery answers at most one request and starts nothing new. */
  lemma DeliveryAnswersOnce(t: Tables, v: Option<Line>, m: Msg)
    requires !m.Request? && (m.DataBeat? && m.fb.Some? ==> m.fb.value in t.pending)
    ensures var actions := Step(t, v, m).actions;
            actions == [] || (|actions| == 1 && (actions[0].SendCompData? || actions[0].SendComp?))
  {
    hide ViewOps, ApplyView, Finished;
  }

  lemma AnswerAddsLittle(env: Env, actions: seq<Action>)
    requires actions == [] || (|actions| == 1 && (actions[0].SendCompData? || actions[0].SendComp?))
    ensures Work(AbsorbAll(env, actions)) <= Work(env) + |actions|
  {
    if actions != [] {
      assert actions == [actions[0]];
      OneAction(env, actions[0]);
      var env' := Absorb(env, actions[0]);
      assert env'.snoops == env.snoops && AskedIds(env') == AskedIds(env);
    }
  }

  /** Write data and further beats are answered by nothing. */
  lemma QuietBeats(w: World, ev: Event)
    requires Safe(w) && Allowed(w, ev) && (ev.WriteBeat? || ev.StrayBeat?)
    ensures StepOut(w.e, MsgOf(w.envs[ev.l], ev).value).actions == []
  {
    hide Safe, View, Coherent, Consistent, Admits, ViewOps, ApplyView, DataRoute, DeliveryOk;
    SafeStore(w);
    DeliveryIsOk(w, ev);
    AdmitsStep(w, ev);
    if ev.WriteBeat? {
      WriteBeatRoute(w.e.t, View(w.e.store, ev.l), w.envs[ev.l], ev, ev.l);
    } else {
      StrayDoesNothing(w.e.t, View(w.e.store, ev.l), w.envs[ev.l], ev, ev.l);
    }
  }

  lemma ReceivesRead(w: World, ev: Event)
    requires Safe(w) && Allowed(w, ev) && ev.Receive?
    ensures IsRead(w.envs[ev.l].asked.value.opcode)
  {
    hide Fits, HoldsOnly, View, OneTxnPerLine, Consistent, SnoopsOf, DataSnoopOk, PlainSnoopOk, CopiesOk, IdsOk, Admits;
    GrantMeansFree(w, ev.l);
  }

  lemma GrantMeansFree(w: World, l: LineNo)
    requires Safe(w) && l in w.envs && w.envs[l].grant.Some?
    ensures LineFree(w.e.t, l) && ValidStore(w.e.store) && FreeOk(View(w.e.store, l), w.envs[l])
  {
    hide Fits, HoldsOnly, View, OneTxnPerLine, Consistent, SnoopsOf, DataSnoopOk, PlainSnoopOk, CopiesOk, IdsOk;
    var t, v, env := w.e.t, View(w.e.store, l), w.envs[l];
    assert Coherent(t, v, env, l);
    assert forall k :: k in t.pending && EntryLine(t.pending[k]) == l ==> InFlightOk(t, k, v, env);
  }

  lemma SettlingLowersWork(w: World, ev: Event)
    requires Safe(w) && Allowed(w, ev) && Settles(ev)
    ensures Work(After(w, ev).envs[EventLine(ev)]) < Work(w.envs[EventLine(ev)])
  {
    hide Safe, View, Step, ApplyOps, Local, AbsorbAll, Work, EventOk, MsgOk, WriteIdOk;
    var l := EventLine(ev);
    var env := w.envs[l];
    EventIsOk(w, ev);
    if ev.Receive? { ReceivesRead(w, ev); }
    LocalLowersWork(env, ev);
    var m := MsgOf(env, ev);
    SettlingMessage(env, ev);
    if m.Some? {
      AdmitsStep(w, ev);
      var actions := StepOut(w.e, m.value).actions;
      DeliveryAnswersOnce(w.e.t, ViewFor(w.e, m.value), m.value);
      AnswerAddsLittle(Local(env, ev), actions);
      if ev.WriteBeat? || ev.StrayBeat? { QuietBeats(w, ev); }
    }
  }

  lemma EventIsOk(w: World, ev: Event)
    requires Allowed(w, ev)
    ensures EventOk(w.envs[EventLine(ev)], ev)
  {
    hide EventOk, Admits, WriteIdOk;
  }

  lemma SettlingMessage(env: Env, ev: Event)
    requires EventOk(env, ev) && Settles(ev)
    ensures MsgOf(env, ev).Some? <==> ev.SnoopBeat? || ev.SnoopAck? || ev.MemBeat? || ev.WriteBeat? || ev.StrayBeat?
    ensures MsgOf(env, ev).Some? ==> !MsgOf(env, ev).value.Request?
  {
  }

  // ---------- while there is work, a settling event is possible ----------

  ghost predicate CanSettle(w: World, l: LineNo) {
    exists ev: Event :: Allowed(w, ev) && EventLine(ev) == l && Settles(ev)
  }

  /** Any delivery that is on its way can arrive, the engine making its own fallback choice. */
  lemma DeliveryIsAllowed(w: World, ev: Event)
    requires ValidStore(w.e.store) && EventLine(ev) in w.envs && EventOk(w.envs[EventLine(ev)], ev) && !ev.Ask?
    requires WriteIdOk(w.e.t, ev, w.envs[EventLine(ev)])
    requires var m := MsgOf(w.envs[EventLine(ev)], ev);
             m.Some? && m.value.DataBeat? ==> FallbackOk(w.e.t, m.value.addr, m.value.fb)
    ensures Allowed(w, ev)
  {
    hide View;
  }

  /** The next memory id is dead: it can stand for an id that nobody uses. */
  lemma NextMemIsDead(t: Tables)
    requires Consistent(t)
    ensures t.nextMem !in t.pending && t.nextMem !in t.snoopToOrig
  {
    assert t.nextMem in t.pending ==> EntryOk(t, t.nextMem);
    assert t.nextMem in t.snoopToOrig ==> SnoopEntryOk(t, t.nextMem);
  }

  /** Some address of line `l`, the one its transaction or request uses. */
  lemma LineHasAddress(w: World, l: LineNo) returns (addr: Addr)
    requires Safe(w) && l in w.envs && (w.envs[l].snoops != map[] || w.envs[l].fetches != {})
    ensures LineOf(addr) == l
  {
    hide Fits, HoldsOnly, View, OneTxnPerLine, Consistent, SnoopsOf, DataSnoopOk, PlainSnoopOk, CopiesOk;
    SafeStore(w);
    assert Coherent(w.e.t, View(w.e.store, l), w.envs[l], l);
    assert !LineFree(w.e.t, l);
    var k :| k in w.e.t.pending && EntryLine(w.e.t.pending[k]) == l;
    addr := w.e.t.pending[k].req.addr;
  }

  lemma SnoopSettles(w: World, l: LineNo)
    requires Safe(w) && l in w.envs && w.envs[l].snoops != map[]
    ensures CanSettle(w, l)
  {
    hide Safe, View, FallbackOk, Allowed;
    SafeStore(w);
    var env := w.envs[l];
    var addr := LineHasAddress(w, l);
    var id :| id in env.snoops;
    match env.snoops[id]
    case Asked(node, ret) => DeliveryIsAllowed(w, AnswerSnoop(l, id, ret && node in env.copies));
    case WithData(_) => DeliveryIsAllowed(w, SnoopBeat(l, id, addr, SomeFallback(w.e.t, addr), true));
    case WithoutData => DeliveryIsAllowed(w, SnoopAck(l, id));
  }

  lemma FetchSettles(w: World, l: LineNo)
    requires Safe(w) && l in w.envs && w.envs[l].fetches != {}
    ensures CanSettle(w, l)
  {
    hide Safe, View, FallbackOk, Allowed;
    SafeStore(w);
    var addr := LineHasAddress(w, l);
    var id :| id in w.envs[l].fetches;
    DeliveryIsAllowed(w, MemBeat(l, id, addr, SomeFallback(w.e.t, addr), true));
  }

  lemma WriteSettles(w: World, l: LineNo)
    requires Safe(w) && l in w.envs && w.envs[l].write.Some?
    ensures CanSettle(w, l)
  {
    hide Safe, View, FallbackOk, Allowed;
    SafeStore(w);
    NextMemIsDead(w.e.t);
    DeliveryIsAllowed(w, WriteBeat(l, w.e.t.nextMem, SomeFallback(w.e.t, w.envs[l].write.value.addr), true));
  }

  lemma StraySettles(w: World, l: LineNo)
    requires Safe(w) && l in w.envs && w.envs[l].strays != {}
    ensures CanSettle(w, l)
  {
    hide Safe, View, FallbackOk, Allowed;
    SafeStore(w);
    NextMemIsDead(w.e.t);
    var stray :| stray in w.envs[l].strays;
    var id := if stray.ReadStray? then stray.id else w.e.t.nextMem;
    DeliveryIsAllowed(w, StrayBeat(l, stray, id, SomeFallback(w.e.t, stray.addr), true));
  }

  lemma GrantSettles(w: World, l: LineNo)
    requires Safe(w) && l in w.envs && w.envs[l].grant.Some?
    ensures CanSettle(w, l)
  {
    hide Safe, View, Allowed, LineFree, Settled;
    SafeStore(w);
    GrantMeansFree(w, l);
    DeliveryIsAllowed(w, Receive(l));
  }

  lemma WriterSettles(w: World, l: LineNo)
    requires Safe(w) && l in w.envs && w.envs[l].asked.Some? && w.envs[l].asked.value.opcode == WriteBackFull
    ensures CanSettle(w, l)
  {
    hide Safe, View, Allowed;
    SafeStore(w);
    WriterHolds(w, l);
    DeliveryIsAllowed(w, SendWriteData(l));
  }

  lemma WriterHolds(w: World, l: LineNo)
    requires Safe(w) && l in w.envs && w.envs[l].asked.Some? && w.envs[l].asked.value.opcode == WriteBackFull
    ensures CanWrite(w.envs[l], w.envs[l].asked.value.src) && w.envs[l].dbid == Some(w.envs[l].asked.value.src)
  {
    hide Fits, HoldsOnly, View, OneTxnPerLine, Consistent, SnoopsOf, DataSnoopOk, PlainSnoopOk, CopiesOk, IdsOk;
    SafeStore(w);
    assert Coherent(w.e.t, View(w.e.store, l), w.envs[l], l);
    assert !LineFree(w.e.t, l);
    var k :| k in w.e.t.pending && EntryLine(w.e.t.pending[k]) == l;
    assert InFlightOk(w.e.t, k, View(w.e.store, l), w.envs[l]);
  }

  lemma NothingSettlesIdle(env: Env, ev: Event)
    requires Work(env) == 0 && EventOk(env, ev)
    ensures !Settles(ev)
  {
    hide Work;
    NoWorkMeans(env);
  }

  lemma NoWorkMeans(env: Env)
    requires Work(env) == 0
    ensures env.snoops == map[] && env.fetches == {} && env.strays == {} && env.write == None && env.grant == None
    ensures env.asked.Some? ==> env.asked.value.opcode != WriteBackFull
  {
    assert env.snoops.Keys == {} && env.fetches == {} && env.strays == {};
  }

  /** A settling event is possible exactly while there is work on the line. */
  lemma SettlesIffWork(w: World, l: LineNo)
    requires Safe(w) && l in w.envs
    ensures CanSettle(w, l) <==> Work(w.envs[l]) > 0
  {
    hide Safe, CanSettle, EventOk, MsgOf, Admits, WriteIdOk, Local, Work;
    var env := w.envs[l];
    if Work(env) > 0 {
      SomeWork(env);
      if env.snoops != map[] { SnoopSettles(w, l); }
      else if env.fetches != {} { FetchSettles(w, l); }
      else if env.write.Some? { WriteSettles(w, l); }
      else if env.strays != {} { StraySettles(w, l); }
      else if env.grant.Some? { GrantSettles(w, l); }
      else { WriterSettles(w, l); }
    } else {
      IdleCannotSettle(w, l);
    }
  }

  lemma SomeWork(env: Env)
    requires Work(env) > 0
    ensures env.snoops != map[] || env.fetches != {} || env.write.Some? || env.strays != {} || env.grant.Some?
            || (env.asked.Some? && env.asked.value.opcode == WriteBackFull)
  {
    if env.snoops == map[] { assert env.snoops.Keys == {} && AskedIds(env) == {}; }
  }

  lemma IdleCannotSettle(w: World, l: LineNo)
    requires l in w.envs && Work(w.envs[l]) == 0
    ensures !CanSettle(w, l)
  {
    hide Work, EventOk, Admits, WriteIdOk, MsgOf;
    forall ev: Event | Allowed(w, ev) && EventLine(ev) == l ensures !Settles(ev) {
      EventIsOk(w, ev);
      NothingSettlesIdle(w.envs[l], ev);
    }
  }

  // ---------- when no work is left ----------

  /** The line's transaction wants a data beat, and no snoop or answer of it is left on its way. */
  ghost predicate AnsweredWithoutData(w: World, l: LineNo)
    requires l in w.envs
  {
    exists k :: k in w.e.t.pending && EntryLine(w.e.t.pending[k]) == l && w.e.t.pending[k].state == WaitSnoopResp
                && w.e.t.pending[k].beats > 0 && w.envs[l].snoops == map[]
  }

  /** With no work left a line is idle, and everything about it has arrived, or its data snoop was answered without
      data. */
  lemma NoWorkIsIdleOrStuck(w: World, l: LineNo)
    requires Safe(w) && l in w.envs && Work(w.envs[l]) == 0
    ensures (Idle(w.envs[l]) && w.envs[l].strays == {}) || AnsweredWithoutData(w, l)
    ensures AnsweredWithoutData(w, l) ==> !Idle(w.envs[l])
  {
    hide Fits, HoldsOnly, View, OneTxnPerLine, Consistent, InFlightOk, CopiesOk, IdsOk, Work;
    SafeStore(w);
    var t, v, env := w.e.t, View(w.e.store, l), w.envs[l];
    NoWorkMeans(env);
    assert Coherent(t, v, env, l);
    if LineFree(t, l) {
      assert FreeOk(v, env);
    } else {
      var k :| k in t.pending && EntryLine(t.pending[k]) == l;
      assert InFlightOk(t, k, v, env);
      NoWorkMeansStuck(t, v, env, k);
    }
  }

  lemma NoWorkMeansStuck(t: Tables, v: Option<Line>, env: Env, k: TxnID)
    requires Consistent(t) && k in t.pending && InFlightOk(t, k, v, env) && Work(env) == 0
    ensures t.pending[k].state == WaitSnoopResp && t.pending[k].beats > 0 && env.snoops == map[] && !Idle(env)
  {
    hide CopiesOk, DataSnoopOk, Work, SnoopsOf, NoWriter;
    NoWorkMeans(env);
    StillWaiting(t, k);
    assert env.snoops.Keys == {};
  }

  lemma StillWaiting(t: Tables, k: TxnID)
    requires Consistent(t) && k in t.pending
    ensures t.pending[k].state == WaitSnoopResp ==> t.pending[k].snoops > 0 || t.pending[k].beats > 0
  {
    assert EntryOk(t, k);
  }

  // ---------- runs ----------

  /** An event that neither asks for line `l` anew nor delivers a beat of it that is to be repeated. */
  predicate NothingNew(ev: Event, l: LineNo) {
    EventLine(ev) == l ==> Settles(ev) || ev.StoreTo? || ev.DropCopy?
  }

  lemma OtherEventsKeepWork(w: World, ev: Event, l: LineNo)
    requires Safe(w) && Allowed(w, ev) && l in w.envs && NothingNew(ev, l) && !(EventLine(ev) == l && Settles(ev))
    ensures l in After(w, ev).envs && Work(After(w, ev).envs[l]) == Work(w.envs[l])
  {
    hide Safe, Step, ApplyOps, AbsorbAll, View, Admits, WriteIdOk, StepOut;
  }

  /** How many of the events settle line `l`. */
  function Settled(evs: seq<Event>, l: LineNo, i: nat): nat
    requires i <= |evs|
  {
    if i == 0 then 0 else Settled(evs, l, i - 1) + if EventLine(evs[i - 1]) == l && Settles(evs[i - 1]) then 1 else 0
  }

  /** Settling ends. In any run in which nothing new starts on line `l`, whatever happens on other lines, at most as
      many settling events concern the line as there was work at first. Once no further one is possible the line is
      idle, or its data snoop was answered without data. */
  lemma {:induction false} LineSettles(ws: seq<World>, evs: seq<Event>, l: LineNo, i: nat)
    requires |ws| == |evs| + 1 && Safe(ws[0]) && l in ws[0].envs && i <= |evs|
    requires forall j :: 0 <= j < |evs| ==>
               Allowed(ws[j], evs[j]) && ws[j + 1] == After(ws[j], evs[j]) && NothingNew(evs[j], l)
    ensures Safe(ws[i]) && l in ws[i].envs && Settled(evs, l, i) + Work(ws[i].envs[l]) <= Work(ws[0].envs[l])
    ensures !CanSettle(ws[i], l) ==>
              (Idle(ws[i].envs[l]) && ws[i].envs[l].strays == {}) || AnsweredWithoutData(ws[i], l)
  {
    hide Safe, Allowed, After, Work, CanSettle, Settles, NothingNew, AnsweredWithoutData, Idle;
    if i > 0 {
      LineSettles(ws, evs, l, i - 1);
      var w, ev := ws[i - 1], evs[i - 1];
      StaysSafe(w, ev);
      AfterStore(w, ev);
      if EventLine(ev) == l && Settles(ev) { SettlingLowersWork(w, ev); } else { OtherEventsKeepWork(w, ev, l); }
    }
    SettlesIffWork(ws[i], l);
    if !CanSettle(ws[i], l) { NoWorkIsIdleOrStuck(ws[i], l); }
  }

  // ---------- starting points ----------

  /** An idle line takes the next request, a read even while further beats are on their way. */
  lemma IdleLineTakesRequests(w: World, l: LineNo, txn: Txn)
    requires Safe(w) && l in w.envs && LineOf(txn.addr) == l && Idle(w.envs[l])
             && (txn.opcode == WriteBackFull ==> w.envs[l].strays == {})
    requires IsRead(txn.opcode) || txn.opcode == WriteBackFull
    requires CanWrite(w.envs[l], txn.src) <==> txn.opcode == WriteBackFull
    requires RequesterId(txn.txnID) && txn.txnID !in w.e.t.pending
    requires ValidStore(w.e.store) && w.e.t.nextSnoop + |SnoopTargets(View(w.e.store, l), txn)| <= MEM_ID_BASE
    requires w.e.t.nextMem + 1 < ID_LIMIT
    ensures Allowed(w, Ask(txn))
  {
    hide View, SnoopTargets, Coherent, Consistent, Fits, HoldsOnly, OneTxnPerLine;
  }

  /** The empty array of this size. */
  function EmptyStore(numSets: nat, numWays: nat): Store {
    Store(numWays, seq(numSets, i => SetValue(seq(numWays, w => EmptyLine()), InitialRanks(numWays))))
  }

  lemma EmptyStoreIsEmpty(numSets: nat, numWays: nat)
    requires numSets >= 1 && numWays >= 1
    ensures ValidStore(EmptyStore(numSets, numWays))
            && forall l: LineNo :: View(EmptyStore(numSets, numWays), l) == None
  {
  }

  /** A line at rest: nobody holds it, nothing is on its way, memory is up to date. */
  function AtRest(memory: Data): Env { Env(memory, memory, map[], None, map[], {}, None, None, None, {}) }

  /** For every size of the cache and every memory whose lines fit there is a world to start from. */
  lemma FreshWorldExists(numSets: nat, numWays: nat, memory: map<LineNo, Data>) returns (w: World)
    requires numSets >= 1 && numWays >= 1
    requires forall i :: 0 <= i < numSets ==> |Rivals(numSets, memory.Keys, i)| <= numWays
    ensures Fresh(w) && |w.e.store.sets| == numSets && w.e.store.numWays == numWays
    ensures w.envs == map l | l in memory :: AtRest(memory[l])
  {
    hide View, InitialRanks;
    EmptyStoreIsEmpty(numSets, numWays);
    w := World(Engine(INITIAL_TABLES, EmptyStore(numSets, numWays)), map l | l in memory :: AtRest(memory[l]));
    assert w.envs.Keys == memory.Keys;
  }

  /** The smallest of them: one set, one way, one line. */
  lemma SmallWorld(data: Data) returns (w: World)
    ensures Fresh(w) && w.envs == map[0 := AtRest(data)]
  {
    hide Fresh, AtRest;
    forall i | 0 <= i < 1 ensures |Rivals(1, map[0 := data].Keys, i)| <= 1 {
      SubsetSize(Rivals(1, map[0 := data].Keys, i), {0});
    }
    w := FreshWorldExists(1, 1, map[0 := data]);
  }
}
