/** A run that starves: node 0 reads a line, writes it back, and then node 1 asks for it. */
module StarvingRun {
  import opened ChiTypes
  import opened CacheStore
  import opened EngineSpec
  import opened EngineTables
  import opened Directory
  import opened WorkingSet
  import opened Outcomes
  import opened RequesterWorld
  import opened Coherence
  import opened Progress
  import opened Starvation

  /** A coherent world of the one line 0, with these tables, this line and these surroundings. */
  ghost predicate WorldAt(w: World, t: Tables, v: Option<Line>, env: Env) {
    Safe(w) && w.e.t == t && ValidStore(w.e.store) && View(w.e.store, 0) == v && w.envs == map[0 := env]
  }

  /** An event that hands the engine a message about line 0. */
  lemma EngineStep(w: World, t: Tables, v: Option<Line>, env: Env, ev: Event, m: Msg)
    requires WorldAt(w, t, v, env) && EventLine(ev) == 0 && EventOk(env, ev) && MsgOf(env, ev) == Some(m)
    requires MsgOk(t, v, m) && LineFor(t, m) == Some(0) && WriteIdOk(t, ev, env)
    ensures Allowed(w, ev)
    ensures var out := Step(t, v, m);
            WorldAt(After(w, ev), out.t, ViewOps(v, out.ops), AbsorbAll(Local(env, ev), out.actions))
  {
    hide Safe, Step, View, ApplyOps, ViewOps, AbsorbAll, Local, EventOk, MsgOf, Admits, MsgOk, WriteIdOk, LineFor,
         Consistent, Roomy, OneTxnPerLine, Within, Aborts;
    MayStep(w, t, v, env, ev, m);
    SafeStore(w);
    EngineEventIsWithin(w, ev);
    RoomyStepViews(w.e, m, w.envs.Keys, 0);
    StaysSafe(w, ev);
  }

  lemma MayStep(w: World, t: Tables, v: Option<Line>, env: Env, ev: Event, m: Msg)
    requires WorldAt(w, t, v, env) && EventLine(ev) == 0 && EventOk(env, ev) && MsgOf(env, ev) == Some(m)
    requires MsgOk(t, v, m) && LineFor(t, m) == Some(0) && WriteIdOk(t, ev, env)
    ensures Allowed(w, ev) && Admits(w.e, m) && StepOut(w.e, m) == Step(t, v, m)
  {
    hide Safe, Step, View, ApplyOps, EventOk, MsgOf, RequestOk, WriteIdOk, LineFor, FallbackOk;
    StepsFrom(w, m);
  }

  lemma StepsFrom(w: World, m: Msg)
    requires ValidStore(w.e.store) && Deliverable(w.e.t, m)
    ensures Steppable(w.e, m)
  {
  }

  /** An event outside the engine. */
  lemma SilentStep(w: World, t: Tables, v: Option<Line>, env: Env, ev: Event)
    requires WorldAt(w, t, v, env) && EventLine(ev) == 0 && EventOk(env, ev) && MsgOf(env, ev) == None && !ev.WriteBeat?
             && !ev.StrayBeat?
    ensures Allowed(w, ev) && WorldAt(After(w, ev), t, v, Local(env, ev))
  {
    hide Safe, View, Local;
    StaysSafe(w, ev);
  }

  /** A run from a fresh world to the world described. */
  ghost predicate RunTo(ws: seq<World>, evs: seq<Event>, t: Tables, v: Option<Line>, env: Env) {
    IsWorldRun(ws, evs) && WorldAt(ws[|evs|], t, v, env)
  }

  lemma Extend(ws: seq<World>, evs: seq<Event>, t: Tables, v: Option<Line>, env: Env, ev: Event, m: Msg,
               t': Tables, v': Option<Line>, env': Env)
    returns (ws': seq<World>, evs': seq<Event>)
    requires RunTo(ws, evs, t, v, env) && EventLine(ev) == 0 && EventOk(env, ev) && MsgOf(env, ev) == Some(m)
    requires MsgOk(t, v, m) && LineFor(t, m) == Some(0) && WriteIdOk(t, ev, env)
    requires Step(t, v, m).t == t' && ViewOps(v, Step(t, v, m).ops) == v'
    requires AbsorbAll(Local(env, ev), Step(t, v, m).actions) == env'
    ensures RunTo(ws', evs', t', v', env')
  {
    hide Step, ViewOps, AbsorbAll, Local, WorldAt, After, Allowed, Fresh, MsgOk, LineFor, WriteIdOk;
    EngineStep(ws[|evs|], t, v, env, ev, m);
    ws', evs' := ws + [After(ws[|evs|], ev)], evs + [ev];
  }

  lemma ExtendSilently(ws: seq<World>, evs: seq<Event>, t: Tables, v: Option<Line>, env: Env, ev: Event, env': Env)
    returns (ws': seq<World>, evs': seq<Event>)
    requires RunTo(ws, evs, t, v, env) && EventLine(ev) == 0 && EventOk(env, ev) && MsgOf(env, ev) == None
    requires !ev.WriteBeat? && !ev.StrayBeat? && Local(env, ev) == env'
    ensures RunTo(ws', evs', t, v, env')
  {
    hide Local, WorldAt, After, Allowed, Fresh;
    SilentStep(ws[|evs|], t, v, env, ev);
    ws', evs' := ws + [After(ws[|evs|], ev)], evs + [ev];
  }

  // ---------- the stations of the run ----------

  function Read(): Txn { Txn(1, ReadUnique, 0, 0) }

  function WriteBackReq(): Txn { Txn(2, WriteBackFull, 0, 0) }

  function Quiet(): Tables { INITIAL_TABLES.(nextMem := MEM_ID_BASE + 1) }

  function Reading(): Tables {
    Quiet().(pending := map[MEM_ID_BASE := PendingTxn(Read(), WaitMemData, UD, 0, 0)],
        memToOrig := map[MEM_ID_BASE := 1])
  }

  function WritingBack(): Tables { Quiet().(pending := map[2 := PendingTxn(WriteBackReq(), WaitL1Data, I, 0, 0)]) }

  /** Nobody holds the line and nothing is on its way. */
  function Rest(d: Data): Env { AtRest(d) }

  function Held(d: Data): Env { Rest(d).(copies := map[0 := Writable(d)]) }

  function Line0(d: Data): Option<Line> { Some(Line(UD, d, {0})) }

  lemma ReadMisses(d: Data)
    ensures var m := Request(Read());
            MsgOk(INITIAL_TABLES, None, m) && LineFor(INITIAL_TABLES, m) == Some(0)
            && Step(INITIAL_TABLES, None, m) == Out(Reading(), [Touch], [SendReadNoSnp(0, MEM_ID_BASE)])
  {
  }

  lemma ReadFills(d: Data)
    ensures var m := DataBeat(MEM_ID_BASE, 0, d, None);
            MsgOk(Reading(), None, m) && LineFor(Reading(), m) == Some(0)
            && var out := Step(Reading(), None, m);
               out.t == Quiet() && ViewOps(None, out.ops) == Line0(d)
                 && out.actions == [SendCompData(0, 1, 0, UD, Some(d))]
  {
    hide ViewOps;
    MemDataLeaves(Reading(), None, MEM_ID_BASE, d);
    assert {} + {0 as NodeID} == {0};
    var out := Step(Reading(), None, DataBeat(MEM_ID_BASE, 0, d, None));
    assert out.t.pending == map[] && out.t.memToOrig == map[];
  }

  lemma WriteParks(d: Data)
    ensures var m := Request(WriteBackReq());
            MsgOk(Quiet(), Line0(d), m) && LineFor(Quiet(), m) == Some(0)
            && Step(Quiet(), Line0(d), m) == Out(WritingBack(), [], [SendCompDBIDResp(0, 2, 0)])
  {
  }

  lemma WriteLands(d: Data)
    ensures var m := DataBeat(2, 0, d, Some(2));
            MsgOk(WritingBack(), Line0(d), m) && LineFor(WritingBack(), m) == Some(0)
              && AwaitsWriteOf(WritingBack(), 2, 0)
            && var out := Step(WritingBack(), Line0(d), m);
               out.t == Quiet() && ViewOps(Line0(d), out.ops) == Line0(d) && out.actions == []
  {
    hide ViewOps;
    WriteDataLeaves(WritingBack(), Line0(d), 2, d);
    assert {0 as NodeID} + {0} == {0};
    assert Step(WritingBack(), Line0(d), DataBeat(2, 0, d, Some(2))).t.pending == map[];
  }

  /** Node 0 gets the line and holds it writable. */
  lemma NodeZeroReads(d: Data) returns (ws: seq<World>, evs: seq<Event>)
    ensures RunTo(ws, evs, Quiet(), Line0(d), Held(d))
  {
    hide Step, ViewOps, WorldAt, MsgOk, LineFor, Fresh, Quiet, Reading;
    var w := SmallWorld(d);
    FreshAt(w, d);
    ReadMisses(d);
    ViewShort(None, Touch, Touch, Touch, Touch);
    var asking := Rest(d).(asked := Some(Read()));
    OneAction(asking, SendReadNoSnp(0, MEM_ID_BASE));
    var waiting := asking.(fetches := {MEM_ID_BASE});
    assert asking.fetches + {MEM_ID_BASE} == {MEM_ID_BASE};
    ws, evs := Extend([w], [], INITIAL_TABLES, None, Rest(d), Ask(Read()), Request(Read()), Reading(), None, waiting);
    ReadFills(d);
    var granted := asking.(grant := Some(Grant(0, UD, Some(d))));
    OneAction(asking, SendCompData(0, 1, 0, UD, Some(d)));
    assert waiting.fetches - {MEM_ID_BASE} == {} && waiting.strays + {} == {};
    ws, evs := Extend(ws, evs, Reading(), None, waiting, MemBeat(0, MEM_ID_BASE, 0, None, true),
      DataBeat(MEM_ID_BASE, 0, d, None), Quiet(), Line0(d), granted);
    ws, evs := ExtendSilently(ws, evs, Quiet(), Line0(d), granted, Receive(0), Held(d));
  }

  lemma FreshAt(w: World, d: Data)
    requires Fresh(w) && w.envs == map[0 := AtRest(d)]
    ensures RunTo([w], [], INITIAL_TABLES, None, Rest(d))
  {
    hide View, Fits, Safe;
    FreshIsSafe(w);
  }

  /** Node 0 writes the line back: its copy is gone, but the engine still counts it as the sharer. */
  lemma NodeZeroWritesBack(ws: seq<World>, evs: seq<Event>, d: Data) returns (ws': seq<World>, evs': seq<Event>)
    requires RunTo(ws, evs, Quiet(), Line0(d), Held(d))
    ensures RunTo(ws', evs', Quiet(), Line0(d), Rest(d))
  {
    hide Step, ViewOps, WorldAt, MsgOk, LineFor, Fresh, Quiet, WritingBack;
    WriteParks(d);
    ViewShort(Line0(d), Touch, Touch, Touch, Touch);
    OneAction(Held(d).(asked := Some(WriteBackReq())), SendCompDBIDResp(0, 2, 0));
    var asked := Held(d).(asked := Some(WriteBackReq()), dbid := Some(0));
    ws', evs' := Extend(ws, evs, Quiet(), Line0(d), Held(d), Ask(WriteBackReq()), Request(WriteBackReq()),
        WritingBack(), Line0(d), asked);
    var sent := Rest(d).(write := Some(WriteMsg(0, d)));
    assert asked.copies - {0} == map[];
    ws', evs' := ExtendSilently(ws', evs', WritingBack(), Line0(d), asked, SendWriteData(0), sent);
    WriteLands(d);
    OneAction(Rest(d), SendReadNoSnp(0, 0));
    assert sent.strays + {} == {};
    ws', evs' := Extend(ws', evs', WritingBack(), Line0(d), sent, WriteBeat(0, 2, Some(2), true),
        DataBeat(2, 0, d, Some(2)), Quiet(), Line0(d), Rest(d));
  }

  /** The whole run, from a fresh world to a read that is never answered. */
  lemma ARunThatStarves(d: Data) returns (ws: seq<World>, evs: seq<Event>)
    ensures IsWorldRun(ws, evs) && Starving(ws[|evs|], 0, 3)
  {
    hide WorldAt, Starving, WrittenBack, Fresh, After, Allowed;
    ws, evs := NodeZeroReads(d);
    ws, evs := NodeZeroWritesBack(ws, evs, d);
    var w, txn := ws[|evs|], Txn(3, ReadShared, 0, 1);
    ItIsWrittenBack(w, d);
    OtherReaderStarves(w, 0, 0, txn);
    ws, evs := ws + [After(w, Ask(txn))], evs + [Ask(txn)];
  }

  lemma ItIsWrittenBack(w: World, d: Data)
    requires WorldAt(w, Quiet(), Line0(d), Rest(d))
    ensures WrittenBack(w, 0, 0) && Allowed(w, Ask(Txn(3, ReadShared, 0, 1)))
  {
    hide View, Safe, Coherent;
    SafeStore(w);
  }
}
