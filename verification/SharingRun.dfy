/** A run in which written data travels: node 0 takes a line, writes it, and node 1 then reads what node 0 wrote, though
    memory still holds the old value. */
module SharingRun {
  import opened ChiTypes
  import opened CacheStore
  import opened EngineSpec
  import opened EngineTables
  import opened Directory
  import opened Reactions
  import opened RequesterWorld
  import opened Coherence
  import opened StarvingRun

  function ReadBack(): Txn { Txn(2, ReadShared, 0, 1) }

  /** Node 1's read waits for node 0's data. */
  function Asking(): Tables {
    Quiet().(pending := map[2 := PendingTxn(ReadBack(), WaitSnoopResp, SC, 1, 1)],
             snoopToOrig := map[SNOOP_ID_BASE := 2], nextSnoop := SNOOP_ID_BASE + 1)
  }

  function Answered(): Tables { Quiet().(nextSnoop := SNOOP_ID_BASE + 1) }

  lemma ReadAsks(d: Data)
    ensures var m := Request(ReadBack());
            MsgOk(Quiet(), Line0(d), m) && LineFor(Quiet(), m) == Some(0)
            && Step(Quiet(), Line0(d), m)
               == Out(Asking(), [Touch], [SendSnoop(SnpCleanInvalid, 0, SNOOP_ID_BASE, 0, true)])
  {
    hide RecvRequest;
    var others := {0 as NodeID} - {1};
    assert others == {0};
    ReadSharedReacts(Quiet(), Line0(d), ReadBack());
    var out := RecvRequest(Quiet(), Line0(d), ReadBack());
    RequestStepIs(Quiet(), Line0(d), ReadBack());
    assert 0 in Line0(d).value.sharers && !(Line0(d).value.sharers <= {1});
    assert Asks(out, Quiet(), ReadBack(), others, SnpCleanInvalid, SC, true);
    assert out.actions[0].dest in others;
    assert out.t.snoopToOrig == map[SNOOP_ID_BASE := 2];
  }

  lemma BeatAnswers(d: Data, w: Data)
    ensures var m := DataBeat(SNOOP_ID_BASE, 0, w, None);
            MsgOk(Asking(), Line0(d), m) && LineFor(Asking(), m) == Some(0)
            && var out := Step(Asking(), Line0(d), m);
               out.t == Answered() && ViewOps(Line0(d), out.ops) == Some(Line(SC, w, {1}))
               && out.actions == [SendCompData(0, 2, 1, SC, Some(w))]
  {
    hide ViewOps, Step;
    var m := DataBeat(SNOOP_ID_BASE, 0, w, None);
    SnoopBeatReacts(Asking(), Line0(d), m);
    var out := Step(Asking(), Line0(d), m);
    assert Finishes(out, Asking(), Line0(d), 2, w);
    assert out.t.pending == map[] && out.t.snoopToOrig == map[] && out.t.counted == {};
  }

  /** Node 0 owns the line and has written it. */
  function Written(d: Data, w: Data): Env { Held(d).(copies := map[0 := Writable(w)], latest := w) }

  /** The coherence theorem is about something: data written by one node is read by another. */
  lemma ARunThatShares(d: Data, w: Data) returns (ws: seq<World>, evs: seq<Event>)
    ensures IsWorldRun(ws, evs) && ws[|evs|].envs.Keys == {0}
    ensures var env := ws[|evs|].envs[0];
            env.copies == map[1 := Clean(w)] && env.latest == w && env.memory == d && Idle(env)
  {
    hide WorldAt, Fresh, Quiet, Asking, Answered, Allowed, After;
    ws, evs := NodeZeroReads(d);
    ws, evs := NodeZeroWrites(ws, evs, d, w);
    ws, evs := NodeOneAsks(ws, evs, d, w);
    ws, evs := NodeOneGets(ws, evs, d, w);
    RunEnds(ws, evs, Answered(), Some(Line(SC, w, {1})), Written(d, w).(copies := map[1 := Clean(w)]));
  }

  lemma RunEnds(ws: seq<World>, evs: seq<Event>, t: Tables, v: Option<Line>, env: Env)
    requires RunTo(ws, evs, t, v, env)
    ensures IsWorldRun(ws, evs) && ws[|evs|].envs == map[0 := env]
  {
    hide Safe, View, Fresh, Allowed, After;
  }

  lemma NodeZeroWrites(ws: seq<World>, evs: seq<Event>, d: Data, w: Data)
    returns (ws': seq<World>, evs': seq<Event>)
    requires RunTo(ws, evs, Quiet(), Line0(d), Held(d))
    ensures RunTo(ws', evs', Quiet(), Line0(d), Written(d, w))
  {
    hide WorldAt, Fresh, Quiet, Allowed, After;
    assert Held(d).copies[0 := Writable(w)] == Written(d, w).copies;
    ws', evs' := ExtendSilently(ws, evs, Quiet(), Line0(d), Held(d), StoreTo(0, 0, w), Written(d, w));
  }

  /** Node 1 has asked, and node 0 has sent its data and given the line up. */
  function OnItsWay(d: Data, w: Data): Env {
    Written(d, w).(asked := Some(ReadBack()), snoops := map[SNOOP_ID_BASE := WithData(w)], copies := map[])
  }

  lemma NodeOneAsks(ws: seq<World>, evs: seq<Event>, d: Data, w: Data) returns (ws': seq<World>, evs': seq<Event>)
    requires RunTo(ws, evs, Quiet(), Line0(d), Written(d, w))
    ensures RunTo(ws', evs', Asking(), Line0(d), OnItsWay(d, w))
  {
    hide Step, ViewOps, WorldAt, MsgOk, LineFor, Fresh, Quiet, Asking, Allowed, After;
    ReadAsks(d);
    ViewShort(Line0(d), Touch, Touch, Touch, Touch);
    var env := Written(d, w);
    OneAction(env.(asked := Some(ReadBack())), SendSnoop(SnpCleanInvalid, 0, SNOOP_ID_BASE, 0, true));
    var asked := env.(asked := Some(ReadBack()), snoops := map[SNOOP_ID_BASE := Asked(0, true)]);
    ws', evs' := Extend(ws, evs, Quiet(), Line0(d), env, Ask(ReadBack()), Request(ReadBack()), Asking(), Line0(d),
        asked);
    assert asked.snoops[SNOOP_ID_BASE := WithData(w)] == OnItsWay(d, w).snoops && asked.copies - {0} == map[];
    ws', evs' := ExtendSilently(ws', evs', Asking(), Line0(d), asked, AnswerSnoop(0, SNOOP_ID_BASE, true),
        OnItsWay(d, w));
  }

  lemma NodeOneGets(ws: seq<World>, evs: seq<Event>, d: Data, w: Data) returns (ws': seq<World>, evs': seq<Event>)
    requires RunTo(ws, evs, Asking(), Line0(d), OnItsWay(d, w))
    ensures RunTo(ws', evs', Answered(), Some(Line(SC, w, {1})), Written(d, w).(copies := map[1 := Clean(w)]))
  {
    hide Step, ViewOps, WorldAt, MsgOk, LineFor, Fresh, Quiet, Asking, Answered, Allowed, After;
    BeatAnswers(d, w);
    var env := OnItsWay(d, w);
    var left := env.(snoops := map[]);
    OneAction(left, SendCompData(0, 2, 1, SC, Some(w)));
    assert env.snoops - {SNOOP_ID_BASE} == map[] && env.strays + {} == env.strays;
    var granted := left.(grant := Some(Grant(1, SC, Some(w))));
    ws', evs' := Extend(ws, evs, Asking(), Line0(d), env, SnoopBeat(0, SNOOP_ID_BASE, 0, None, true),
        DataBeat(SNOOP_ID_BASE, 0, w, None), Answered(), Some(Line(SC, w, {1})), granted);
    var got := Written(d, w).(copies := map[1 := Clean(w)]);
    ws', evs' := ExtendSilently(ws', evs', Answered(), Some(Line(SC, w, {1})), granted, Receive(0), got);
  }
}
