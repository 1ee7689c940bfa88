/** The ids the engine hands out, in numbers: snoops get 10000, 10001, and so on, memory commands 20000, 20001, and so
    on,
    in every run at all. So the ranges stay apart exactly as long as at most 10000 snoops are sent, and that they do is
    enough for the room the other theorems ask for. */
module IdRanges {
  import opened ChiTypes
  import opened CacheStore
  import opened EngineSpec
  import opened EngineTables

  /** The ids of the snoops among the actions, in order. */
  function SnoopIds(actions: seq<Action>): seq<TxnID> {
    if actions == [] then []
    else
      var a := actions[|actions| - 1];
      SnoopIds(actions[..|actions| - 1]) + if a.SendSnoop? then [a.txnId] else []
  }

  /** The ids of the memory commands among the actions, in order. */
  function MemIds(actions: seq<Action>): seq<TxnID> {
    if actions == [] then []
    else
      var a := actions[|actions| - 1];
      MemIds(actions[..|actions| - 1]) + if a.SendReadNoSnp? || a.SendWriteNoSnp? then [a.txnId] else []
  }

  /** All actions of the first `i` steps. */
  ghost function Sent(es: seq<Engine>, ms: seq<Msg>, i: nat): seq<Action>
    requires IsWildRun(es, ms) && i <= |ms|
  {
    if i == 0 then [] else Sent(es, ms, i - 1) + StepOut(es[i - 1], ms[i - 1]).actions
  }

  /** A count as a 32-bit unsigned number. */
  function Wrap(n: nat): TxnID { n % 0x1_0000_0000 }

  lemma WrapAdd(a: nat, b: nat)
    ensures Wrap(Wrap(a) + b) == Wrap(a + b)
  {
    var q := a / 0x1_0000_0000;
    assert a + b == (Wrap(a) + b) + q * 0x1_0000_0000;
  }

  lemma WrapNext(id: TxnID)
    ensures NextId(id) == Wrap(id + 1)
  {
  }

  /** The ids are `base`, `base` + 1 and so on. */
  ghost predicate CountsFrom(ids: seq<TxnID>, base: nat) {
    forall k :: 0 <= k < |ids| ==> ids[k] == Wrap(base + k)
  }

  lemma {:induction false} IdsOfBoth(a: seq<Action>, b: seq<Action>)
    ensures SnoopIds(a + b) == SnoopIds(a) + SnoopIds(b) && MemIds(a + b) == MemIds(a) + MemIds(b)
    decreases |b|
  {
    if b == [] {
      assert a + b == a;
    } else {
      var init := b[..|b| - 1];
      IdsOfBoth(a, init);
      assert (a + b)[..|a + b| - 1] == a + init && (a + b)[|a + b| - 1] == b[|b| - 1];
    }
  }

  lemma {:induction false} NoSuchIds(actions: seq<Action>)
    ensures (forall i :: 0 <= i < |actions| ==> !actions[i].SendSnoop?) ==> SnoopIds(actions) == []
    ensures (forall i :: 0 <= i < |actions| ==> !actions[i].SendReadNoSnp? && !actions[i].SendWriteNoSnp?) ==>
              MemIds(actions) == []
  {
    if actions != [] { NoSuchIds(actions[..|actions| - 1]); }
  }

  lemma CountsOn(ids: seq<TxnID>, more: seq<TxnID>, base: nat)
    requires CountsFrom(ids, base) && CountsFrom(more, Wrap(base + |ids|))
    ensures CountsFrom(ids + more, base) && Wrap(Wrap(base + |ids|) + |more|) == Wrap(base + |ids + more|)
  {
    hide Wrap;
    forall k | |ids| <= k < |ids + more| ensures (ids + more)[k] == Wrap(base + k) {
      assert (ids + more)[k] == more[k - |ids|];
      WrapAdd(base + |ids|, k - |ids|);
    }
    WrapAdd(base + |ids|, |more|);
  }

  // ---------- one step ----------

  lemma {:induction false} SnoopsCount(t: Tables, txn: Txn, kind: SnoopKind, order: seq<NodeID>, ret: bool)
    ensures var r := IssueSnoops(t, txn, kind, order, ret);
            && CountsFrom(SnoopIds(r.actions), t.nextSnoop) && |SnoopIds(r.actions)| == |order|
            && r.t.nextSnoop == Wrap(t.nextSnoop + |order|) && r.t.nextMem == t.nextMem && MemIds(r.actions) == []
  {
    hide Wrap, NextId, SnoopIds, MemIds;
    if order == [] {
      NoSuchIds([]);
      assert t.nextSnoop == Wrap(t.nextSnoop) by { WrapSmall(t.nextSnoop); }
    } else {
      var done := IssueSnoops(t, txn, kind, order[..|order| - 1], ret);
      SnoopsCount(t, txn, kind, order[..|order| - 1], ret);
      var last := SendSnoop(kind, txn.addr, done.t.nextSnoop, order[|order| - 1], ret);
      OneSnoopId(last);
      IdsOfBoth(done.actions, [last]);
      assert CountsFrom([last.txnId], Wrap(t.nextSnoop + |order| - 1)) by { WrapAdd(t.nextSnoop + |order| - 1, 0); }
      CountsOn(SnoopIds(done.actions), [last.txnId], t.nextSnoop);
      WrapNext(done.t.nextSnoop);
    }
  }

  lemma WrapSmall(id: TxnID)
    ensures Wrap(id) == id
  {
  }

  lemma OneSnoopId(a: Action)
    requires a.SendSnoop?
    ensures SnoopIds([a]) == [a.txnId] && MemIds([a]) == []
  {
    assert [a][..0] == [];
  }

  /** One step takes its ids from the two counters. */
  ghost predicate TakesIds(t: Tables, out: Out) {
    var snoops, mems := SnoopIds(out.actions), MemIds(out.actions);
    && CountsFrom(snoops, t.nextSnoop) && out.t.nextSnoop == Wrap(t.nextSnoop + |snoops|)
    && CountsFrom(mems, t.nextMem) && out.t.nextMem == Wrap(t.nextMem + |mems|)
  }

  lemma SnoopStepTakesIds(t: Tables, line: Line, txn: Txn)
    ensures TakesIds(t, SnoopStep(t, line, txn))
    ensures |SnoopIds(SnoopStep(t, line, txn).actions)| == |SnoopTargets(Some(line), txn)|
  {
    hide SnoopTargets, Ascending, IssueSnoops;
    SnoopsCount(t.(pending := t.pending[txn.txnID := SnoopEntry(line, txn)]), txn, SnoopKindFor(line, txn.opcode),
      Ascending(SnoopTargets(Some(line), txn)), Dirty(line.state));
  }

  lemma RequestTakesIds(t: Tables, v: Option<Line>, txn: Txn)
    ensures TakesIds(t, RecvRequest(t, v, txn))
    ensures |SnoopIds(RecvRequest(t, v, txn).actions)| == |SnoopTargets(v, txn)|
  {
    hide RecvRequest, SnoopStep, SnoopTargets, ViewOps, SnoopIds, MemIds, TakesIds, Wrap, NextId;
    RequestShape(t, v, txn);
    WritesSnoopNobody(v, txn);
    var out := RecvRequest(t, v, txn);
    if SnoopTargets(v, txn) != {} {
      SnoopStepTakesIds(t, v.value, txn);
    } else {
      if KeyUsed(t, v, txn) == None { ServedTakesNoMemory(t, v, txn); }
      NoSuchIds(out.actions);
      FewActions(out.actions);
      FewIdsTaken(t, out);
    }
  }

  lemma FewIdsTaken(t: Tables, out: Out)
    requires SnoopIds(out.actions) == [] && out.t.nextSnoop == t.nextSnoop
    requires if MemIds(out.actions) == [] then out.t.nextMem == t.nextMem
             else MemIds(out.actions) == [t.nextMem] && out.t.nextMem == NextId(t.nextMem)
    ensures TakesIds(t, out)
  {
  }

  lemma ServedTakesNoMemory(t: Tables, v: Option<Line>, txn: Txn)
    requires KeyUsed(t, v, txn) == None
    ensures var actions := RecvRequest(t, v, txn).actions;
            forall i :: 0 <= i < |actions| ==> !actions[i].SendReadNoSnp? && !actions[i].SendWriteNoSnp?
  {
    hide ViewOps, Snoop;
  }

  lemma FewActions(actions: seq<Action>)
    ensures |actions| == 1 ==>
              MemIds(actions) == if actions[0].SendReadNoSnp? || actions[0].SendWriteNoSnp? then [actions[0].txnId]
                  else []
    ensures |actions| == 2 && actions[0].SendWriteNoSnp? && actions[1].SendComp? ==>
              MemIds(actions) == [actions[0].txnId]
  {
    if actions != [] {
      var init := actions[..|actions| - 1];
      if |actions| == 2 { assert init == [actions[0]] && init[..0] == []; }
    }
  }

  lemma DeliveryTakesNoIds(t: Tables, v: Option<Line>, m: Msg)
    requires !m.Request? && (m.DataBeat? && m.fb.Some? ==> m.fb.value in t.pending)
    ensures var out := Step(t, v, m);
            && out.t.nextSnoop == t.nextSnoop && out.t.nextMem == t.nextMem
            && (forall i :: 0 <= i < |out.actions| ==> out.actions[i].SendCompData? || out.actions[i].SendComp?)
  {
    hide ViewOps, ApplyView, Finished;
  }

  lemma StepTakesIds(t: Tables, v: Option<Line>, m: Msg)
    requires m.DataBeat? && m.fb.Some? ==> m.fb.value in t.pending
    ensures TakesIds(t, Step(t, v, m))
  {
    hide RecvRequest, RecvData, RecvResponse;
    if m.Request? {
      RequestTakesIds(t, v, m.txn);
    } else {
      DeliveryTakesNoIds(t, v, m);
      NoSuchIds(Step(t, v, m).actions);
    }
  }

  // ---------- whole runs ----------

  /** In any run at all the ids count up from 10000 and 20000. */
  lemma {:induction false} IdsCountUp(es: seq<Engine>, ms: seq<Msg>, i: nat)
    requires IsWildRun(es, ms) && es[0].t == INITIAL_TABLES && i <= |ms|
    ensures var snoops, mems := SnoopIds(Sent(es, ms, i)), MemIds(Sent(es, ms, i));
            && CountsFrom(snoops, 10000) && es[i].t.nextSnoop == Wrap(10000 + |snoops|)
            && CountsFrom(mems, 20000) && es[i].t.nextMem == Wrap(20000 + |mems|)
  {
    hide Step, ApplyOps, ViewFor, CountsFrom, Wrap, SnoopIds, MemIds;
    if i == 0 {
      assert Sent(es, ms, 0) == [];
      NothingCounted();
    } else {
      IdsCountUp(es, ms, i - 1);
      var e, m := es[i - 1], ms[i - 1];
      var out, done := StepOut(e, m), Sent(es, ms, i - 1);
      TablesAfter(e, m);
      StepTakesIds(e.t, ViewFor(e, m), m);
      IdsOfBoth(done, out.actions);
      CountsOn(SnoopIds(done), SnoopIds(out.actions), 10000);
      CountsOn(MemIds(done), MemIds(out.actions), 20000);
    }
  }

  lemma NothingCounted()
    ensures CountsFrom([], 10000) && CountsFrom([], 20000) && SnoopIds([]) == [] && MemIds([]) == []
    ensures INITIAL_TABLES.nextSnoop == Wrap(10000) && INITIAL_TABLES.nextMem == Wrap(20000)
  {
  }

  lemma TablesAfter(e: Engine, m: Msg)
    requires Steppable(e, m)
    ensures Next(e, m).t == StepOut(e, m).t && StepOut(e, m) == Step(e.t, ViewFor(e, m), m)
  {
    hide Step, ApplyOps;
  }

  /** The snoop ids lie between 10000 and 20000 exactly if at most 10000 snoops are sent, and the memory ids are 20000
      or
      more exactly if they have not wrapped. */
  lemma RangesHoldIff(es: seq<Engine>, ms: seq<Msg>)
    requires IsWildRun(es, ms) && es[0].t == INITIAL_TABLES
    ensures var snoops := SnoopIds(Sent(es, ms, |ms|));
            (forall id :: id in snoops ==> 10000 <= id < 20000) <==> |snoops| <= 10000
    ensures var mems := MemIds(Sent(es, ms, |ms|));
            (forall id :: id in mems ==> 20000 <= id) <==> |mems| <= 0x1_0000_0000 - 20000
  {
    hide IsWildRun, SnoopIds, MemIds, Sent;
    IdsCountUp(es, ms, |ms|);
    var snoops, mems := SnoopIds(Sent(es, ms, |ms|)), MemIds(Sent(es, ms, |ms|));
    if |snoops| > 10000 { assert snoops[10000] == 20000 && snoops[10000] in snoops; }
    if |mems| > 0x1_0000_0000 - 20000 {
      var k := 0x1_0000_0000 - 20000;
      assert mems[k] == 0 && mems[k] in mems;
    }
  }

  /** What the nodes must keep to: request ids below 10000 that are not live where the engine would use them as keys. */
  ghost predicate Civil(e: Engine, m: Msg) {
    && Steppable(e, m) && Deliverable(e.t, m)
    && (m.Request? ==> m.txn.txnID < 10000)
    && (m.Request? && (IsWrite(m.txn.opcode) || SnoopTargets(ViewFor(e, m), m.txn) != {}) ==>
          m.txn.txnID !in e.t.pending)
  }

  lemma {:induction false} SentGrows(es: seq<Engine>, ms: seq<Msg>, i: nat, j: nat)
    requires IsWildRun(es, ms) && i <= j <= |ms|
    ensures |SnoopIds(Sent(es, ms, i))| <= |SnoopIds(Sent(es, ms, j))|
    ensures |MemIds(Sent(es, ms, i))| <= |MemIds(Sent(es, ms, j))|
    decreases j
  {
    hide StepOut, Next, SnoopIds, MemIds;
    if i < j {
      SentGrows(es, ms, i, j - 1);
      IdsOfBoth(Sent(es, ms, j - 1), StepOut(es[j - 1], ms[j - 1]).actions);
    }
  }

  /** With few enough snoops and memory commands every request finds room: the run is one of those the other theorems
      speak of. */
  lemma RoomIsThere(es: seq<Engine>, ms: seq<Msg>)
    requires IsWildRun(es, ms) && es[0].t == INITIAL_TABLES && forall i :: 0 <= i < |ms| ==> Civil(es[i], ms[i])
    requires |SnoopIds(Sent(es, ms, |ms|))| <= 10000 && |MemIds(Sent(es, ms, |ms|))| < 0x1_0000_0000 - 20001
    ensures IsRun(es, ms)
  {
    hide Civil, Next, Admits, Sent, SnoopIds, MemIds;
    forall i | 0 <= i < |ms| ensures Admits(es[i], ms[i]) { RoomAt(es, ms, i); }
  }

  lemma RoomAt(es: seq<Engine>, ms: seq<Msg>, i: nat)
    requires IsWildRun(es, ms) && es[0].t == INITIAL_TABLES && i < |ms| && Civil(es[i], ms[i])
    requires |SnoopIds(Sent(es, ms, |ms|))| <= 10000 && |MemIds(Sent(es, ms, |ms|))| < 0x1_0000_0000 - 20001
    ensures Admits(es[i], ms[i])
  {
    hide Step, Next, SnoopTargets, ViewFor, SnoopIds, MemIds, CountsFrom, FallbackOk, Wrap, RecvRequest;
    IdsCountUp(es, ms, i);
    SentGrows(es, ms, i + 1, |ms|);
    SentGrows(es, ms, i, |ms|);
    var e, m := es[i], ms[i];
    IdsOfBoth(Sent(es, ms, i), StepOut(e, m).actions);
    if m.Request? {
      RequestTakesIds(e.t, ViewFor(e, m), m.txn);
      RequestStepIs(e.t, ViewFor(e, m), m.txn);
      RoomFor(|SnoopIds(Sent(es, ms, i))|, |MemIds(Sent(es, ms, i))|);
    }
  }

  lemma RoomFor(snoops: nat, mems: nat)
    requires snoops <= 10000 && mems < 0x1_0000_0000 - 20001
    ensures Wrap(10000 + snoops) == 10000 + snoops && Wrap(20000 + mems) == 20000 + mems
  {
  }

  /** In such a run the live ids are apart, in numbers: requests and their snoops and memory commands never meet. */
  lemma LiveIdsAreApart(es: seq<Engine>, ms: seq<Msg>, i: nat)
    requires IsWildRun(es, ms) && es[0].t == INITIAL_TABLES && forall j :: 0 <= j < |ms| ==> Civil(es[j], ms[j])
    requires |SnoopIds(Sent(es, ms, |ms|))| <= 10000 && |MemIds(Sent(es, ms, |ms|))| < 0x1_0000_0000 - 20001
    requires i <= |ms|
    ensures forall id :: id in es[i].t.snoopToOrig ==> 10000 <= id < 20000
    ensures forall id :: id in es[i].t.memToOrig ==> 20000 <= id && id in es[i].t.pending
    ensures forall id :: id in es[i].t.pending ==>
              if es[i].t.pending[id].state in {WaitMemData, WaitMemWriteAck} then 20000 <= id
              else id < 10000 && es[i].t.pending[id].req.txnID == id
  {
    hide Civil, IsRun, SnoopIds, MemIds, Sent, Next, Steppable;
    RoomIsThere(es, ms);
    RunConsistent(es, ms, i);
    var t := es[i].t;
    assert forall id :: id in t.pending ==> EntryOk(t, id);
    assert forall id :: id in t.snoopToOrig ==> SnoopEntryOk(t, id);
    assert forall id :: id in t.memToOrig ==> MemEntryOk(t, id);
  }
}
