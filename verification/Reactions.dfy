/** What the engine does with each message, case by case: the states, sets and numbers are written out, and none of the
    engine's own predicates is used. Together with the laws of the storage operations this fixes every step. */
module Reactions {
  import opened ChiTypes
  import opened CacheStore
  import opened EngineSpec
  import opened EngineTables
  import opened Directory
  import opened Outcomes

  // ---------- kinds of reactions ----------

  /** The line is looked up first, and the later operations change neither its way's recency nor its presence. */
  ghost predicate LooksUpFirst(ops: seq<Op>) {
    && ops != [] && ops[0] == Touch
    && forall i :: 1 <= i < |ops| ==>
         ops[i].AddSharer? || ops[i].ClearSharers? || (ops[i].SetLineState? && ops[i].state != I)
  }

  /** The request is answered from the cache, which leaves the line as `now`. */
  ghost predicate Serves(out: Out, t: Tables, line: Line, now: Line, answer: Action) {
    && out.t == t && out.actions == [answer]
    && LooksUpFirst(out.ops) && ViewOps(Some(line), out.ops) == Some(now)
  }

  /** The line is read from memory under the next memory id. */
  ghost predicate Fetches(out: Out, t: Tables, txn: Txn, target: LineState) {
    && out.t == t.(pending := t.pending[t.nextMem := PendingTxn(txn, WaitMemData, target, 0, 0)],
                   memToOrig := t.memToOrig[t.nextMem := txn.txnID], nextMem := (t.nextMem + 1) % 0x1_0000_0000)
    && out.actions == [SendReadNoSnp(txn.addr, t.nextMem)]
  }

  /** The request waits under its own id, and each of `others` gets one snoop, in ascending order, under the next ids.
      With `data` every one of them has to return data. */
  ghost predicate Asks(out: Out, t: Tables, txn: Txn, others: set<NodeID>, kind: SnoopKind, target: LineState,
                       data: bool)
    requires t.nextSnoop + |others| < 0x1_0000_0000
  {
    var n, base, m := |others|, t.nextSnoop, out.t.snoopToOrig;
    && out.ops == [Touch]
    && out.t == t.(pending := t.pending[txn.txnID := PendingTxn(txn, WaitSnoopResp, target, n, if data then n else 0)],
                   snoopToOrig := m, nextSnoop := base + n)
    && (forall k :: k in m <==> k in t.snoopToOrig || base <= k < base + n)
    && (forall k :: k in m ==> m[k] == if base <= k < base + n then txn.txnID else t.snoopToOrig[k])
    && |out.actions| == n
    && (forall i :: 0 <= i < n ==>
          out.actions[i].SendSnoop? && out.actions[i] == SendSnoop(kind, txn.addr, base + i, out.actions[i].dest, data))
    && (forall i, j :: 0 <= i < j < n ==> out.actions[i].dest < out.actions[j].dest)
    && (forall x :: x in others <==> exists i :: 0 <= i < n && out.actions[i].dest == x)
  }

  // ---------- requests ----------

  lemma SnoopStepAsks(t: Tables, line: Line, txn: Txn, others: set<NodeID>, kind: SnoopKind, target: LineState,
                      data: bool)
    requires t.nextSnoop + |others| < 0x1_0000_0000 && SnoopTargets(Some(line), txn) == others
    requires SnoopKindFor(line, txn.opcode) == kind && TargetState(txn.opcode) == target && Dirty(line.state) == data
    ensures Asks(SnoopStep(t, line, txn), t, txn, others, kind, target, data)
  {
    hide SnoopTargets, SnoopStep, SnoopKindFor, TargetState, Ascending;
    SnoopStepEffect(t, line, txn);
    var out, order := SnoopStep(t, line, txn), Ascending(others);
    assert forall i :: 0 <= i < |order| ==> out.actions[i].dest == order[i];
    forall x ensures x in others <==> exists i :: 0 <= i < |order| && out.actions[i].dest == x {
      if x in others {
        assert x in order;
        var i :| 0 <= i < |order| && order[i] == x;
        assert out.actions[i].dest == x;
      }
      if i :| 0 <= i < |order| && out.actions[i].dest == x { assert order[i] in order; }
    }
  }

  lemma SharersApart(line: Line, txn: Txn)
    ensures line.sharers - {txn.src} == {} <==> line.sharers <= {txn.src}
  {
    if line.sharers - {txn.src} == {} {
      forall x | x in line.sharers ensures x == txn.src { assert x in line.sharers - {txn.src} || x == txn.src; }
    }
  }

  lemma ServedLooksUp(t: Tables, line: Line, txn: Txn)
    requires !IsWrite(txn.opcode) && txn.opcode != Other && SnoopTargets(Some(line), txn) == {}
    requires !(txn.opcode == CleanUnique && line.state == UD)
    ensures LooksUpFirst(RecvRequest(t, Some(line), txn).ops)
  {
    hide ViewOps, Snoop;
  }

  /** ReadShared and ReadNoSnp: a clean line is served whoever shares it, a dirty one if no other node does; else the
      others are asked for their data. */
  lemma ReadSharedReacts(t: Tables, v: Option<Line>, txn: Txn)
    requires txn.opcode in {ReadShared, ReadNoSnp} && (v.Some? ==> v.value.state != I)
    requires v.Some? ==> t.nextSnoop + |v.value.sharers - {txn.src}| < 0x1_0000_0000
    ensures var out := RecvRequest(t, v, txn);
            if v == None then Fetches(out, t, txn, SC) && out.ops == [Touch]
            else if v.value.state in {UC, SC} || v.value.sharers <= {txn.src} then
              var s := match v.value.state case UC => SC case UD => SD case other => other;
              Serves(out, t, v.value, Line(s, v.value.data, v.value.sharers + {txn.src}),
                SendCompData(txn.addr, txn.txnID, txn.src, s, Some(v.value.data)))
            else Asks(out, t, txn, v.value.sharers - {txn.src}, SnpCleanInvalid, SC, true)
  {
    hide RecvRequest, SnoopStep, ViewOps, Asks, LooksUpFirst;
    RequestShape(t, v, txn);
    RequestOps(t, v, txn);
    if v.Some? {
      SharersApart(v.value, txn);
      if v.value.state in {UC, SC} || v.value.sharers <= {txn.src} {
        ServedLeaves(t, v.value, txn);
        ServedLooksUp(t, v.value, txn);
      } else {
        SnoopStepAsks(t, v.value, txn, v.value.sharers - {txn.src}, SnpCleanInvalid, SC, true);
      }
    }
  }

  /** ReadOnce is served or asks like ReadShared, but leaves the line and its sharers alone. */
  lemma ReadOnceReacts(t: Tables, v: Option<Line>, txn: Txn)
    requires txn.opcode == ReadOnce && (v.Some? ==> v.value.state != I)
    requires v.Some? ==> t.nextSnoop + |v.value.sharers - {txn.src}| < 0x1_0000_0000
    ensures var out := RecvRequest(t, v, txn);
            if v == None then Fetches(out, t, txn, SC) && out.ops == [Touch]
            else if v.value.state in {UC, SC} || v.value.sharers <= {txn.src} then
              Serves(out, t, v.value, v.value,
                SendCompData(txn.addr, txn.txnID, txn.src, v.value.state, Some(v.value.data)))
            else Asks(out, t, txn, v.value.sharers - {txn.src}, SnpOnce, SC, true)
  {
    hide RecvRequest, SnoopStep, ViewOps, Asks, LooksUpFirst;
    RequestShape(t, v, txn);
    RequestOps(t, v, txn);
    if v.Some? {
      SharersApart(v.value, txn);
      if v.value.state in {UC, SC} || v.value.sharers <= {txn.src} {
        ServedLeaves(t, v.value, txn);
        ServedLooksUp(t, v.value, txn);
      } else {
        SnoopStepAsks(t, v.value, txn, v.value.sharers - {txn.src}, SnpOnce, SC, true);
      }
    }
  }

  /** ReadUnique and ReadNotSharedDirty: without other sharers the requester gets the line as UD; else the others are
      asked, for their data exactly if the line is dirty. */
  lemma ReadUniqueReacts(t: Tables, v: Option<Line>, txn: Txn)
    requires txn.opcode in {ReadUnique, ReadNotSharedDirty} && (v.Some? ==> v.value.state != I)
    requires v.Some? ==> t.nextSnoop + |v.value.sharers - {txn.src}| < 0x1_0000_0000
    ensures var out := RecvRequest(t, v, txn);
            if v == None then Fetches(out, t, txn, UD) && out.ops == [Touch]
            else if v.value.sharers <= {txn.src} then
              Serves(out, t, v.value, Line(UD, v.value.data, {txn.src}),
                SendCompData(txn.addr, txn.txnID, txn.src, UD, Some(v.value.data)))
            else Asks(out, t, txn, v.value.sharers - {txn.src}, SnpUnique, UD, v.value.state in {UD, SD})
  {
    hide RecvRequest, SnoopStep, ViewOps, Asks, LooksUpFirst;
    RequestShape(t, v, txn);
    RequestOps(t, v, txn);
    if v.Some? {
      SharersApart(v.value, txn);
      if v.value.sharers <= {txn.src} {
        ServedLeaves(t, v.value, txn);
        ServedLooksUp(t, v.value, txn);
      } else {
        SnoopStepAsks(t, v.value, txn, v.value.sharers - {txn.src}, SnpUnique, UD, v.value.state in {UD, SD});
      }
    }
  }

  /** CleanUnique: a UC line is granted as it is; a UD line is written to memory and granted at once; a shared line is
      granted to its sole sharer, or else the others are asked, for data if the line is SD. */
  lemma CleanUniqueReacts(t: Tables, v: Option<Line>, txn: Txn)
    requires txn.opcode == CleanUnique && (v.Some? ==> v.value.state != I)
    requires v.Some? ==> t.nextSnoop + |v.value.sharers - {txn.src}| < 0x1_0000_0000
    ensures var out, comp := RecvRequest(t, v, txn), SendComp(txn.addr, txn.txnID, txn.src);
            if v == None then Fetches(out, t, txn, UC) && out.ops == [Touch]
            else if v.value.state == UC then Serves(out, t, v.value, v.value, comp)
            else if v.value.state == UD then
              && LooksUpFirst(out.ops) && ViewOps(v, out.ops) == Some(Line(UC, v.value.data, v.value.sharers))
              && out.t == t.(pending := t.pending[t.nextMem := PendingTxn(txn, WaitMemWriteAck, UC, 0, 0)],
                             memToOrig := t.memToOrig[t.nextMem := txn.txnID],
                             nextMem := (t.nextMem + 1) % 0x1_0000_0000)
              && out.actions == [SendWriteNoSnp(txn.addr, t.nextMem, Some(v.value.data)), comp]
            else if v.value.sharers <= {txn.src} then Serves(out, t, v.value, Line(UC, v.value.data, {txn.src}), comp)
            else Asks(out, t, txn, v.value.sharers - {txn.src},
                   if v.value.state == SD then SnpNotSharedDirty else SnpCleanInvalid, UC, v.value.state == SD)
  {
    hide RecvRequest, SnoopStep, ViewOps, Asks, LooksUpFirst;
    RequestShape(t, v, txn);
    RequestOps(t, v, txn);
    if v.Some? {
      SharersApart(v.value, txn);
      if v.value.state == UD {
        CleaningLeaves(t, v.value, txn);
        CleaningLooksUp(v.value);
      } else if v.value.state == UC || v.value.sharers <= {txn.src} {
        ServedLeaves(t, v.value, txn);
        ServedLooksUp(t, v.value, txn);
      } else {
        SnoopStepAsks(t, v.value, txn, v.value.sharers - {txn.src},
          if v.value.state == SD then SnpNotSharedDirty else SnpCleanInvalid, UC, v.value.state == SD);
      }
    }
  }

  lemma CleaningLooksUp(line: Line)
    ensures LooksUpFirst([Touch, SetLineState(UC)])
  {
  }

  /** The writes wait for their data under their own id without touching the cache. All but WriteNoSnp ask the sender
      for it. */
  lemma WriteReacts(t: Tables, v: Option<Line>, txn: Txn)
    requires txn.opcode in {WriteBackFull, WriteUniqueFull, WriteEvictFull, WriteNoSnp}
    ensures var out := RecvRequest(t, v, txn);
            && out.t == t.(pending := t.pending[txn.txnID := PendingTxn(txn, WaitL1Data, I, 0, 0)]) && out.ops == []
            && out.actions == if txn.opcode == WriteNoSnp then [] else [SendCompDBIDResp(txn.addr, txn.txnID, txn.src)]
  {
    hide ViewOps;
  }

  /** Any other opcode is read from memory without a look at the cache. */
  lemma OtherReacts(t: Tables, v: Option<Line>, txn: Txn)
    requires txn.opcode == Other
    ensures var out := RecvRequest(t, v, txn); Fetches(out, t, txn, SC) && out.ops == []
  {
    hide ViewOps;
  }

  /** The assertion against dirty victims fails exactly for a read or CleanUnique of an absent line whose fill would
      drop a UD or SD line. */
  lemma AbortsIff(e: Engine, txn: Txn, state: LineState, data: Data)
    requires ValidStore(e.store)
    ensures Aborts(e, Request(txn)) <==>
              && txn.opcode in {ReadShared, ReadNoSnp, ReadUnique, ReadNotSharedDirty, ReadOnce, CleanUnique}
              && var d := Dropped(e.store, LineOf(txn.addr), Fill(state, data));
                 d.Some? && View(e.store, d.value).Some? && View(e.store, d.value).value.state in {UD, SD}
  {
    hide View, Lookup, Dropped;
    LookupPredictsFill(e.store, LineOf(txn.addr), state, data);
  }

  // ---------- answers to snoops ----------

  /** Transaction `k` is over: its entry, snoops and marks are gone, nothing else is. */
  ghost predicate Retires(t: Tables, t': Tables, k: TxnID) {
    && t' == t.(pending := t.pending - {k}, snoopToOrig := t'.snoopToOrig, counted := t'.counted)
    && (forall id :: id in t'.snoopToOrig <==> id in t.snoopToOrig && t.snoopToOrig[id] != k)
    && (forall id :: id in t'.snoopToOrig ==> t'.snoopToOrig[id] == t.snoopToOrig[id])
    && (forall id :: id in t'.counted <==> id in t.counted && !(id in t.snoopToOrig && t.snoopToOrig[id] == k))
  }

  /** Transaction `k` ends with the line holding `data`: in the target state, with the requester as its one sharer, or
      none after a ReadOnce; CleanUnique is answered without data. */
  ghost predicate Finishes(out: Out, t: Tables, v: Option<Line>, k: TxnID, data: Data)
    requires k in t.pending
  {
    var pt := t.pending[k];
    && Retires(t, out.t, k)
    && ViewOps(v, out.ops) == Some(Line(pt.target, data, if pt.req.opcode == ReadOnce then {} else {pt.req.src}))
    && out.actions == [
         if pt.req.opcode == CleanUnique then SendComp(pt.req.addr, pt.req.txnID, pt.req.src)
         else SendCompData(pt.req.addr, pt.req.txnID, pt.req.src, pt.target, Some(data))]
  }

  lemma CompleteFinishes(t: Tables, t': Tables, v: Option<Line>, k: TxnID)
    requires k in t.pending && v.Some? && v.value.state != I && t.pending[k].target != I
    requires t' == t.(pending := t'.pending, counted := t'.counted) && t'.pending - {k} == t.pending - {k}
    requires k in t'.pending && t'.pending[k].req == t.pending[k].req && t'.pending[k].target == t.pending[k].target
    requires forall id :: !(id in t.snoopToOrig && t.snoopToOrig[id] == k) ==> (id in t'.counted <==> id in t.counted)
    ensures Finishes(Complete(t', v, k), t, v, k, v.value.data)
  {
    hide ViewOps;
    CompletionLeaves(t', v, k);
  }

  /** A response to a snoop lowers the countdown of its transaction and, with both countdowns done, ends it. */
  lemma SnoopResponseReacts(t: Tables, v: Option<Line>, id: TxnID)
    requires id in t.snoopToOrig && t.snoopToOrig[id] in t.pending
    requires v.Some? && v.value.state != I && t.pending[t.snoopToOrig[id]].target != I
    ensures var out, k := RecvResponse(t, v, id), t.snoopToOrig[id];
            var pt := t.pending[k];
            if pt.snoops - 1 <= 0 && pt.beats <= 0 then Finishes(out, t, v, k, v.value.data)
            else out == Out(t.(pending := t.pending[k := pt.(snoops := pt.snoops - 1)]), [], [])
  {
    hide Complete, Finishes, ViewOps;
    var k := t.snoopToOrig[id];
    var pt := t.pending[k].(snoops := t.pending[k].snoops - 1);
    if pt.snoops <= 0 && pt.beats <= 0 {
      CompleteFinishes(t, t.(pending := t.pending[k := pt]), v, k);
    }
  }

  /** A data beat for a snoop fills the line and lowers the beat countdown; the first one of its id also counts as the
      response. With both countdowns done it ends the transaction. */
  lemma SnoopBeatReacts(t: Tables, v: Option<Line>, m: Msg)
    requires m.DataBeat? && m.txnId in t.snoopToOrig && t.snoopToOrig[m.txnId] in t.pending
    requires (m.fb.Some? ==> m.fb.value in t.pending) && t.pending[t.snoopToOrig[m.txnId]].target != I
    ensures var out, k := Step(t, v, m), t.snoopToOrig[m.txnId];
            var pt := t.pending[k];
            var left := if m.txnId in t.counted then pt.snoops else pt.snoops - 1;
            && out.ops != [] && out.ops[0] == Fill(pt.target, m.data)
            && if left <= 0 && pt.beats - 1 <= 0 then Finishes(out, t, v, k, m.data)
               else
                 && out.t == t.(pending := t.pending[k := pt.(snoops := left, beats := pt.beats - 1)],
                                counted := t.counted + {m.txnId})
                 && ViewOps(v, out.ops) == Some(Line(pt.target, m.data, SharersOf(v))) && out.actions == []
  {
    hide Complete, Finishes, ViewOps;
    var k, id := t.snoopToOrig[m.txnId], m.txnId;
    var pt := t.pending[k];
    var left := if id in t.counted then pt.snoops else pt.snoops - 1;
    var fill, filled := Fill(pt.target, m.data), Some(Line(pt.target, m.data, SharersOf(v)));
    var done := Complete(t.(pending := t.pending[k := pt.(snoops := left, beats := pt.beats - 1)],
                            counted := t.counted + {id} - {id}), filled, k);
    ViewFirst(v, fill, []);
    ViewFirst(v, fill, done.ops);
    assert [fill] + [] == [fill] && ViewOps(filled, []) == filled by { ViewShort(filled, fill, fill, fill, fill); }
    if left <= 0 && pt.beats - 1 <= 0 {
      CompleteFinishes(t, t.(pending := t.pending[k := pt.(snoops := left, beats := pt.beats - 1)],
                             counted := t.counted + {id} - {id}), filled, k);
      FinishesAfterFill(done, Step(t, v, m), t, v, filled, k, m.data);
    }
  }

  lemma FinishesAfterFill(done: Out, out: Out, t: Tables, v: Option<Line>, filled: Option<Line>, k: TxnID, data: Data)
    requires k in t.pending && Finishes(done, t, filled, k, data)
    requires out.t == done.t && out.actions == done.actions && ViewOps(v, out.ops) == ViewOps(filled, done.ops)
    ensures Finishes(out, t, v, k, data)
  {
    hide ViewOps;
  }

  // ---------- data from memory and acknowledgements ----------

  /** Memory data fills the line in its target state, adds the requester to the sharers unless it was a ReadOnce,
      answers it, and ends the transaction. */
  lemma MemBeatReacts(t: Tables, v: Option<Line>, m: Msg)
    requires m.DataBeat? && m.txnId !in t.snoopToOrig && m.txnId in t.pending
    requires (m.fb.Some? ==> m.fb.value in t.pending) && t.pending[m.txnId].target != I
    requires t.pending[m.txnId].state == WaitMemData
    ensures var out, pt := Step(t, v, m), t.pending[m.txnId];
            && out.t == t.(pending := t.pending - {m.txnId}, memToOrig := out.t.memToOrig)
            && (forall id :: id in out.t.memToOrig <==> id in t.memToOrig && t.memToOrig[id] != pt.req.txnID)
            && (forall id :: id in out.t.memToOrig ==> out.t.memToOrig[id] == t.memToOrig[id])
            && out.ops != [] && out.ops[0] == Fill(pt.target, m.data)
            && ViewOps(v, out.ops) == Some(Line(pt.target, m.data,
                 if pt.req.opcode == ReadOnce then SharersOf(v) else SharersOf(v) + {pt.req.src}))
            && out.actions == [
                 if pt.req.opcode == CleanUnique then SendComp(pt.req.addr, pt.req.txnID, pt.req.src)
                 else SendCompData(pt.req.addr, pt.req.txnID, pt.req.src, pt.target, Some(m.data))]
  {
    hide ViewOps;
    MemDataLeaves(t, v, m.txnId, m.data);
    assert SharersOf(v) + {} == SharersOf(v);
  }

  /** The acknowledgement of a write to memory ends the transaction and does nothing else. */
  lemma WriteAckReacts(t: Tables, v: Option<Line>, id: TxnID)
    requires id !in t.snoopToOrig && id in t.pending && t.pending[id].state == WaitMemWriteAck
    ensures var out := RecvResponse(t, v, id);
            && out.t == t.(pending := t.pending - {id}, memToOrig := out.t.memToOrig)
            && (forall k :: k in out.t.memToOrig <==> k in t.memToOrig && t.memToOrig[k] != id && k != id)
            && (forall k :: k in out.t.memToOrig ==> out.t.memToOrig[k] == t.memToOrig[k])
            && out.ops == [] && out.actions == []
  {
  }

  // ---------- write data ----------

  /** The entry waits for write data about this address. */
  ghost predicate Parked(t: Tables, k: TxnID, addr: Addr) {
    k in t.pending && t.pending[k].state == WaitL1Data && t.pending[k].req.addr == addr
  }

  /** The data ends the write `k`: the line is UD, holds it, and has the sender among its sharers. */
  ghost predicate Absorbs(out: Out, t: Tables, v: Option<Line>, k: TxnID, data: Data)
    requires k in t.pending
  {
    && out.t == t.(pending := t.pending - {k}) && out.actions == []
    && out.ops != [] && out.ops[0] == Fill(UD, data)
    && ViewOps(v, out.ops) == Some(Line(UD, data, SharersOf(v) + {t.pending[k].req.src}))
  }

  lemma RecvWriteDataAbsorbs(t: Tables, v: Option<Line>, k: TxnID, data: Data)
    requires k in t.pending
    ensures Absorbs(RecvWriteData(t, k, data), t, v, k, data)
  {
    hide ViewOps;
    WriteDataLeaves(t, v, k, data);
  }

  /** Write data under the write's own id reaches that write, whatever its opcode. */
  lemma WriteDataReacts(t: Tables, v: Option<Line>, m: Msg)
    requires m.DataBeat? && (m.fb.Some? ==> m.fb.value in t.pending)
    requires m.txnId !in t.snoopToOrig && m.txnId in t.pending && t.pending[m.txnId].state == WaitL1Data
    ensures Target(t, m) == Some(m.txnId) && Absorbs(Step(t, v, m), t, v, m.txnId, m.data)
  {
    hide ViewOps, Absorbs;
    RecvWriteDataAbsorbs(t, v, m.txnId, m.data);
  }

  /** Data under an id that is not live goes to a write that waits for the address, whatever its opcode: any one of them
      may be met, one of them is, and if there is none nothing changes. */
  lemma FallbackReacts(t: Tables, v: Option<Line>, m: Msg)
    requires m.DataBeat? && Deliverable(t, m) && m.txnId !in t.snoopToOrig && m.txnId !in t.pending
    ensures (exists k :: Parked(t, k, m.addr)) ==>
              Target(t, m).Some? && Parked(t, Target(t, m).value, m.addr)
              && Absorbs(Step(t, v, m), t, v, Target(t, m).value, m.data)
    ensures (forall k :: !Parked(t, k, m.addr)) ==> Target(t, m) == None && Step(t, v, m) == Out(t, [], [])
    ensures forall k: TxnID :: Parked(t, k, m.addr) ==>
              var m' := m.(fb := Some(k)); Deliverable(t, m') && Target(t, m') == Some(k)
  {
    hide ViewOps, Absorbs;
    assert forall k :: Parked(t, k, m.addr) <==> AwaitsWriteOf(t, k, m.addr);
    if k :| Parked(t, k, m.addr) {
      assert m.fb.Some?;
      RecvWriteDataAbsorbs(t, v, m.fb.value, m.data);
    }
  }

  // ---------- messages nobody waits for ----------

  /** A message under any other id changes nothing: a snoop of a transaction that is gone, a response to a transaction
      that waits for something else, or data for one that does not wait for data. */
  lemma OthersAreIgnored(t: Tables, v: Option<Line>, m: Msg)
    requires (m.DataBeat? && (m.fb.Some? ==> m.fb.value in t.pending)) || m.Response?
    requires if m.txnId in t.snoopToOrig then t.snoopToOrig[m.txnId] !in t.pending
             else if m.DataBeat? then
               m.txnId in t.pending && t.pending[m.txnId].state in {WaitSnoopResp, WaitMemWriteAck}
             else m.txnId in t.pending ==> t.pending[m.txnId].state != WaitMemWriteAck
    ensures Target(t, m) == None && Step(t, v, m) == Out(t, [], [])
  {
    hide ViewOps;
  }

  /** A direct invalidation removes its line and leaves the tables alone. */
  lemma EvictReacts(e: Engine, addr: Addr, other: LineNo)
    requires ValidStore(e.store)
    ensures var e' := Next(e, Evict(addr));
            e'.t == e.t && View(e'.store, addr / 64) == None
            && (other != addr / 64 ==> View(e'.store, other) == View(e.store, other))
  {
    hide View, Apply;
    StateEdits(e.store, LineOf(addr), I);
    assert ApplyOps(e.store, LineOf(addr), [Invalidate]) == Apply(e.store, LineOf(addr), Invalidate) by {
      assert [Invalidate][1..] == [];
    }
  }
}
