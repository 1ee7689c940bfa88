/** What becomes of a request whose entry is overwritten by another request under the same key: nobody ever answers
    it. */
module LostRequests {
  import opened ChiTypes
  import opened CacheStore
  import opened EngineSpec
  import opened EngineTables
  import opened Conservation

  /** Some pending entry stands for this ticket. */
  ghost predicate Held(p: map<TxnID, PendingTxn>, ticket: Ticket) {
    exists k :: k in p && TicketOf(p[k].req) == ticket
  }

  predicate Asks(m: Msg, ticket: Ticket) { m.Request? && TicketOf(m.txn) == ticket }

  predicate AnswersTicket(a: Action, ticket: Ticket) {
    (a.SendCompData? || a.SendComp?) && Ticket(a.dest, a.txnId) == ticket
  }

  ghost predicate NoAnswer(actions: seq<Action>, ticket: Ticket) {
    forall i :: 0 <= i < |actions| ==> !AnswersTicket(actions[i], ticket)
  }

  /** `p'` holds no requests but those of `p` and, if given, a new one. */
  ghost predicate NoNewcomer(p: map<TxnID, PendingTxn>, p': map<TxnID, PendingTxn>, newcomer: Option<Txn>) {
    forall k :: k in p' ==> Some(p'[k].req) == newcomer || (k in p && p'[k].req == p[k].req)
  }

  lemma NoNewcomerHolds(p: map<TxnID, PendingTxn>, p': map<TxnID, PendingTxn>, newcomer: Option<Txn>, ticket: Ticket)
    requires NoNewcomer(p, p', newcomer) && !Held(p, ticket) && (newcomer.Some? ==> TicketOf(newcomer.value) != ticket)
    ensures !Held(p', ticket)
  {
    forall k | k in p' ensures TicketOf(p'[k].req) != ticket {
      assert k in p ==> TicketOf(p[k].req) != ticket;
    }
  }

  lemma {:induction false} SnoopsKeepEntries(t: Tables, txn: Txn, kind: SnoopKind, order: seq<NodeID>, ret: bool)
    ensures var r := IssueSnoops(t, txn, kind, order, ret);
            r.t.pending == t.pending && forall i :: 0 <= i < |r.actions| ==> r.actions[i].SendSnoop?
  {
    if order != [] { SnoopsKeepEntries(t, txn, kind, order[..|order| - 1], ret); }
  }

  lemma RequestAnswersItself(t: Tables, v: Option<Line>, txn: Txn, ticket: Ticket)
    requires TicketOf(txn) != ticket
    ensures NoAnswer(RecvRequest(t, v, txn).actions, ticket)
    ensures NoNewcomer(t.pending, RecvRequest(t, v, txn).t.pending, Some(txn))
  {
    hide RecvRequest, SnoopStep, SnoopTargets, IssueSnoops, ViewOps;
    RequestShape(t, v, txn);
    if !IsWrite(txn.opcode) && SnoopTargets(v, txn) != {} {
      SnoopAnswersNobody(t, v.value, txn, ticket);
    } else if KeyUsed(t, v, txn) == None {
      ServedAnswersItself(t, v, txn, ticket);
    }
  }

  lemma SnoopAnswersNobody(t: Tables, line: Line, txn: Txn, ticket: Ticket)
    ensures NoAnswer(SnoopStep(t, line, txn).actions, ticket)
    ensures NoNewcomer(t.pending, SnoopStep(t, line, txn).t.pending, Some(txn))
  {
    hide SnoopTargets, Ascending, IssueSnoops;
    SnoopsKeepEntries(t.(pending := t.pending[txn.txnID := SnoopEntry(line, txn)]), txn, SnoopKindFor(line, txn.opcode),
      Ascending(SnoopTargets(Some(line), txn)), Dirty(line.state));
  }

  lemma ServedAnswersItself(t: Tables, v: Option<Line>, txn: Txn, ticket: Ticket)
    requires TicketOf(txn) != ticket && KeyUsed(t, v, txn) == None
    ensures NoAnswer(RecvRequest(t, v, txn).actions, ticket)
  {
    hide ViewOps, Snoop, IssueSnoops;
  }

  /** A delivery answers only a request that some entry stands for. */
  lemma DeliveryAnswersHeld(t: Tables, v: Option<Line>, m: Msg, ticket: Ticket)
    requires !m.Request? && (m.DataBeat? && m.fb.Some? ==> m.fb.value in t.pending) && !Held(t.pending, ticket)
    ensures NoAnswer(Step(t, v, m).actions, ticket)
    ensures NoNewcomer(t.pending, Step(t, v, m).t.pending, None)
  {
    hide ViewOps, ApplyView, Finished, RecvSnoopData, RecvSnoopResponse, Held;
    NotHeldAnywhere(t.pending, ticket);
    if m.DataBeat? && m.txnId in t.snoopToOrig && t.snoopToOrig[m.txnId] in t.pending {
      SnoopDataAnswersHeld(t, v, t.snoopToOrig[m.txnId], m.txnId, m.data, ticket);
    } else if m.Response? && m.txnId in t.snoopToOrig && t.snoopToOrig[m.txnId] in t.pending {
      SnoopResponseAnswersHeld(t, v, t.snoopToOrig[m.txnId], ticket);
    }
  }

  lemma NotHeldAnywhere(p: map<TxnID, PendingTxn>, ticket: Ticket)
    requires !Held(p, ticket)
    ensures forall k :: k in p ==> TicketOf(p[k].req) != ticket
  {
  }

  lemma SnoopDataAnswersHeld(t: Tables, v: Option<Line>, orig: TxnID, id: TxnID, data: Data, ticket: Ticket)
    requires orig in t.pending && TicketOf(t.pending[orig].req) != ticket
    ensures NoAnswer(RecvSnoopData(t, v, orig, id, data).actions, ticket)
    ensures NoNewcomer(t.pending, RecvSnoopData(t, v, orig, id, data).t.pending, None)
  {
    hide ViewOps, ApplyView, Finished;
  }

  lemma SnoopResponseAnswersHeld(t: Tables, v: Option<Line>, orig: TxnID, ticket: Ticket)
    requires orig in t.pending && TicketOf(t.pending[orig].req) != ticket
    ensures NoAnswer(RecvSnoopResponse(t, v, orig).actions, ticket)
    ensures NoNewcomer(t.pending, RecvSnoopResponse(t, v, orig).t.pending, None)
  {
    hide ViewOps, ApplyView, Finished;
  }

  /** A ticket that no entry stands for is not answered by any step that does not ask it, and stays without an entry.
      The tables need not be consistent for that. */
  lemma LostStaysLost(t: Tables, v: Option<Line>, m: Msg, ticket: Ticket)
    requires (m.DataBeat? && m.fb.Some? ==> m.fb.value in t.pending) && !Held(t.pending, ticket) && !Asks(m, ticket)
    ensures NoAnswer(Step(t, v, m).actions, ticket) && !Held(Step(t, v, m).t.pending, ticket)
  {
    hide RecvRequest, RecvData, RecvResponse, NoNewcomer, Held, NoAnswer;
    if m.Request? {
      RequestAnswersItself(t, v, m.txn, ticket);
      NoNewcomerHolds(t.pending, Step(t, v, m).t.pending, Some(m.txn), ticket);
    } else {
      DeliveryAnswersHeld(t, v, m, ticket);
      NoNewcomerHolds(t.pending, Step(t, v, m).t.pending, None, ticket);
    }
  }

  // ---------- overwriting ----------

  /** The request takes the key of an entry that stands for another node's or another id's ticket, the only
      one to do so. */
  ghost predicate Overwrites(t: Tables, v: Option<Line>, txn: Txn, ticket: Ticket) {
    var k := KeyUsed(t, v, txn);
    && k.Some? && k.value in t.pending && TicketOf(t.pending[k.value].req) == ticket && TicketOf(txn) != ticket
    && (forall j :: j in t.pending && j != k.value ==> TicketOf(t.pending[j].req) != ticket)
  }

  lemma OverwrittenIsLost(t: Tables, v: Option<Line>, txn: Txn, ticket: Ticket)
    requires Overwrites(t, v, txn, ticket)
    ensures NoAnswer(RecvRequest(t, v, txn).actions, ticket) && !Held(RecvRequest(t, v, txn).t.pending, ticket)
  {
    hide RecvRequest, SnoopStep, SnoopTargets, IssueSnoops, NoAnswer, SnoopEntry;
    RequestAnswersItself(t, v, txn, ticket);
    RequestShape(t, v, txn);
    if !IsWrite(txn.opcode) && SnoopTargets(v, txn) != {} { SnoopPuts(t, v.value, txn); }
    SnoopEntryReq(v, txn);
    var k, p' := KeyUsed(t, v, txn).value, RecvRequest(t, v, txn).t.pending;
    assert p'[k].req == txn;
  }

  lemma SnoopEntryReq(v: Option<Line>, txn: Txn)
    ensures v.Some? ==> SnoopEntry(v.value, txn).req == txn
  {
  }

  lemma SnoopPuts(t: Tables, line: Line, txn: Txn)
    ensures SnoopStep(t, line, txn).t.pending == t.pending[txn.txnID := SnoopEntry(line, txn)]
  {
    hide SnoopTargets, Ascending, IssueSnoops;
    SnoopsKeepEntries(t.(pending := t.pending[txn.txnID := SnoopEntry(line, txn)]), txn, SnoopKindFor(line, txn.opcode),
      Ascending(SnoopTargets(Some(line), txn)), Dirty(line.state));
  }

  /** Once another request has overwritten its entry, a request is never answered again, whatever happens, unless it is
      asked anew. */
  lemma {:induction false} OverwrittenIsNeverAnswered(es: seq<Engine>, ms: seq<Msg>, txn: Txn, ticket: Ticket, i: nat)
    requires IsWildRun(es, ms) && i < |ms| && ms[0] == Request(txn)
             && Overwrites(es[0].t, ViewFor(es[0], ms[0]), txn, ticket)
    requires forall j :: 1 <= j < |ms| ==> !Asks(ms[j], ticket)
    ensures NoAnswer(StepOut(es[i], ms[i]).actions, ticket) && !Held(es[i + 1].t.pending, ticket)
  {
    hide Step, RecvRequest, ApplyOps, Held, NoAnswer, ViewFor, Overwrites, LineFor;
    if i == 0 {
      OverwrittenIsLost(es[0].t, ViewFor(es[0], ms[0]), txn, ticket);
      RequestStepIs(es[0].t, ViewFor(es[0], ms[0]), txn);
    } else {
      OverwrittenIsNeverAnswered(es, ms, txn, ticket, i - 1);
      LostStaysLost(es[i].t, ViewFor(es[i], ms[i]), ms[i], ticket);
    }
  }

  /** It happens: node 1 reads a line that node 2 shares under id 5, and before node 2 has answered node 7 starts a
      write-back under id 5. */
  lemma AnOverwrite(data: Data, v: Option<Line>)
    ensures var read, write := Txn(5, ReadUnique, 0, 1), Txn(5, WriteBackFull, 64, 7);
            var t := RecvRequest(INITIAL_TABLES, Some(Line(SC, data, {2})), read).t;
            && Overwrites(t, v, write, Ticket(1, 5)) && ForgetsSomeone(t, v, write)
            && !Held(RecvRequest(t, v, write).t.pending, Ticket(1, 5))
  {
    hide SnoopStep, RecvRequest, SnoopTargets, Ascending, Held;
    var read, line := Txn(5, ReadUnique, 0, 1), Line(SC, data, {2});
    OneTarget(data);
    RequestShape(INITIAL_TABLES, Some(line), read);
    SnoopPuts(INITIAL_TABLES, line, read);
    var t := RecvRequest(INITIAL_TABLES, Some(line), read).t;
    assert t.pending == map[5 := SnoopEntry(line, read)];
    OverwrittenIsLost(t, v, Txn(5, WriteBackFull, 64, 7), Ticket(1, 5));
  }

  lemma OneTarget(data: Data)
    ensures SnoopTargets(Some(Line(SC, data, {2})), Txn(5, ReadUnique, 0, 1)) == {2}
  {
  }
}
