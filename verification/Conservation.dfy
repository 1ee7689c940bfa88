/** Every accepted read or CleanUnique request is answered exactly once, to the node that asked. */
module Conservation {
  import opened ChiTypes
  import opened CacheStore
  import opened EngineSpec
  import opened EngineTables

  /** A claim to one answer: the node and the transaction id it used. */
  datatype Ticket = Ticket(node: NodeID, id: TxnID)

  function TicketOf(txn: Txn): Ticket { Ticket(txn.src, txn.txnID) }

  function Asked(m: Msg): multiset<Ticket> {
    if m.Request? && !IsWrite(m.txn.opcode) then multiset{TicketOf(m.txn)} else multiset{}
  }

  function AnsweredBy(a: Action): multiset<Ticket> {
    match a
    case SendCompData(_, id, dest, _, _) => multiset{Ticket(dest, id)}
    case SendComp(_, id, dest) => multiset{Ticket(dest, id)}
    case _ => multiset{}
  }

  function Answered(actions: seq<Action>): multiset<Ticket> {
    if actions == [] then multiset{} else AnsweredBy(actions[0]) + Answered(actions[1..])
  }

  /** A pending transaction still owes an answer while it waits for memory data or for snoops. */
  function OwedBy(pt: PendingTxn): multiset<Ticket> {
    if pt.state == WaitMemData || pt.state == WaitSnoopResp then multiset{TicketOf(pt.req)} else multiset{}
  }

  ghost function AnyKey(p: map<TxnID, PendingTxn>): (k: TxnID)
    requires p.Keys != {}
    ensures k in p
  {
    var k :| k in p;
    k
  }

  ghost function Owed(p: map<TxnID, PendingTxn>): multiset<Ticket>
    decreases |p.Keys|
  {
    if p.Keys == {} then multiset{}
    else
      var k := AnyKey(p);
      assert (p - {k}).Keys == p.Keys - {k};
      OwedBy(p[k]) + Owed(p - {k})
  }

  lemma SwapSum(a: multiset<Ticket>, b: multiset<Ticket>, c: multiset<Ticket>)
    ensures a + (b + c) == b + (a + c)
  {
  }

  lemma {:induction false} OwedSplit(p: map<TxnID, PendingTxn>, k: TxnID)
    requires k in p
    ensures Owed(p) == OwedBy(p[k]) + Owed(p - {k})
    decreases |p.Keys|
  {
    hide OwedBy, AnyKey;
    var j := AnyKey(p);
    if j != k {
      OwedSplit(p - {j}, k);
      OwedSplit(p - {k}, j);
      assert p - {j} - {k} == p - {k} - {j};
      SwapSum(OwedBy(p[j]), OwedBy(p[k]), Owed(p - {j} - {k}));
    }
  }

  lemma OwedPut(p: map<TxnID, PendingTxn>, k: TxnID, pt: PendingTxn)
    ensures Owed(p[k := pt]) == OwedBy(pt) + Owed(p - {k})
    ensures k !in p ==> p - {k} == p
  {
    hide OwedBy, AnyKey, Owed;
    OwedSplit(p[k := pt], k);
    assert p[k := pt] - {k} == p - {k};
  }

  lemma {:induction false} SnoopsAnswerNothing(actions: seq<Action>)
    requires forall i :: 0 <= i < |actions| ==> actions[i].SendSnoop?
    ensures Answered(actions) == multiset{}
  {
    if actions != [] { SnoopsAnswerNothing(actions[1..]); }
  }

  lemma AnsweredOne(a: Action)
    ensures Answered([a]) == AnsweredBy(a)
  {
    assert [a][1..] == [];
  }

  lemma AnsweredTwo(a: Action, b: Action)
    ensures Answered([a, b]) == AnsweredBy(a) + AnsweredBy(b)
  {
    AnsweredOne(b);
    assert [a, b][1..] == [b];
  }

  // ---------- requests ----------

  predicate ForgetsSomeone(t: Tables, v: Option<Line>, txn: Txn) {
    var k := KeyUsed(t, v, txn);
    k.Some? && k.value in t.pending && t.pending[k.value].state in {WaitMemData, WaitSnoopResp}
  }

  ghost predicate Balanced(t: Tables, m: Msg, out: Out) {
    Owed(t.pending) + Asked(m) == Owed(out.t.pending) + Answered(out.actions)
  }

  lemma PutBalance(p: map<TxnID, PendingTxn>, k: TxnID, pt: PendingTxn)
    ensures Owed(p) + OwedBy(pt) == Owed(p[k := pt]) <==> !(k in p && p[k].state in {WaitMemData, WaitSnoopResp})
    ensures k !in p ==> Owed(p) + OwedBy(pt) == Owed(p[k := pt])
  {
    OwedPut(p, k, pt);
    if k in p {
      OwedSplit(p, k);
      assert |Owed(p) + OwedBy(pt)| == |Owed(p[k := pt])| + |OwedBy(p[k])|;
    }
  }

  lemma SnoopStepBalance(t: Tables, line: Line, txn: Txn)
    requires t.nextSnoop + |SnoopTargets(Some(line), txn)| < ID_LIMIT
    ensures SnoopStep(t, line, txn).t.pending == t.pending[txn.txnID := SnoopEntry(line, txn)]
    ensures Answered(SnoopStep(t, line, txn).actions) == multiset{}
  {
    hide SnoopStep, SnoopTargets, SnoopEntry, Ascending;
    SnoopStepEffect(t, line, txn);
    SnoopsAnswerNothing(SnoopStep(t, line, txn).actions);
  }

  lemma ServedTicket(t: Tables, v: Option<Line>, txn: Txn)
    requires KeyUsed(t, v, txn).None?
    ensures exists a :: RecvRequest(t, v, txn).actions == [a] && AnsweredBy(a) == multiset{TicketOf(txn)}
    ensures RecvRequest(t, v, txn).t == t
  {
    hide ViewOps, Snoop;
    var a := RecvRequest(t, v, txn).actions[0];
    assert RecvRequest(t, v, txn).actions == [a];
  }

  lemma StoredBalance(t: Tables, v: Option<Line>, txn: Txn, pt: PendingTxn)
    requires KeyUsed(t, v, txn).Some? && RecvRequest(t, v, txn).t.pending == t.pending[KeyUsed(t, v, txn).value := pt]
    requires OwedBy(pt) + Answered(RecvRequest(t, v, txn).actions) == Asked(Request(txn))
    ensures Balanced(t, Request(txn), RecvRequest(t, v, txn)) <==> !ForgetsSomeone(t, v, txn)
  {
    hide RecvRequest, Owed, OwedBy, Answered, Asked, KeyUsed;
    var k := KeyUsed(t, v, txn).value;
    var out := RecvRequest(t, v, txn);
    PutBalance(t.pending, k, pt);
    if !ForgetsSomeone(t, v, txn) {
      assert Owed(t.pending) + (OwedBy(pt) + Answered(out.actions)) == Owed(out.t.pending) + Answered(out.actions);
    } else if Balanced(t, Request(txn), out) {
      CancelSum(Owed(t.pending) + OwedBy(pt), Owed(out.t.pending), Answered(out.actions));
      assert false;
    }
  }

  lemma CancelSum(a: multiset<Ticket>, b: multiset<Ticket>, c: multiset<Ticket>)
    requires a + c == b + c
    ensures a == b
  {
    assert a + c - c == a && b + c - c == b;
  }

  lemma WriteBalance(t: Tables, v: Option<Line>, txn: Txn)
    requires IsWrite(txn.opcode)
    ensures Balanced(t, Request(txn), RecvRequest(t, v, txn)) <==> !ForgetsSomeone(t, v, txn)
  {
    hide RecvRequest, Balanced, ForgetsSomeone, Owed, SnoopTargets;
    RequestShape(t, v, txn);
    AnsweredOne(SendCompDBIDResp(txn.addr, txn.txnID, txn.src));
    StoredBalance(t, v, txn, PendingTxn(txn, WaitL1Data, I, 0, 0));
  }

  lemma SnoopBalance(t: Tables, v: Option<Line>, txn: Txn)
    requires !IsWrite(txn.opcode) && SnoopTargets(v, txn) != {}
    requires t.nextSnoop + |SnoopTargets(v, txn)| < ID_LIMIT
    ensures Balanced(t, Request(txn), RecvRequest(t, v, txn)) <==> !ForgetsSomeone(t, v, txn)
  {
    hide RecvRequest, Balanced, ForgetsSomeone, Owed, SnoopTargets, SnoopStep;
    RequestShape(t, v, txn);
    SnoopStepBalance(t, v.value, txn);
    StoredBalance(t, v, txn, SnoopEntry(v.value, txn));
  }

  lemma FetchBalance(t: Tables, v: Option<Line>, txn: Txn)
    requires !IsWrite(txn.opcode) && SnoopTargets(v, txn) == {} && (v.None? || txn.opcode == Other)
    ensures Balanced(t, Request(txn), RecvRequest(t, v, txn)) <==> !ForgetsSomeone(t, v, txn)
  {
    hide RecvRequest, Balanced, ForgetsSomeone, Owed, SnoopTargets, SnoopStep;
    RequestShape(t, v, txn);
    AnsweredOne(SendReadNoSnp(txn.addr, t.nextMem));
    StoredBalance(t, v, txn, PendingTxn(txn, WaitMemData, TargetState(txn.opcode), 0, 0));
  }

  lemma CleanDirtyBalance(t: Tables, v: Option<Line>, txn: Txn)
    requires txn.opcode == CleanUnique && v.Some? && v.value.state == UD
    ensures Balanced(t, Request(txn), RecvRequest(t, v, txn)) <==> !ForgetsSomeone(t, v, txn)
  {
    hide RecvRequest, Balanced, ForgetsSomeone, Owed, SnoopStep;
    RequestShape(t, v, txn);
    CleanDirtyAnswer(t, v.value, txn);
    StoredBalance(t, v, txn, PendingTxn(txn, WaitMemWriteAck, UC, 0, 0));
  }

  /** A request is booked correctly exactly when it does not overwrite an entry that still owes an answer. */
  lemma RequestBalancedIff(t: Tables, v: Option<Line>, txn: Txn)
    requires t.nextSnoop + |SnoopTargets(v, txn)| < ID_LIMIT
    ensures Balanced(t, Request(txn), RecvRequest(t, v, txn)) <==> !ForgetsSomeone(t, v, txn)
  {
    hide RecvRequest, Balanced, ForgetsSomeone;
    if IsWrite(txn.opcode) {
      WriteBalance(t, v, txn);
    } else if SnoopTargets(v, txn) != {} {
      SnoopBalance(t, v, txn);
    } else if v.None? || txn.opcode == Other {
      FetchBalance(t, v, txn);
    } else if txn.opcode == CleanUnique && v.value.state == UD {
      CleanDirtyBalance(t, v, txn);
    } else {
      ServedBalance(t, v, txn);
    }
  }

  lemma CleanDirtyAnswer(t: Tables, line: Line, txn: Txn)
    ensures Answered(CleanDirtyLine(t, line, txn).actions) == multiset{TicketOf(txn)}
  {
    hide ViewOps;
    var acts := CleanDirtyLine(t, line, txn).actions;
    AnsweredTwo(acts[0], acts[1]);
  }

  lemma ServedBalance(t: Tables, v: Option<Line>, txn: Txn)
    requires KeyUsed(t, v, txn).None?
    ensures Balanced(t, Request(txn), RecvRequest(t, v, txn)) && !ForgetsSomeone(t, v, txn)
  {
    hide RecvRequest, Owed;
    ServedTicket(t, v, txn);
    var a :| RecvRequest(t, v, txn).actions == [a] && AnsweredBy(a) == multiset{TicketOf(txn)};
    AnsweredOne(a);
  }

  // ---------- deliveries ----------

  /** Removing an entry and emitting the answer it owes keeps the books. */
  lemma ClosedBalance(t: Tables, m: Msg, k: TxnID, out: Out)
    requires k in t.pending && Asked(m) == multiset{}
    requires out.t.pending == t.pending - {k} && Answered(out.actions) == OwedBy(t.pending[k])
    ensures Balanced(t, m, out)
  {
    hide Owed, OwedBy, Answered, Asked;
    OwedSplit(t.pending, k);
  }

  /** Changing only the countdowns of an entry, without an answer, keeps the books. */
  lemma RecountedBalance(t: Tables, m: Msg, k: TxnID, pt: PendingTxn, out: Out)
    requires k in t.pending && Asked(m) == multiset{} && OwedBy(pt) == OwedBy(t.pending[k])
    requires out.t.pending == t.pending[k := pt] && out.actions == []
    ensures Balanced(t, m, out)
  {
    hide Owed, OwedBy, Asked;
    OwedSplit(t.pending, k);
    OwedPut(t.pending, k, pt);
  }

  lemma CompleteAnswer(t: Tables, v: Option<Line>, k: TxnID)
    requires k in t.pending && t.pending[k].state == WaitSnoopResp
    ensures Answered(Complete(t, v, k).actions) == multiset{TicketOf(t.pending[k].req)}
  {
    hide ViewOps;
    AnsweredOne(Complete(t, v, k).actions[0]);
  }

  lemma MemDataAnswer(t: Tables, v: Option<Line>, k: TxnID, data: Data)
    requires k in t.pending && t.pending[k].state == WaitMemData
    ensures Answered(RecvMemData(t, v, k, data).actions) == multiset{TicketOf(t.pending[k].req)}
  {
    hide ViewOps;
    AnsweredOne(RecvMemData(t, v, k, data).actions[0]);
  }

  lemma SnoopDataBalance(t: Tables, v: Option<Line>, m: Msg, orig: TxnID, id: TxnID, data: Data)
    requires Asked(m) == multiset{} && orig in t.pending && t.pending[orig].state == WaitSnoopResp
    ensures Balanced(t, m, RecvSnoopData(t, v, orig, id, data))
  {
    hide Balanced, Owed, ViewOps, ApplyView, Answered;
    var pt := t.pending[orig];
    var pt' := pt.(beats := pt.beats - 1, snoops := if id in t.counted then pt.snoops else pt.snoops - 1);
    var t' := t.(pending := t.pending[orig := pt'], counted := t.counted + {id});
    var out := RecvSnoopData(t, v, orig, id, data);
    if Finished(pt') {
      CompleteAnswer(t'.(counted := t'.counted - {id}), ApplyView(v, Fill(pt.target, data)), orig);
      assert out.t.pending == t.pending - {orig};
      ClosedBalance(t, m, orig, out);
    } else {
      RecountedBalance(t, m, orig, pt', out);
    }
  }

  lemma SnoopResponseBalance(t: Tables, v: Option<Line>, m: Msg, orig: TxnID)
    requires Asked(m) == multiset{} && orig in t.pending && t.pending[orig].state == WaitSnoopResp
    ensures Balanced(t, m, RecvSnoopResponse(t, v, orig))
  {
    hide Balanced, Owed, ViewOps, Answered;
    var pt := t.pending[orig].(snoops := t.pending[orig].snoops - 1);
    var out := RecvSnoopResponse(t, v, orig);
    if Finished(pt) {
      CompleteAnswer(t.(pending := t.pending[orig := pt]), v, orig);
      assert out.t.pending == t.pending - {orig};
      ClosedBalance(t, m, orig, out);
    } else {
      RecountedBalance(t, m, orig, pt, out);
    }
  }

  lemma DataBalance(t: Tables, v: Option<Line>, m: Msg)
    requires Consistent(t) && m.DataBeat? && Deliverable(t, m)
    ensures Balanced(t, m, Step(t, v, m))
  {
    hide Balanced, Owed, RecvSnoopData, RecvMemData, Consistent, Answered;
    RoutingIsExact(t, m.txnId, m.fb);
    match DataRoute(t, m.txnId, m.fb)
    case NoRoute => NothingBalanced(t, m);
    case SnoopData(k) => SnoopDataBalance(t, v, m, k, m.txnId, m.data);
    case WriteBack(k) =>
      assert t.pending[k].state == WaitL1Data;
      AnsweredNone();
      ClosedBalance(t, m, k, RecvWriteData(t, k, m.data));
    case MemData(k) =>
      MemDataAnswer(t, v, k, m.data);
      MemDataRemoves(t, v, k, m.data);
      ClosedBalance(t, m, k, RecvMemData(t, v, k, m.data));
  }

  lemma MemDataRemoves(t: Tables, v: Option<Line>, k: TxnID, data: Data)
    requires k in t.pending
    ensures RecvMemData(t, v, k, data).t.pending == t.pending - {k}
  {
  }

  lemma AnsweredNone()
    ensures Answered([]) == multiset{}
  {
  }

  lemma NothingBalanced(t: Tables, m: Msg)
    requires Asked(m) == multiset{}
    ensures forall ops :: Balanced(t, m, Out(t, ops, []))
  {
  }

  lemma ResponseBalance(t: Tables, v: Option<Line>, m: Msg)
    requires Consistent(t) && m.Response?
    ensures Balanced(t, m, Step(t, v, m))
  {
    hide Balanced, Owed, RecvSnoopResponse, Answered;
    NothingBalanced(t, m);
    var id := m.txnId;
    if id in t.snoopToOrig {
      assert SnoopEntryOk(t, id);
      SnoopResponseBalance(t, v, m, t.snoopToOrig[id]);
    } else if id in t.pending && t.pending[id].state == WaitMemWriteAck {
      AnsweredNone();
      ClosedBalance(t, m, id, RecvWriteAck(t, id));
    }
  }

  /** Request/response conservation, one step. */
  lemma StepBalanced(t: Tables, v: Option<Line>, m: Msg)
    requires Consistent(t) && MsgOk(t, v, m)
    ensures Balanced(t, m, Step(t, v, m))
  {
    hide Balanced, Owed, Answered;
    match m
    case Request(txn) =>
      assert t.nextMem in t.pending ==> EntryOk(t, t.nextMem);
      RequestBalancedIff(t, v, txn);
    case DataBeat(_, _, _, _) => DataBalance(t, v, m);
    case Response(_) => ResponseBalance(t, v, m);
    case Evict(_) => NothingBalanced(t, m);
  }

  // ---------- runs ----------

  ghost function AskedIn(ms: seq<Msg>): multiset<Ticket> {
    if ms == [] then multiset{} else AskedIn(ms[..|ms| - 1]) + Asked(ms[|ms| - 1])
  }

  /** All answers emitted while `ms` drives the engine through `es`. */
  ghost function AnsweredIn(es: seq<Engine>, ms: seq<Msg>, n: nat): multiset<Ticket>
    requires IsRun(es, ms) && n <= |ms|
  {
    if n == 0 then multiset{}
    else
      RunAt(es, ms, n - 1);
      AnsweredIn(es, ms, n - 1) + Answered(StepOut(es[n - 1], ms[n - 1]).actions)
  }

  /** Over any run: what was asked is what was answered plus what is still owed. No request is answered twice,
      answered to another node, or forgotten. */
  lemma {:induction false} RunConserves(es: seq<Engine>, ms: seq<Msg>, n: nat)
    requires IsRun(es, ms) && es[0].t == INITIAL_TABLES && n <= |ms|
    ensures AskedIn(ms[..n]) == AnsweredIn(es, ms, n) + Owed(es[n].t.pending)
  {
    hide Answered, Consistent, Admits, Next, StepOut, AskedIn, AnsweredIn, Asked, Owed;
    if n > 0 {
      var e, m := es[n - 1], ms[n - 1];
      RunAt(es, ms, n - 1);
      RunConserves(es, ms, n - 1);
      RunConsistent(es, ms, n - 1);
      NextBalanced(e, m);
      OneMoreAsked(ms, n);
      OneMoreAnswered(es, ms, n);
      Rearrange(AskedIn(ms[..n - 1]), Asked(m), AnsweredIn(es, ms, n - 1), Owed(e.t.pending),
        Owed(es[n].t.pending), Answered(StepOut(e, m).actions));
    } else {
      NothingYet(es, ms);
    }
  }

  lemma OneMoreAsked(ms: seq<Msg>, n: nat)
    requires 1 <= n <= |ms|
    ensures AskedIn(ms[..n]) == AskedIn(ms[..n - 1]) + Asked(ms[n - 1])
  {
    hide Asked;
    assert ms[..n][..n - 1] == ms[..n - 1];
  }

  lemma OneMoreAnswered(es: seq<Engine>, ms: seq<Msg>, n: nat)
    requires IsRun(es, ms) && 1 <= n <= |ms| && Admits(es[n - 1], ms[n - 1])
    ensures AnsweredIn(es, ms, n) == AnsweredIn(es, ms, n - 1) + Answered(StepOut(es[n - 1], ms[n - 1]).actions)
  {
    hide Answered, MsgOk, Steppable, Next, StepOut;
  }

  lemma NothingYet(es: seq<Engine>, ms: seq<Msg>)
    requires IsRun(es, ms) && es[0].t == INITIAL_TABLES
    ensures AskedIn(ms[..0]) == AnsweredIn(es, ms, 0) + Owed(es[0].t.pending)
  {
    hide Answered, MsgOk, Steppable, Next, StepOut, Asked;
    assert INITIAL_TABLES.pending.Keys == {};
  }

  lemma NextBalanced(e: Engine, m: Msg)
    requires Consistent(e.t) && Admits(e, m)
    ensures Owed(e.t.pending) + Asked(m) == Owed(Next(e, m).t.pending) + Answered(StepOut(e, m).actions)
  {
    hide Step, Answered, Consistent, Asked, Owed, ApplyOps;
    StepBalanced(e.t, ViewFor(e, m), m);
  }

  lemma Rearrange(asked: multiset<Ticket>, more: multiset<Ticket>, answered: multiset<Ticket>, owed: multiset<Ticket>,
                  owed': multiset<Ticket>, answers: multiset<Ticket>)
    requires asked == answered + owed && owed + more == owed' + answers
    ensures asked + more == (answered + answers) + owed'
  {
    assert asked + more == answered + (owed + more) == answered + (owed' + answers);
  }
}
