/** Any number of answers for different transactions can be delivered in any order. */
module AnyOrder {
  import opened ChiTypes
  import opened CacheStore
  import opened EngineSpec
  import opened EngineTables
  import opened Directory
  import opened WorkingSet
  import opened Diamond

  /** Answers awaited by pairwise different transactions. */
  ghost predicate Independent(e: Engine, ms: seq<Msg>) {
    && Consistent(e.t) && OneTxnPerLine(e.t)
    && (forall m :: m in ms ==> Admits(e, m) && IsAnswer(m) && Target(e.t, m).Some?)
    && (forall i, j :: 0 <= i < j < |ms| ==> Target(e.t, ms[i]) != Target(e.t, ms[j]))
  }

  /** The engine after the answers have arrived one by one. */
  ghost function Deliver(e: Engine, ms: seq<Msg>): (r: Engine)
    requires ValidStore(e.store) && forall m :: m in ms ==> IsAnswer(m)
    ensures ValidStore(r.store)
  {
    if ms == [] then e
    else
      var before := Deliver(e, ms[..|ms| - 1]);
      ArrivingIsAdmitted(before, ms[|ms| - 1]);
      Next(before, Arriving(before.t, ms[|ms| - 1]))
  }

  lemma ComposeSame(e: Engine, m: Msg, e1: Engine, m1: Msg, e2: Engine, m2: Msg)
    requires SameAnswer(e, m, e1, m1) && SameAnswer(e1, m1, e2, m2)
    ensures SameAnswer(e, m, e2, m2)
  {
    hide Admits, Target, EditOf, StepOut, LineFor, Edited;
  }

  lemma SameAsItself(e: Engine, m: Msg)
    requires Consistent(e.t) && OneTxnPerLine(e.t) && Admits(e, m) && IsAnswer(m) && Target(e.t, m).Some?
    ensures SameAnswer(e, m, e, Arriving(e.t, m))
  {
    hide Consistent, EditOk, Step, Edited, RequestOk, View, ViewOps;
    AnswerTarget(e, m);
    ArrivingIsAdmitted(e, m);
    ArrivesUnchanged(e.t, m);
    AnswerTarget(e, Arriving(e.t, m));
    SameStepUnderFallback(e.t, ViewFor(e, m), m);
  }

  /** In the state a message is deliverable in, the engine's own fallback choice leads to the same transaction. */
  lemma ArrivesUnchanged(t: Tables, m: Msg)
    requires Consistent(t) && OneTxnPerLine(t) && Deliverable(t, m) && IsAnswer(m) && Target(t, m).Some?
    ensures Target(t, Arriving(t, m)) == Target(t, m) && IsAnswer(Arriving(t, m)) && Target(t, m).value in t.pending
    ensures m.DataBeat? ==> DataRoute(t, m.txnId, SomeFallback(t, m.addr)) == DataRoute(t, m.txnId, m.fb)
  {
    hide EntryOk, MemEntryOk;
    assert m.txnId in t.snoopToOrig ==> SnoopEntryOk(t, m.txnId);
    if m.DataBeat? {
      RoutingIsExact(t, m.txnId, m.fb);
      var fb := SomeFallback(t, m.addr);
      assert m.fb.Some? ==> AwaitsWriteOf(t, m.fb.value, m.addr);
      assert fb.Some? ==> AwaitsWriteOf(t, fb.value, m.addr);
    }
  }

  lemma SameStepUnderFallback(t: Tables, v: Option<Line>, m: Msg)
    requires Consistent(t) && OneTxnPerLine(t) && Deliverable(t, m) && IsAnswer(m) && Target(t, m).Some?
    ensures Target(t, m).value in t.pending && EditOf(t, Arriving(t, m)) == EditOf(t, m)
    ensures Step(t, v, Arriving(t, m)) == Step(t, v, m)
  {
    hide Consistent, OneTxnPerLine, RecvSnoopData, RecvWriteData, RecvMemData, RecvResponse, DataRoute, FallbackOk;
    ArrivesUnchanged(t, m);
  }

  // ---------- the state after several answers ----------

  ghost predicate InOrder(e: Engine, ws: set<LineNo>) { Roomy(e, ws) && OneTxnPerLine(e.t) }

  lemma InOrderMeans(e: Engine, ws: set<LineNo>)
    requires InOrder(e, ws)
    ensures ValidStore(e.store) && Consistent(e.t) && OneTxnPerLine(e.t) && Roomy(e, ws)
  {
  }

  lemma NextInOrder(e: Engine, m: Msg, ws: set<LineNo>)
    requires InOrder(e, ws) && Admits(e, m) && IsAnswer(m)
    ensures InOrder(Next(e, m), ws)
  {
    hide Roomy, OneTxnPerLine, Step, MsgOk, View, ApplyOps;
    InOrderMeans(e, ws);
    NextKeepsRoomy(e, m, ws);
    OneTxnPerLineKept(e.t, ViewFor(e, m), m);
  }

  /** Another transaction's answer still does what it would have done at first. */
  lemma {:induction false} StillTheSame(e: Engine, ms: seq<Msg>, m: Msg, ws: set<LineNo>)
    requires InOrder(e, ws) && Independent(e, ms + [m]) && ValidStore(e.store)
    ensures IsAnswer(m) && (forall x :: x in ms ==> IsAnswer(x)) && InOrder(Deliver(e, ms), ws)
    ensures SameAnswer(e, m, Deliver(e, ms), Arriving(Deliver(e, ms).t, m))
    decreases |ms|
  {
    hide Roomy, InOrder, SameAnswer, Admits, Target, Next, Arriving;
    PartsIndependent(e, ms, m);
    InOrderMeans(e, ws);
    if ms == [] {
      SameAsItself(e, m);
    } else {
      var n := |ms| - 1;
      var init, last := ms[..n], ms[n];
      assert init + [last] == ms;
      StillTheSame(e, init, last, ws);
      StillTheSame(e, init, m, ws);
      var before := Deliver(e, init);
      InOrderMeans(before, ws);
      OneMore(e, before, last, m, ws);
    }
  }

  lemma PartsIndependent(e: Engine, ms: seq<Msg>, m: Msg)
    requires Independent(e, ms + [m])
    ensures Admits(e, m) && IsAnswer(m) && Target(e.t, m).Some? && Independent(e, ms)
            && forall x :: x in ms ==> IsAnswer(x)
    ensures ms != [] ==> Independent(e, ms[..|ms| - 1] + [m]) && Target(e.t, ms[|ms| - 1]) != Target(e.t, m)
  {
    hide Consistent, OneTxnPerLine, Admits, Target;
    var all := ms + [m];
    assert all[|ms|] == m && m in all;
    assert forall x :: x in ms ==> x in all;
    assert forall i :: 0 <= i < |ms| ==> all[i] == ms[i];
    if ms != [] {
      var fewer := ms[..|ms| - 1] + [m];
      assert forall x :: x in fewer ==> x in all;
      forall i, j | 0 <= i < j < |fewer| ensures Target(e.t, fewer[i]) != Target(e.t, fewer[j]) {
        assert fewer[i] == all[i];
        assert fewer[j] == all[if j == |fewer| - 1 then |ms| else j];
      }
      assert Target(e.t, all[|ms| - 1]) != Target(e.t, all[|ms|]);
    }
  }

  lemma OneMore(e: Engine, before: Engine, last: Msg, m: Msg, ws: set<LineNo>)
    requires InOrder(before, ws) && ValidStore(before.store) && IsAnswer(last) && IsAnswer(m)
    requires SameAnswer(e, last, before, Arriving(before.t, last)) && SameAnswer(e, m, before, Arriving(before.t, m))
    requires Target(e.t, last) != Target(e.t, m)
    ensures Admits(before, Arriving(before.t, last))
    ensures var r := Next(before, Arriving(before.t, last)); InOrder(r, ws) && SameAnswer(e, m, r, Arriving(r.t, m))
  {
    hide Roomy, Admits, Target, Next, StepOut, EditOf, LineFor, Edited;
    InOrderMeans(before, ws);
    var l1, m1 := Arriving(before.t, last), Arriving(before.t, m);
    NextInOrder(before, l1, ws);
    SecondAnswer(before, l1, m1, ws);
    var r := Next(before, l1);
    ArrivingAgain(before.t, r.t, m);
    ComposeSame(e, m, before, m1, r, Arriving(r.t, m));
  }

  lemma ArrivingAgain(t: Tables, t': Tables, m: Msg)
    ensures Arriving(t', Arriving(t, m)) == Arriving(t', m)
  {
  }

  // ---------- tables ----------

  /** The edits of the answers, one after the other, as they were at first. */
  function EditAll(t: Tables, ms: seq<Msg>): Tables
    requires forall m :: m in ms ==> IsAnswer(m) && Target(t, m).Some? && Target(t, m).value in t.pending
  {
    if ms == [] then t else Edited(EditAll(t, ms[..|ms| - 1]), EditOf(t, ms[|ms| - 1]))
  }

  lemma TargetsPending(e: Engine, ms: seq<Msg>)
    requires Independent(e, ms)
    ensures forall m :: m in ms ==>
              IsAnswer(m) && Target(e.t, m).Some? && Target(e.t, m).value in e.t.pending && EditOk(e.t, EditOf(e.t, m))
    ensures forall m :: m in ms ==> EditOf(e.t, m).k == Target(e.t, m).value
  {
    hide Consistent, OneTxnPerLine, Target, MsgOk, EditOk, EditOf, StepOut, Edited, LineFor;
    forall m | m in ms
      ensures IsAnswer(m) && Target(e.t, m).Some? && Target(e.t, m).value in e.t.pending && EditOk(e.t, EditOf(e.t, m))
      ensures EditOf(e.t, m).k == Target(e.t, m).value
    {
      AnswerTarget(e, m);
      AnswerKeepsRequest(e.t, m);
    }
  }

  lemma {:induction false} DeliveredTables(e: Engine, ms: seq<Msg>, ws: set<LineNo>)
    requires InOrder(e, ws) && ValidStore(e.store) && Independent(e, ms)
    ensures forall m :: m in ms ==> IsAnswer(m) && Target(e.t, m).Some? && Target(e.t, m).value in e.t.pending
    ensures InOrder(Deliver(e, ms), ws) && Deliver(e, ms).t == EditAll(e.t, ms)
    decreases |ms|
  {
    hide InOrder, SameAnswer, Admits, Target, Next, Arriving, Edited, EditOf, EditOk, Consistent, OneTxnPerLine;
    TargetsPending(e, ms);
    if ms != [] {
      var n := |ms| - 1;
      var init, last := ms[..n], ms[n];
      assert init + [last] == ms;
      PartsIndependent(e, init, last);
      DeliveredTables(e, init, ws);
      StillTheSame(e, init, last, ws);
      AppliesEdit(e, last, Deliver(e, init), ws);
    }
  }

  lemma AppliesEdit(e: Engine, m: Msg, r: Engine, ws: set<LineNo>)
    requires InOrder(r, ws) && ValidStore(r.store) && IsAnswer(m) && SameAnswer(e, m, r, Arriving(r.t, m))
    ensures Admits(r, Arriving(r.t, m)) && Target(e.t, m).Some? && Target(e.t, m).value in e.t.pending
    ensures var next := Next(r, Arriving(r.t, m)); InOrder(next, ws) && next.t == Edited(r.t, EditOf(e.t, m))
  {
    hide Roomy, InOrder, MsgOk, Target, Step, Edited, EditOf, LineFor, ApplyOps, View, Arriving;
    NextInOrder(r, Arriving(r.t, m), ws);
    NextTables(r, Arriving(r.t, m));
  }

  // ---------- reordering edits ----------

  /** Every message makes a well-formed edit of the tables, no two of the same transaction. */
  ghost predicate Distinct(t: Tables, ms: seq<Msg>) {
    && (forall m :: m in ms ==>
          IsAnswer(m) && Target(t, m).Some? && Target(t, m).value in t.pending && EditOk(t, EditOf(t, m))
          && EditOf(t, m).k == Target(t, m).value)
    && (forall i, j :: 0 <= i < j < |ms| ==> Target(t, ms[i]) != Target(t, ms[j]))
  }

  lemma EditOkSurvives(t: Tables, a: Edit, b: Edit)
    requires EditOk(t, a) && a.k != b.k && b.k in t.pending
    ensures EditOk(Edited(t, b), a)
  {
    hide DropMem;
  }

  /** A message may be dropped from a list, and the last two exchanged. */
  lemma DistinctParts(t: Tables, a: seq<Msg>, b: seq<Msg>)
    requires Distinct(t, a + b)
    ensures Distinct(t, a) && Distinct(t, b)
  {
    hide Target, EditOk, EditOf;
    assert forall m :: m in a ==> m in a + b;
    assert forall m :: m in b ==> m in a + b;
    assert forall i :: 0 <= i < |a| ==> (a + b)[i] == a[i];
    assert forall i :: 0 <= i < |b| ==> (a + b)[|a| + i] == b[i];
  }

  lemma {:induction false} EditAllKeepsOk(t: Tables, ms: seq<Msg>, m: Msg)
    requires Distinct(t, ms + [m])
    ensures Distinct(t, ms) && Distinct(t, [m]) && EditOk(EditAll(t, ms), EditOf(t, m))
    decreases |ms|
  {
    hide Target, EditOk, EditOf, Edited;
    DistinctParts(t, ms, [m]);
    assert m in [m];
    if ms != [] {
      var n := |ms| - 1;
      var init, last := ms[..n], ms[n];
      assert init + [last] == ms;
      WithoutLastButOne(t, init, last, m);
      EditAllKeepsOk(t, init, m);
      EditAllKeepsOk(t, init, last);
      EditOkMeans(EditAll(t, init), EditOf(t, last));
      EditOkSurvives(EditAll(t, init), EditOf(t, m), EditOf(t, last));
    }
  }

  lemma EditOkMeans(t: Tables, d: Edit)
    requires EditOk(t, d)
    ensures d.k in t.pending
  {
  }

  lemma WithoutLastButOne(t: Tables, init: seq<Msg>, last: Msg, m: Msg)
    requires Distinct(t, init + [last] + [m])
    ensures Distinct(t, init + [m]) && Target(t, last) != Target(t, m)
    ensures IsAnswer(last) && Target(t, last).Some? && Target(t, last).value in t.pending
    ensures IsAnswer(m) && Target(t, m).Some? && Target(t, m).value in t.pending
    ensures EditOf(t, last).k != EditOf(t, m).k
  {
    hide Target, EditOk, EditOf;
    var all, n := init + [last] + [m], |init|;
    assert all[n] == last && all[n + 1] == m && last in all && m in all;
    assert forall x :: x in init + [m] ==> x in all;
    forall i, j | 0 <= i < j < |init + [m]| ensures Target(t, (init + [m])[i]) != Target(t, (init + [m])[j]) {
      assert (init + [m])[i] == all[i] && (init + [m])[j] == all[if j == n then n + 1 else j];
    }
    assert Target(t, all[n]) != Target(t, all[n + 1]);
  }

  lemma LastEdit(t: Tables, ms: seq<Msg>, m: Msg)
    requires Distinct(t, ms + [m])
    ensures Distinct(t, ms) && Distinct(t, [m]) && EditAll(t, ms + [m]) == Edited(EditAll(t, ms), EditOf(t, m))
  {
    hide Target, EditOk, EditOf, Edited;
    DistinctParts(t, ms, [m]);
    assert (ms + [m])[..|ms|] == ms && m in [m];
  }

  /** The last two edits can be exchanged. */
  lemma SwapLast(t: Tables, ms: seq<Msg>, a: Msg, b: Msg)
    requires Distinct(t, ms + [a] + [b])
    ensures Distinct(t, ms + [b] + [a]) && EditAll(t, ms + [a] + [b]) == EditAll(t, ms + [b] + [a])
  {
    hide Target, EditOk, EditOf, Edited;
    DistinctParts(t, ms + [a], [b]);
    WithoutLastButOne(t, ms, a, b);
    Swapped(t, ms, a, b);
    LastEdit(t, ms + [a], b);
    LastEdit(t, ms, a);
    LastEdit(t, ms + [b], a);
    LastEdit(t, ms, b);
    EditAllKeepsOk(t, ms, a);
    EditAllKeepsOk(t, ms, b);
    EditsCommute(EditAll(t, ms), EditOf(t, a), EditOf(t, b));
  }

  lemma Swapped(t: Tables, ms: seq<Msg>, a: Msg, b: Msg)
    requires Distinct(t, ms + [a] + [b])
    ensures Distinct(t, ms + [b] + [a])
  {
    hide Target, EditOk, EditOf;
    var x, y, n := ms + [a] + [b], ms + [b] + [a], |ms|;
    assert forall m :: m in y ==> m in x;
    forall i, j | 0 <= i < j < |y| ensures Target(t, y[i]) != Target(t, y[j]) {
      assert x[n] == a && x[n + 1] == b && y[n] == b && y[n + 1] == a;
      assert i < n ==> y[i] == x[i];
      assert Target(t, x[n]) != Target(t, x[n + 1]);
      assert i < n ==> Target(t, x[i]) != Target(t, x[n]) && Target(t, x[i]) != Target(t, x[n + 1]);
      assert j < n ==> y[j] == x[j] && Target(t, x[i]) != Target(t, x[j]);
    }
  }

  /** An edit can be moved to the end. */
  lemma {:induction false} MoveToEnd(t: Tables, a: seq<Msg>, m: Msg, b: seq<Msg>)
    requires Distinct(t, a + [m] + b)
    ensures Distinct(t, a + b + [m]) && EditAll(t, a + b + [m]) == EditAll(t, a + [m] + b)
    decreases |b|
  {
    hide Distinct, EditAll;
    if b == [] {
      assert a + b + [m] == a + [m] + b;
    } else {
      var n := |b| - 1;
      var init, last := b[..n], b[n];
      assert a + [m] + b == (a + [m] + init) + [last];
      DistinctParts(t, a + [m] + init, [last]);
      MoveToEnd(t, a, m, init);
      PushPast(t, a, m, init, last);
      assert a + b + [m] == (a + init) + [last] + [m];
    }
  }

  lemma PushPast(t: Tables, a: seq<Msg>, m: Msg, b: seq<Msg>, last: Msg)
    requires Distinct(t, (a + [m] + b) + [last]) && Distinct(t, a + [m] + b)
    requires Distinct(t, a + b + [m]) && EditAll(t, a + b + [m]) == EditAll(t, a + [m] + b)
    ensures Distinct(t, (a + b) + [last] + [m])
    ensures EditAll(t, (a + b) + [last] + [m]) == EditAll(t, (a + [m] + b) + [last])
  {
    hide Distinct, EditAll, Edited, EditOf, Target;
    MovedKeepsDistinct(t, a, m, b, last);
    DistinctParts(t, a + [m] + b, [last]);
    LastIsThere(t, last);
    LastEdit(t, a + [m] + b, last);
    LastEdit(t, a + b + [m], last);
    SwapLast(t, a + b, m, last);
  }

  lemma LastIsThere(t: Tables, m: Msg)
    requires Distinct(t, [m])
    ensures IsAnswer(m) && Target(t, m).Some? && Target(t, m).value in t.pending
  {
    hide Target, EditOk, EditOf;
    assert m in [m];
  }

  lemma MovedKeepsDistinct(t: Tables, a: seq<Msg>, m: Msg, b: seq<Msg>, last: Msg)
    requires Distinct(t, (a + [m] + b) + [last]) && Distinct(t, a + b + [m])
    ensures Distinct(t, (a + b + [m]) + [last])
  {
    hide Target, EditOk, EditOf;
    var x, y := (a + [m] + b) + [last], (a + b + [m]) + [last];
    assert forall z :: z in y ==> z in x;
    forall i, j | 0 <= i < j < |y| ensures Target(t, y[i]) != Target(t, y[j]) {
      if j == |y| - 1 {
        assert y[i] in a + [m] + b && y[j] == last;
        var k :| 0 <= k < |a + [m] + b| && (a + [m] + b)[k] == y[i];
        assert x[k] == y[i] && x[|x| - 1] == last;
      } else {
        assert y[i] == (a + b + [m])[i] && y[j] == (a + b + [m])[j];
      }
    }
  }

  ghost predicate SameMembers(a: seq<Msg>, b: seq<Msg>) { forall m :: m in a <==> m in b }

  /** The edits of the same messages in another order give the same tables. */
  lemma {:induction false} EditAllAnyOrder(t: Tables, ms: seq<Msg>, ms': seq<Msg>)
    requires Distinct(t, ms) && Distinct(t, ms') && SameMembers(ms, ms')
    ensures EditAll(t, ms) == EditAll(t, ms')
    decreases |ms|
  {
    hide Target, EditOk, EditOf, Edited, EditAll;
    if ms == [] {
      NoMembers(ms');
    } else {
      var n := |ms| - 1;
      var init, last := ms[..n], ms[n];
      assert last in ms;
      var j :| 0 <= j < |ms'| && ms'[j] == last;
      var a, b := ms'[..j], ms'[j + 1..];
      assert ms' == a + [last] + b && ms == init + [last];
      MoveToEnd(t, a, last, b);
      DistinctParts(t, a + b, [last]);
      DistinctParts(t, init, [last]);
      RestHasSameMembers(t, ms, ms', j);
      EditAllAnyOrder(t, init, a + b);
      LastEdit(t, init, last);
      LastEdit(t, a + b, last);
    }
  }

  lemma NoMembers(ms: seq<Msg>)
    requires SameMembers([], ms)
    ensures ms == []
  {
    if |ms| > 0 { SomeMember(ms); }
  }

  lemma SomeMember(ms: seq<Msg>)
    requires |ms| > 0
    ensures exists m :: m in ms
  {
    assert ms[0] in ms;
  }

  lemma RestHasSameMembers(t: Tables, ms: seq<Msg>, ms': seq<Msg>, j: nat)
    requires Distinct(t, ms) && Distinct(t, ms') && SameMembers(ms, ms') && ms != [] && j < |ms'|
             && ms'[j] == ms[|ms| - 1]
    ensures SameMembers(ms[..|ms| - 1], ms'[..j] + ms'[j + 1..])
  {
    hide EditOk, EditOf;
    var last, init, rest := ms'[j], ms[..|ms| - 1], ms'[..j] + ms'[j + 1..];
    forall m ensures m in init <==> m in ms && m != last { OnlyOnce(t, ms, |ms| - 1, m); assert ms == init + [last]; }
    forall m ensures m in rest <==> m in ms' && m != last {
      OnlyOnce(t, ms', j, m);
      assert ms' == ms'[..j] + [last] + ms'[j + 1..];
    }
  }

  /** No message stands in a list twice. */
  lemma OnlyOnce(t: Tables, ms: seq<Msg>, j: nat, m: Msg)
    requires Distinct(t, ms) && j < |ms|
    ensures m in ms[..j] + ms[j + 1..] ==> m != ms[j] && m in ms
  {
    hide EditOk, EditOf, Target;
    var rest := ms[..j] + ms[j + 1..];
    if m in rest {
      var i :| 0 <= i < |rest| && rest[i] == m;
      var k := if i < j then i else i + 1;
      assert ms[k] == m && Target(t, ms[k]) != Target(t, ms[j]);
    }
  }

  // ---------- lines ----------

  lemma DifferentLines(e: Engine, a: Msg, b: Msg)
    requires Consistent(e.t) && OneTxnPerLine(e.t) && Admits(e, a) && Admits(e, b) && IsAnswer(a) && IsAnswer(b)
    requires Target(e.t, a).Some? && Target(e.t, b).Some? && Target(e.t, a) != Target(e.t, b)
    ensures LineFor(e.t, a) != LineFor(e.t, b)
  {
    hide Consistent, OneTxnPerLine, Admits, Target, LineFor, EditOf, EditOk, KeepsRequest;
    LinesDiffer(e, a, b);
  }

  /** A line as its own answer leaves it, or as it was if no answer is for it. */
  lemma {:induction false} DeliveredView(e: Engine, ms: seq<Msg>, ws: set<LineNo>, l: LineNo)
    requires InOrder(e, ws) && ValidStore(e.store) && Independent(e, ms)
    ensures forall m :: m in ms && LineFor(e.t, m) == Some(l) ==>
                          Admits(e, m) && View(Deliver(e, ms).store, l) == ViewOps(View(e.store, l), StepOut(e, m).ops)
    ensures (forall m :: m in ms ==> LineFor(e.t, m) != Some(l)) ==> View(Deliver(e, ms).store, l) == View(e.store, l)
    decreases |ms|
  {
    hide InOrder, SameAnswer, Admits, Target, Next, Arriving, View, ViewOps, StepOut, LineFor, Consistent,
         OneTxnPerLine;
    if ms != [] {
      var n := |ms| - 1;
      var init, last := ms[..n], ms[n];
      assert init + [last] == ms;
      PartsIndependent(e, init, last);
      DeliveredView(e, init, ws, l);
      StillTheSame(e, init, last, ws);
      LastView(e, last, Deliver(e, init), ws, l);
      OthersElsewhere(e, init, last);
      assert last in ms && forall m :: m in ms <==> m in init || m == last;
    }
  }

  lemma LastView(e: Engine, m: Msg, r: Engine, ws: set<LineNo>, l: LineNo)
    requires InOrder(r, ws) && ValidStore(r.store) && IsAnswer(m) && SameAnswer(e, m, r, Arriving(r.t, m))
    ensures Admits(e, m) && Admits(r, Arriving(r.t, m))
    ensures View(Next(r, Arriving(r.t, m)).store, l) ==
            if LineFor(e.t, m) == Some(l) then ViewOps(View(r.store, l), StepOut(e, m).ops) else View(r.store, l)
  {
    hide Roomy, OneTxnPerLine, View, ViewOps, Step, LineFor, MsgOk, ApplyOps, Target, EditOf, Edited, Arriving;
    RoomyStepViews(r, Arriving(r.t, m), ws, l);
  }

  lemma OthersElsewhere(e: Engine, ms: seq<Msg>, last: Msg)
    requires Independent(e, ms + [last])
    ensures forall m :: m in ms ==> LineFor(e.t, m) != LineFor(e.t, last)
  {
    hide Admits, Target, LineFor, Consistent, OneTxnPerLine;
    var all := ms + [last];
    assert last in all && all[|ms|] == last;
    forall m | m in ms ensures LineFor(e.t, m) != LineFor(e.t, last) {
      var i :| 0 <= i < |ms| && ms[i] == m;
      assert all[i] == m && m in all && Target(e.t, all[i]) != Target(e.t, all[|ms|]);
      DifferentLines(e, m, last);
    }
  }

  // ---------- the theorem ----------

  /** However many answers for different transactions, whatever their order: the tables and all lines come out the
      same. */
  lemma AnswersInAnyOrder(e: Engine, ms: seq<Msg>, ms': seq<Msg>, ws: set<LineNo>)
    requires InOrder(e, ws) && ValidStore(e.store) && Independent(e, ms) && Independent(e, ms') && SameMembers(ms, ms')
    ensures Deliver(e, ms).t == Deliver(e, ms').t
    ensures forall l: LineNo :: View(Deliver(e, ms).store, l) == View(Deliver(e, ms').store, l)
  {
    hide InOrder, Admits, Target, View, ViewOps, StepOut, LineFor, Consistent, OneTxnPerLine, Deliver, EditAll,
         EditOf, EditOk;
    DeliveredTables(e, ms, ws);
    DeliveredTables(e, ms', ws);
    TargetsPending(e, ms);
    TargetsPending(e, ms');
    EditAllAnyOrder(e.t, ms, ms');
    forall l: LineNo ensures View(Deliver(e, ms).store, l) == View(Deliver(e, ms').store, l) {
      DeliveredView(e, ms, ws, l);
      DeliveredView(e, ms', ws, l);
      if m :| m in ms && LineFor(e.t, m) == Some(l) { assert m in ms'; }
    }
  }

  /** And each answer causes the actions it would have caused alone, wherever it stands. */
  lemma EachActsAsAlone(e: Engine, ms: seq<Msg>, ws: set<LineNo>, i: nat)
    requires InOrder(e, ws) && ValidStore(e.store) && Independent(e, ms) && i < |ms|
    ensures Admits(e, ms[i]) && (forall x :: x in ms[..i] ==> IsAnswer(x))
    ensures var before := Deliver(e, ms[..i]);
            var m := Arriving(before.t, ms[i]);
            Admits(before, m) && StepOut(before, m).actions == StepOut(e, ms[i]).actions
  {
    hide InOrder, Admits, Target, StepOut, Consistent, OneTxnPerLine, Deliver, LineFor, EditOf, Edited, Arriving;
    var part := ms[..i] + [ms[i]];
    assert part == ms[..i + 1];
    assert forall m :: m in part ==> m in ms;
    assert forall j :: 0 <= j < |part| ==> part[j] == ms[j];
    StillTheSame(e, ms[..i], ms[i], ws);
  }
}
