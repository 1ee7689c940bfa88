/** True LRU replacement in the whole array: each set's ranks replay the ways its hits and fills touched, so a line
    that was looked up or filled is not dropped before every other way of its set has been touched. */
module StoreRecency {
  import opened ChiTypes
  import opened CacheSets
  import opened CacheStore
  import opened LruRecency

  datatype Access = Access(l: LineNo, op: Op)

  function Run(st: Store, xs: seq<Access>): (r: Store)
    requires ValidStore(st)
    ensures ValidStore(r) && r.numWays == st.numWays && |r.sets| == |st.sets|
  {
    if xs == [] then st else Apply(Run(st, xs[..|xs| - 1]), xs[|xs| - 1].l, xs[|xs| - 1].op)
  }

  /** The way an operation touches: that of a hit, or the one a fill takes. */
  function WayTouched(s: SetValue, tag: nat, op: Op): (way: Option<nat>)
    requires |s.lines| == |s.lru| && |s.lru| >= 1
    ensures way.Some? ==> way.value < |s.lru|
  {
    if op.Touch? then (if FindTag(s.lines, tag) >= 0 then Some(FindTag(s.lines, tag)) else None)
    else if op.Fill? then Some(if FindTag(s.lines, tag) >= 0 then FindTag(s.lines, tag) else FillWay(s))
    else None
  }

  /** What an access adds to the history of set `i`. */
  function Touches(st: Store, x: Access, i: nat): (h: seq<nat>)
    requires ValidStore(st) && i < |st.sets|
    ensures forall w :: w in h ==> w < st.numWays
    ensures |h| <= 1
  {
    if SetOf(|st.sets|, x.l) != i then []
    else
      match WayTouched(Home(st, x.l), TagOf(|st.sets|, x.l), x.op)
      case Some(w) => [w]
      case None => []
  }

  /** The ways of set `i` that the accesses touch, in order. */
  function History(st: Store, xs: seq<Access>, i: nat): (h: seq<nat>)
    requires ValidStore(st) && i < |st.sets|
    ensures forall k :: 0 <= k < |h| ==> h[k] < st.numWays
  {
    if xs == [] then []
    else
      var h := History(st, xs[..|xs| - 1], i);
      var more := Touches(Run(st, xs[..|xs| - 1]), xs[|xs| - 1], i);
      assert forall k :: 0 <= k < |more| ==> more[k] in more;
      h + more
  }

  /** The array as it is constructed. */
  ghost predicate Empty(st: Store) {
    && ValidStore(st)
    && (forall i :: 0 <= i < |st.sets| ==>
          st.sets[i] == SetValue(seq(st.numWays, w => EmptyLine()), InitialRanks(st.numWays)))
  }

  lemma ApplyTouches(st: Store, x: Access, i: nat)
    requires ValidStore(st) && i < |st.sets|
    ensures var h := Touches(st, x, i);
            Apply(st, x.l, x.op).sets[i].lru == if h == [] then st.sets[i].lru else Touched(st.sets[i].lru, h[0])
  {
    hide Touched, FindTag, FindFree, Victim;
  }

  lemma ReplayMore(n: nat, h: seq<nat>, w: nat)
    requires w < n && forall k :: 0 <= k < |h| ==> h[k] < n
    ensures Replay(n, h + [w]) == Touched(Replay(n, h), w)
  {
    hide Touched;
    assert (h + [w])[..|h|] == h;
  }

  /** In every reachable array the ranks of each set replay its history. */
  lemma {:induction false} RanksReplayHistory(st: Store, xs: seq<Access>, i: nat)
    requires Empty(st) && i < |st.sets|
    ensures Run(st, xs).sets[i].lru == Replay(st.numWays, History(st, xs, i))
  {
    hide Apply, Touched, Touches;
    if xs != [] {
      var init, x := xs[..|xs| - 1], xs[|xs| - 1];
      RanksReplayHistory(st, init, i);
      ApplyTouches(Run(st, init), x, i);
      var h, more := History(st, init, i), Touches(Run(st, init), x, i);
      if more == [] {
        assert h + more == h;
      } else {
        assert more == [more[0]] && more[0] in more;
        ReplayMore(st.numWays, h, more[0]);
      }
    }
  }

  // ---------- a touched line stays ----------

  /** The access does not itself remove line `l`. */
  predicate Keeps(x: Access, l: LineNo) {
    x.l == l ==> x.op != Invalidate && (x.op.SetLineState? ==> x.op.state != I) && (x.op.Fill? ==> x.op.state != I)
  }

  /** Line `l` sits in way `w` of its set. */
  ghost predicate SitsIn(st: Store, l: LineNo, w: nat)
    requires ValidStore(st)
  {
    w < st.numWays && Matches(Home(st, l).lines[w], TagOf(|st.sets|, l))
  }

  lemma SittingIsViewed(st: Store, l: LineNo, w: nat)
    requires ValidStore(st) && SitsIn(st, l, w)
    ensures View(st, l).Some? && FindTag(Home(st, l).lines, TagOf(|st.sets|, l)) == w
  {
    SetViewOf(Home(st, l), TagOf(|st.sets|, l), w);
  }

  /** An access moves or removes the line in way `w` only by filling another line into the victim `w`. */
  lemma StaysUnlessVictim(st: Store, l: LineNo, w: nat, x: Access)
    requires ValidStore(st) && SitsIn(st, l, w) && Keeps(x, l)
    requires SetOf(|st.sets|, x.l) == SetOf(|st.sets|, l) ==> Victim(Home(st, l).lru, st.numWays) != w
    ensures SitsIn(Apply(st, x.l, x.op), l, w)
  {
    hide Touched;
    var n := |st.sets|;
    SittingIsViewed(st, l, w);
    LineAtInverse(n, l);
    LineAtInverse(n, x.l);
    var s, tag := Home(st, l), TagOf(n, l);
    if SetOf(n, x.l) == SetOf(n, l) {
      var f := FindTag(s.lines, TagOf(n, x.l));
      if TagOf(n, x.l) != tag && f >= 0 { assert f != w; }
    }
  }

  lemma {:induction false} RunSplits(st: Store, xs: seq<Access>, ys: seq<Access>, i: nat)
    requires ValidStore(st) && i < |st.sets|
    ensures Run(st, xs + ys) == Run(Run(st, xs), ys)
    ensures History(st, xs + ys, i) == History(st, xs, i) + History(Run(st, xs), ys, i)
    decreases |ys|
  {
    hide Apply, Touches;
    if ys == [] {
      assert xs + ys == xs;
    } else {
      var init := ys[..|ys| - 1];
      RunSplits(st, xs, init, i);
      assert (xs + ys)[..|xs + ys| - 1] == xs + init;
    }
  }

  /** A line whose way was touched last sits there until every other way of its set has been touched. */
  lemma {:induction false} TouchedLineSits(st: Store, xs: seq<Access>, l: LineNo, w: nat, other: nat,
                                           later: seq<Access>)
    requires Empty(st) && SitsIn(Run(st, xs), l, w) && other < st.numWays && other != w
    requires var h := History(st, xs, SetOf(|st.sets|, l)); h != [] && h[|h| - 1] == w
    requires forall x :: x in later ==> Keeps(x, l)
    requires other !in History(Run(st, xs), later, SetOf(|st.sets|, l))
    ensures SitsIn(Run(st, xs + later), l, w)
    decreases |later|
  {
    hide Apply, SitsIn, Touches, Keeps, Replay, Empty, History;
    if later == [] {
      assert xs + later == xs;
    } else {
      var i, init, x := SetOf(|st.sets|, l), later[..|later| - 1], later[|later| - 1];
      assert forall y :: y in init ==> y in later;
      EmptyIsValid(st);
      LaterHistory(Run(st, xs), later, i);
      TouchedLineSits(st, xs, l, w, other, init);
      TouchedIsNotVictim(st, xs, i, w, other, init);
      SameNumWays(st, xs + init);
      StaysUnlessVictim(Run(st, xs + init), l, w, x);
      assert (xs + later)[..|xs + later| - 1] == xs + init;
    }
  }

  lemma LaterHistory(st: Store, later: seq<Access>, i: nat)
    requires ValidStore(st) && i < |st.sets| && later != []
    ensures forall w :: w in History(st, later[..|later| - 1], i) ==> w in History(st, later, i)
  {
    hide Touches, Run;
  }

  /** The way touched last before `later` is not the victim after it, as long as `later` spares some other way. */
  lemma TouchedIsNotVictim(st: Store, xs: seq<Access>, i: nat, w: nat, other: nat, later: seq<Access>)
    requires Empty(st) && ValidStore(st) && i < |st.sets| && other < st.numWays && other != w
    requires var h := History(st, xs, i); h != [] && h[|h| - 1] == w
    requires other !in History(Run(st, xs), later, i)
    ensures Victim(Run(st, xs + later).sets[i].lru, st.numWays) != w
  {
    hide Apply, Touches, Replay, Empty, Run, History;
    var h, more := History(st, xs, i), History(Run(st, xs), later, i);
    RunSplits(st, xs, later, i);
    RanksReplayHistory(st, xs + later, i);
    assert h == h[..|h| - 1] + [w];
    SomeOtherIsMissing(st.numWays, w, other, more);
    TouchedWaySurvives(st.numWays, h[..|h| - 1], w, more);
  }

  lemma SomeOtherIsMissing(n: nat, w: nat, other: nat, h: seq<nat>)
    requires other < n && other != w && other !in h
    ensures exists x :: 0 <= x < n && x != w && x !in h
  {
  }

  lemma SameNumWays(st: Store, xs: seq<Access>)
    requires ValidStore(st)
    ensures Run(st, xs).numWays == st.numWays && |Run(st, xs).sets| == |st.sets|
  {
  }

  /** An access that finds or fills a line touches the way the line then sits in. */
  lemma AccessTouchesItsWay(st: Store, x: Access)
    requires ValidStore(st) && (x.op.Touch? || x.op.Fill?) && View(Apply(st, x.l, x.op), x.l).Some?
    ensures var i, w := SetOf(|st.sets|, x.l), FindTag(Home(Apply(st, x.l, x.op), x.l).lines, TagOf(|st.sets|, x.l));
            w >= 0 && SitsIn(Apply(st, x.l, x.op), x.l, w) && Touches(st, x, i) == [w]
  {
    hide Touched, Victim;
    var s, tag, r := Home(st, x.l), TagOf(|st.sets|, x.l), Home(Apply(st, x.l, x.op), x.l);
    ApplySetKeepsValid(s, tag, x.op, st.numWays);
    var w := WayOf(s, tag, x.op);
    if w >= 0 && Matches(r.lines[w], tag) { SetViewOf(r, tag, w); }
  }

  /** True LRU. A line that was looked up or filled, and that no later access removes, is gone only if every other way
      of its set has been touched since. */
  lemma DroppedOnlyAfterAllOthers(st: Store, xs: seq<Access>, a: Access, later: seq<Access>, other: nat)
    requires Empty(st) && (a.op.Touch? || a.op.Fill?) && View(Run(st, xs + [a]), a.l).Some?
    requires forall x :: x in later ==> Keeps(x, a.l)
    requires View(Run(st, xs + [a] + later), a.l) == None
    requires other < st.numWays && other != FindTag(Home(Run(st, xs + [a]), a.l).lines, TagOf(|st.sets|, a.l))
    ensures other in History(Run(st, xs + [a]), later, SetOf(|st.sets|, a.l))
  {
    hide Apply, Touches, Keeps, SitsIn, View, Empty, Home;
    var ys, i := xs + [a], SetOf(|st.sets|, a.l);
    EmptyIsValid(st);
    assert ys[..|ys| - 1] == xs && ys[|ys| - 1] == a;
    AccessTouchesItsWay(Run(st, xs), a);
    SameNumWays(st, xs);
    var w := FindTag(Home(Run(st, ys), a.l).lines, TagOf(|st.sets|, a.l));
    assert History(st, ys, i) == History(st, xs, i) + [w];
    if other !in History(Run(st, ys), later, i) {
      TouchedLineSits(st, ys, a.l, w, other, later);
      SittingIsViewed(Run(st, ys + later), a.l, w);
      assert false;
    }
  }

  lemma EmptyIsValid(st: Store)
    requires Empty(st)
    ensures ValidStore(st)
  {
  }
}
