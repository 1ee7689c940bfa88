/** The whole storage array as a value, and the proof that it behaves as a bounded map of lines. */
module CacheStore {
  import opened ChiTypes
  import opened CacheSets
  import AddressMap
  import opened LruRecency

  /** The storage operations, each on one named line. */
  datatype Op =
    | Touch
    | Fill(state: LineState, data: Data)
    | AddSharer(node: NodeID)
    | RemoveSharer(node: NodeID)
    | ClearSharers
    | SetLineState(state: LineState)
    | WriteData(data: Data)
    | Invalidate

  datatype LookupResult =
    | Hit(line: Line)
    | Miss
    | MissEvictDirty(evictTag: nat, evictData: Data, evictSharer: NodeID)

  /** A line in state I is not there. */
  function Normal(line: Line): Option<Line> { if line.state == I then None else Some(line) }

  /** What an operation does to a resident line. */
  function OnLine(line: Line, op: Op): Line {
    match op
    case Touch => line
    case Fill(st, d) => Line(st, d, line.sharers)
    case AddSharer(n) => line.(sharers := line.sharers + {n})
    case RemoveSharer(n) => line.(sharers := line.sharers - {n})
    case ClearSharers => line.(sharers := {})
    case SetLineState(st) => line.(state := st)
    case WriteData(d) => line.(data := d)
    case Invalidate => EmptyLine().body
  }

  /** The map semantics: what an operation does to the line it names. Only a fill makes an absent line appear. */
  function ApplyView(v: Option<Line>, op: Op): Option<Line> {
    match v
    case Some(line) => Normal(OnLine(line, op))
    case None => if op.Fill? then Normal(Line(op.state, op.data, {})) else None
  }

  // ---------- one set ----------

  ghost predicate UniqueTags(lines: seq<CacheLine>) {
    forall i, j :: 0 <= i < j < |lines| && lines[i].Valid() && lines[j].Valid() ==> lines[i].tag != lines[j].tag
  }

  ghost predicate ValidSet(s: SetValue, ways: nat) {
    |s.lines| == ways && |s.lru| == ways && Ranked(s.lru) && UniqueTags(s.lines)
  }

  function SetView(s: SetValue, tag: nat): Option<Line> {
    var way := FindTag(s.lines, tag);
    if way < 0 then None else Some(s.lines[way].body)
  }

  /** The way a fill of an absent line takes: a free one, else the LRU victim. */
  function FillWay(s: SetValue): (way: nat)
    requires |s.lines| == |s.lru| && |s.lru| >= 1
    ensures way < |s.lines|
  {
    var free := FindFree(s.lines);
    if free >= 0 then free else Victim(s.lru, |s.lru|)
  }

  /** The operation on the way that holds the line. */
  function ApplyAt(s: SetValue, tag: nat, op: Op, way: nat): SetValue
    requires way < |s.lines| == |s.lru|
  {
    SetValue(
      s.lines[way := if op == Invalidate then EmptyLine() else CacheLine(tag, OnLine(s.lines[way].body, op))],
      if op.Touch? || op.Fill? then Touched(s.lru, way) else s.lru)
  }

  /** The fill of an absent line. */
  function AllocateAt(s: SetValue, tag: nat, op: Op, way: nat): SetValue
    requires way < |s.lines| == |s.lru| && op.Fill?
  {
    SetValue(s.lines[way := CacheLine(tag, Line(op.state, op.data, {}))], Touched(s.lru, way))
  }

  function ApplySet(s: SetValue, tag: nat, op: Op): (r: SetValue)
    requires |s.lines| == |s.lru| && |s.lru| >= 1
    ensures |r.lines| == |s.lines| && |r.lru| == |s.lru|
  {
    if FindTag(s.lines, tag) >= 0 then ApplyAt(s, tag, op, FindTag(s.lines, tag))
    else if op.Fill? then AllocateAt(s, tag, op, FillWay(s))
    else s
  }

  /** What a lookup reports when the line in `victim` would have to make room. */
  function Evicting(victim: CacheLine): LookupResult {
    if Dirty(victim.body.state) then
      MissEvictDirty(victim.tag, victim.body.data,
        if Shared(victim.body.state) && victim.body.sharers != {} then Least(victim.body.sharers) else 0)
    else Miss
  }

  function LookupSet(s: SetValue, tag: nat): LookupResult
    requires |s.lines| == |s.lru| && |s.lru| >= 1
  {
    if FindTag(s.lines, tag) >= 0 then Hit(s.lines[FindTag(s.lines, tag)].body)
    else if FindFree(s.lines) >= 0 then Miss
    else Evicting(s.lines[Victim(s.lru, |s.lru|)])
  }

  /** The tag whose line a fill of `tag` overwrites: none unless `tag` is absent and the set is full. */
  function Overwritten(s: SetValue, tag: nat): Option<nat>
    requires |s.lines| == |s.lru| && |s.lru| >= 1
  {
    if FindTag(s.lines, tag) < 0 && FindFree(s.lines) < 0
    then Some(s.lines[Victim(s.lru, |s.lru|)].tag) else None
  }

  function Drops(s: SetValue, tag: nat, op: Op): Option<nat>
    requires |s.lines| == |s.lru| && |s.lru| >= 1
  {
    if op.Fill? then Overwritten(s, tag) else None
  }

  lemma ApplySetKeepsValid(s: SetValue, tag: nat, op: Op, ways: nat)
    requires ways >= 1 && ValidSet(s, ways)
    ensures ValidSet(ApplySet(s, tag, op), ways)
  {
    var way := FindTag(s.lines, tag);
    if way >= 0 {
      TouchKeepsRanks(s.lru, way);
    } else if op.Fill? {
      TouchKeepsRanks(s.lru, FillWay(s));
    }
  }

  /** With unique tags the view of a tag is the body of whichever way matches it. */
  lemma SetViewOf(s: SetValue, tag: nat, way: nat)
    requires UniqueTags(s.lines) && way < |s.lines|
    ensures Matches(s.lines[way], tag) ==> FindTag(s.lines, tag) == way
  {
  }

  /** The way an operation writes, or -1. */
  function WayOf(s: SetValue, tag: nat, op: Op): (way: int)
    requires |s.lines| == |s.lru| && |s.lru| >= 1
    ensures -1 <= way < |s.lines|
  {
    if FindTag(s.lines, tag) >= 0 then FindTag(s.lines, tag) else if op.Fill? then FillWay(s) else -1
  }

  lemma ApplySetSelf(s: SetValue, tag: nat, op: Op, ways: nat)
    requires ways >= 1 && ValidSet(s, ways)
    ensures SetView(ApplySet(s, tag, op), tag) == ApplyView(SetView(s, tag), op)
  {
    var r := ApplySet(s, tag, op);
    var w := WayOf(s, tag, op);
    ApplySetKeepsValid(s, tag, op, ways);
    if w >= 0 {
      SetViewOf(r, tag, w);
      if !r.lines[w].Valid() {
        assert forall j :: 0 <= j < ways && j != w ==> r.lines[j] == s.lines[j];
        assert FindTag(r.lines, tag) < 0;
      }
    }
  }

  lemma ApplySetOther(s: SetValue, tag: nat, op: Op, ways: nat, other: nat)
    requires ways >= 1 && ValidSet(s, ways) && other != tag
    ensures SetView(ApplySet(s, tag, op), other) ==
            (if Drops(s, tag, op) == Some(other) then None else SetView(s, other))
  {
    var r := ApplySet(s, tag, op);
    var w, f := WayOf(s, tag, op), FindTag(s.lines, other);
    ApplySetKeepsValid(s, tag, op, ways);
    assert forall j :: 0 <= j < ways && j != w ==> r.lines[j] == s.lines[j];
    if f >= 0 && f != w {
      SetViewOf(r, other, f);
    } else if f < 0 {
      assert FindTag(r.lines, other) < 0;
    }
  }

  // ---------- the whole array ----------

  datatype Store = Store(numWays: nat, sets: seq<SetValue>)

  ghost predicate ValidStore(st: Store) {
    st.numWays >= 1 && |st.sets| >= 1 && forall i :: 0 <= i < |st.sets| ==> ValidSet(st.sets[i], st.numWays)
  }

  function SetOf(n: nat, l: LineNo): (i: nat)
    requires n >= 1
    ensures i < n
  {
    l % n
  }

  function TagOf(n: nat, l: LineNo): nat
    requires n >= 1
  {
    l / n
  }

  function LineAt(n: nat, tag: nat, i: nat): LineNo { i + n * tag }

  lemma LineAtInverse(n: nat, l: LineNo)
    requires n >= 1
    ensures LineAt(n, TagOf(n, l), SetOf(n, l)) == l
  {
    AddressMap.Recompose(l, n);
  }

  lemma TagSetOfLineAt(n: nat, tag: nat, i: nat)
    requires i < n
    ensures TagOf(n, LineAt(n, tag, i)) == tag && SetOf(n, LineAt(n, tag, i)) == i
  {
    AddressMap.DivModOf(i, tag, n);
  }

  function View(st: Store, l: LineNo): Option<Line>
    requires |st.sets| >= 1
  {
    SetView(st.sets[SetOf(|st.sets|, l)], TagOf(|st.sets|, l))
  }

  /** The set a line maps to, when the store is well formed. */
  function Home(st: Store, l: LineNo): (s: SetValue)
    requires ValidStore(st)
    ensures ValidSet(s, st.numWays)
  {
    st.sets[SetOf(|st.sets|, l)]
  }

  function Apply(st: Store, l: LineNo, op: Op): (r: Store)
    requires ValidStore(st)
    ensures ValidStore(r) && r.numWays == st.numWays && |r.sets| == |st.sets|
  {
    ApplySetKeepsValid(Home(st, l), TagOf(|st.sets|, l), op, st.numWays);
    st.(sets := st.sets[SetOf(|st.sets|, l) := ApplySet(Home(st, l), TagOf(|st.sets|, l), op)])
  }

  /** The line an operation pushes out, if any. */
  function Dropped(st: Store, l: LineNo, op: Op): Option<LineNo>
    requires ValidStore(st)
  {
    match Drops(Home(st, l), TagOf(|st.sets|, l), op)
    case None => None
    case Some(tag) => Some(LineAt(|st.sets|, tag, SetOf(|st.sets|, l)))
  }

  /** Refinement of a map, line by line: the named line follows the map semantics, all others stay,
      except the at most one line that is dropped. */
  lemma ApplyRefinesMap(st: Store, l: LineNo, op: Op, other: LineNo)
    requires ValidStore(st)
    ensures View(Apply(st, l, op), l) == ApplyView(View(st, l), op)
    ensures other != l ==>
              View(Apply(st, l, op), other) == (if Dropped(st, l, op) == Some(other) then None else View(st, other))
  {
    var n := |st.sets|;
    var i, tag := SetOf(n, l), TagOf(n, l);
    ApplySetSelf(Home(st, l), tag, op, st.numWays);
    if other != l {
      LineAtInverse(n, l);
      LineAtInverse(n, other);
      var d := Drops(Home(st, l), tag, op);
      if d.Some? {
        TagSetOfLineAt(n, d.value, i);
      }
      if SetOf(n, other) == i {
        ApplySetOther(Home(st, l), tag, op, st.numWays, TagOf(n, other));
      }
    }
  }

  // ---------- the edits, written out ----------

  /** Line `l` becomes `v`; every other line and the recency of every way stay. */
  ghost predicate OnlyBecomes(st: Store, st': Store, l: LineNo, v: Option<Line>)
    requires ValidStore(st) && ValidStore(st')
  {
    && |st'.sets| == |st.sets| && View(st', l) == v
    && (forall other: LineNo :: other != l ==> View(st', other) == View(st, other))
    && (forall i :: 0 <= i < |st.sets| ==> st'.sets[i].lru == st.sets[i].lru)
  }

  lemma EditsOneLine(st: Store, l: LineNo, op: Op)
    requires ValidStore(st) && !op.Fill? && !op.Touch?
    ensures OnlyBecomes(st, Apply(st, l, op), l, ApplyView(View(st, l), op))
  {
    hide View, ApplyView;
    forall other: LineNo | other != l ensures View(Apply(st, l, op), other) == View(st, other) {
      ApplyRefinesMap(st, l, op, other);
    }
    ApplyRefinesMap(st, l, op, l);
  }

  /** What each edit leaves, if the line is resident; an absent line stays absent. */
  lemma SharerEdits(st: Store, l: LineNo, node: NodeID)
    requires ValidStore(st)
    ensures var v := View(st, l);
            && OnlyBecomes(st, Apply(st, l, AddSharer(node)), l,
                 if v.Some? then Some(Line(v.value.state, v.value.data, v.value.sharers + {node})) else None)
            && OnlyBecomes(st, Apply(st, l, RemoveSharer(node)), l,
                 if v.Some? then Some(Line(v.value.state, v.value.data, v.value.sharers - {node})) else None)
            && OnlyBecomes(st, Apply(st, l, ClearSharers), l,
                 if v.Some? then Some(Line(v.value.state, v.value.data, {})) else None)
  {
    hide View, Apply, OnlyBecomes;
    ResidentState(st, l);
    EditsOneLine(st, l, AddSharer(node));
    EditsOneLine(st, l, RemoveSharer(node));
    EditsOneLine(st, l, ClearSharers);
  }

  lemma StateEdits(st: Store, l: LineNo, state: LineState)
    requires ValidStore(st)
    ensures var v := View(st, l);
            && OnlyBecomes(st, Apply(st, l, SetLineState(state)), l,
                 if v.Some? && state != I then Some(Line(state, v.value.data, v.value.sharers)) else None)
            && OnlyBecomes(st, Apply(st, l, Invalidate), l, None)
  {
    hide View, Apply, OnlyBecomes;
    EditsOneLine(st, l, SetLineState(state));
    EditsOneLine(st, l, Invalidate);
  }

  /** Invalidating a line blanks the way it was in: tag, state, data and sharers. */
  lemma InvalidateBlanks(st: Store, l: LineNo)
    requires ValidStore(st) && View(st, l).Some?
    ensures var w := FindTag(Home(st, l).lines, TagOf(|st.sets|, l));
            w >= 0 && IsBlank(Home(Apply(st, l, Invalidate), l).lines[w])
  {
  }

  lemma DataEdit(st: Store, l: LineNo, data: Data)
    requires ValidStore(st)
    ensures var v := View(st, l);
            OnlyBecomes(st, Apply(st, l, WriteData(data)), l,
              if v.Some? then Some(Line(v.value.state, data, v.value.sharers)) else None)
  {
    hide View, Apply, OnlyBecomes;
    ResidentState(st, l);
    EditsOneLine(st, l, WriteData(data));
  }

  /** A lookup moves no line; a fill installs state and data and keeps the sharers of a resident line. */
  lemma TouchAndFillLaws(st: Store, l: LineNo, state: LineState, data: Data, other: LineNo)
    requires ValidStore(st) && state != I
    ensures View(Apply(st, l, Touch), other) == View(st, other)
    ensures View(Apply(st, l, Fill(state, data)), l)
            == Some(Line(state, data, if View(st, l).Some? then View(st, l).value.sharers else {}))
    ensures other != l && View(Apply(st, l, Fill(state, data)), other) != View(st, other) ==>
              View(st, l) == None && View(Apply(st, l, Fill(state, data)), other) == None
  {
    hide View, Apply, FindFree, Victim;
    ResidentState(st, l);
    ApplyRefinesMap(st, l, Touch, other);
    ApplyRefinesMap(st, l, Fill(state, data), other);
    FillDropsForAbsent(st, l, state, data);
  }

  lemma ResidentState(st: Store, l: LineNo)
    requires ValidStore(st)
    ensures View(st, l).Some? ==> View(st, l).value.state != I
  {
  }

  lemma FillDropsForAbsent(st: Store, l: LineNo, state: LineState, data: Data)
    requires ValidStore(st)
    ensures Dropped(st, l, Fill(state, data)).Some? ==> View(st, l) == None
  {
  }

  function Lookup(st: Store, l: LineNo): LookupResult
    requires ValidStore(st)
  {
    LookupSet(Home(st, l), TagOf(|st.sets|, l))
  }

  /** The reported sharer of a dirty victim is its first one if the line is shared and has any, else zero. */
  ghost predicate ReportsSharer(node: NodeID, victim: Line) {
    if victim.state == SD && victim.sharers != {} then node in victim.sharers && forall x <- victim.sharers :: node <= x
    else node == 0
  }

  /** A lookup foretells the fill that follows it: a hit or a plain miss loses no dirty line, and a miss that
      reports an eviction loses exactly the reported line, which is dirty and holds the reported data. A miss itself
      changes nothing. */
  lemma LookupPredictsFill(st: Store, l: LineNo, state: LineState, data: Data)
    requires ValidStore(st)
    ensures Lookup(st, l).Hit? <==> View(st, l).Some?
    ensures Lookup(st, l).Hit? ==> View(st, l) == Some(Lookup(st, l).line) && Dropped(st, l, Fill(state, data)) == None
    ensures var d := Dropped(st, l, Fill(state, data));
            d.Some? ==> View(st, d.value).Some? && d.value != l
    ensures var d := Dropped(st, l, Fill(state, data));
            d.Some? && View(st, d.value).value.state in {UD, SD} <==> Lookup(st, l).MissEvictDirty?
    ensures Lookup(st, l).MissEvictDirty? ==>
              var d := LineAt(|st.sets|, Lookup(st, l).evictTag, SetOf(|st.sets|, l));
              && Dropped(st, l, Fill(state, data)) == Some(d)
              && View(st, d).value.data == Lookup(st, l).evictData
              && ReportsSharer(Lookup(st, l).evictSharer, View(st, d).value)
    ensures !Lookup(st, l).Hit? ==> Apply(st, l, Touch) == st
  {
    var n := |st.sets|;
    var s, i, tag := Home(st, l), SetOf(n, l), TagOf(n, l);
    if FindTag(s.lines, tag) < 0 && FindFree(s.lines) < 0 {
      var v := Victim(s.lru, |s.lru|);
      TagSetOfLineAt(n, s.lines[v].tag, i);
      SetViewOf(s, s.lines[v].tag, v);
      assert s.lines[v].Valid();
      assert View(st, LineAt(n, s.lines[v].tag, i)) == Some(s.lines[v].body);
    }
  }

  // ---------- several operations on one line ----------

  function ViewOps(v: Option<Line>, ops: seq<Op>): Option<Line>
    decreases |ops|
  {
    if ops == [] then v else ViewOps(ApplyView(v, ops[0]), ops[1..])
  }

  function ApplyOps(st: Store, l: LineNo, ops: seq<Op>): (r: Store)
    requires ValidStore(st)
    ensures ValidStore(r) && r.numWays == st.numWays && |r.sets| == |st.sets|
    decreases |ops|
  {
    if ops == [] then st else ApplyOps(Apply(st, l, ops[0]), l, ops[1..])
  }

  lemma ViewFirst(v: Option<Line>, a: Op, rest: seq<Op>)
    ensures ViewOps(v, [a] + rest) == ViewOps(ApplyView(v, a), rest)
  {
    assert ([a] + rest)[1..] == rest;
  }

  /** Short operation lists, written out. */
  lemma ViewShort(v: Option<Line>, a: Op, b: Op, c: Op, d: Op)
    ensures ViewOps(v, []) == v
    ensures ViewOps(v, [a]) == ApplyView(v, a)
    ensures ViewOps(v, [a, b]) == ApplyView(ApplyView(v, a), b)
    ensures ViewOps(v, [a, b, c]) == ApplyView(ApplyView(ApplyView(v, a), b), c)
    ensures ViewOps(v, [a, b, c, d]) == ApplyView(ApplyView(ApplyView(ApplyView(v, a), b), c), d)
  {
    hide ApplyView;
    var v1, v2, v3 := ApplyView(v, a), ApplyView(ApplyView(v, a), b), ApplyView(ApplyView(ApplyView(v, a), b), c);
    ViewFirst(v, a, []); ViewFirst(v, a, [b]); ViewFirst(v, a, [b, c]); ViewFirst(v, a, [b, c, d]);
    ViewFirst(v1, b, []); ViewFirst(v1, b, [c]); ViewFirst(v1, b, [c, d]);
    ViewFirst(v2, c, []); ViewFirst(v2, c, [d]); ViewFirst(v3, d, []);
    assert [a] + [] == [a] && [a] + [b] == [a, b] && [a] + [b, c] == [a, b, c] && [a] + [b, c, d] == [a, b, c, d];
    assert [b] + [] == [b] && [b] + [c] == [b, c] && [b] + [c, d] == [b, c, d];
    assert [c] + [] == [c] && [c] + [d] == [c, d] && [d] + [] == [d];
  }

  ghost predicate FillsOnlyFirst(ops: seq<Op>) {
    forall k :: 1 <= k < |ops| ==> !ops[k].Fill?
  }

  function DroppedBy(st: Store, l: LineNo, ops: seq<Op>): Option<LineNo>
    requires ValidStore(st)
  {
    if ops == [] then None else Dropped(st, l, ops[0])
  }

  lemma {:induction false} ApplyOpsRefineMap(st: Store, l: LineNo, ops: seq<Op>, other: LineNo)
    requires ValidStore(st) && FillsOnlyFirst(ops)
    ensures View(ApplyOps(st, l, ops), l) == ViewOps(View(st, l), ops)
    ensures other != l ==> View(ApplyOps(st, l, ops), other) ==
                           (if DroppedBy(st, l, ops) == Some(other) then None else View(st, other))
    decreases |ops|
  {
    if ops != [] {
      ApplyRefinesMap(st, l, ops[0], other);
      ApplyOpsRefineMap(Apply(st, l, ops[0]), l, ops[1..], other);
      assert ops[1..] != [] ==> !ops[1..][0].Fill?;
    }
  }

  // ---------- the array as a finite map ----------

  ghost function Resident(st: Store): set<LineNo>
    requires ValidStore(st)
  {
    set i, w | 0 <= i < |st.sets| && 0 <= w < st.numWays && st.sets[i].lines[w].Valid()
      :: LineAt(|st.sets|, st.sets[i].lines[w].tag, i)
  }

  lemma ResidentIffViewed(st: Store, l: LineNo)
    requires ValidStore(st)
    ensures l in Resident(st) <==> View(st, l).Some?
  {
    var n := |st.sets|;
    LineAtInverse(n, l);
    if l in Resident(st) {
      var i, w :| 0 <= i < n && 0 <= w < st.numWays && st.sets[i].lines[w].Valid()
                  && l == LineAt(n, st.sets[i].lines[w].tag, i);
      TagSetOfLineAt(n, st.sets[i].lines[w].tag, i);
      SetViewOf(st.sets[i], st.sets[i].lines[w].tag, w);
    }
    if View(st, l).Some? {
      var w := FindTag(Home(st, l).lines, TagOf(n, l));
      assert st.sets[SetOf(n, l)].lines[w].Valid();
    }
  }

  ghost function Contents(st: Store): (m: map<LineNo, Line>)
    requires ValidStore(st)
  {
    map l | l in Resident(st) && View(st, l).Some? :: View(st, l).value
  }

  ghost function Get(m: map<LineNo, Line>, l: LineNo): Option<Line> { if l in m then Some(m[l]) else None }

  ghost function Put(m: map<LineNo, Line>, l: LineNo, v: Option<Line>): map<LineNo, Line> {
    match v
    case Some(line) => m[l := line]
    case None => m - {l}
  }

  lemma ContentsIsView(st: Store, l: LineNo)
    requires ValidStore(st)
    ensures Get(Contents(st), l) == View(st, l)
  {
    ResidentIffViewed(st, l);
  }

  /** The finite map after an operation: the matching map operation, less the dropped line. */
  ghost function MapAfter(st: Store, l: LineNo, op: Op): map<LineNo, Line>
    requires ValidStore(st)
  {
    var m := Put(Contents(st), l, ApplyView(Get(Contents(st), l), op));
    match Dropped(st, l, op)
    case Some(d) => m - {d}
    case None => m
  }

  lemma DroppedIsAnother(st: Store, l: LineNo, op: Op)
    requires ValidStore(st)
    ensures Dropped(st, l, op) != Some(l)
  {
    if op.Fill? { LookupPredictsFill(st, l, op.state, op.data); }
  }

  lemma MapAfterAt(st: Store, l: LineNo, op: Op, x: LineNo)
    requires ValidStore(st)
    ensures Get(MapAfter(st, l, op), x) == View(Apply(st, l, op), x)
  {
    hide Contents, View, Apply, Dropped, ApplyView, ValidStore;
    DroppedIsAnother(st, l, op);
    ContentsIsView(st, x);
    ContentsIsView(st, l);
    ApplyRefinesMap(st, l, op, x);
  }

  /** Every operation is the matching operation on a finite map, less the dropped line. */
  lemma StoreRefinesMap(st: Store, l: LineNo, op: Op)
    requires ValidStore(st)
    ensures Contents(Apply(st, l, op)) == MapAfter(st, l, op)
  {
    hide Contents, View, Apply, MapAfter, Get, ValidStore;
    forall x: LineNo
      ensures Get(Contents(Apply(st, l, op)), x) == Get(MapAfter(st, l, op), x)
    {
      MapAfterAt(st, l, op, x);
      ContentsIsView(Apply(st, l, op), x);
    }
    MapsAgree(Contents(Apply(st, l, op)), MapAfter(st, l, op));
  }

  lemma MapsAgree(a: map<LineNo, Line>, b: map<LineNo, Line>)
    requires forall x: LineNo :: Get(a, x) == Get(b, x)
    ensures a == b
  {
    assert forall x: LineNo :: x in a <==> Get(a, x).Some?;
    assert forall x: LineNo :: x in b <==> Get(b, x).Some?;
    assert forall x: LineNo | x in a :: a[x] == Get(a, x).value;
  }
}
