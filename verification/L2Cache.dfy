/** The set-associative cache object. Every method is proved against the store it represents. */
module L2Caches {
  import opened ChiTypes
  import opened CacheSets
  import opened CacheStore
  import opened AddressMap

  class L2Cache {
    const numSets: nat
    const numWays: nat
    const setBits: nat
    const sets: seq<CacheSet>
    ghost const Repr: set<object>

    ghost predicate Valid()
      reads Repr
    {
      && Structured()
      && ValidStore(Model())
    }

    ghost predicate Structured() {
      && setBits <= MAX_SET_BITS && numSets == Pow2(setBits) && |sets| == numSets
      && (forall i :: 0 <= i < |sets| ==>
            sets[i].lines in Repr && sets[i].lru in Repr && sets[i].Valid() && sets[i].numWays == numWays)
      && (forall i, j :: 0 <= i < j < |sets| ==> sets[i].lines != sets[j].lines && sets[i].lru != sets[j].lru)
    }

    /** The store this object represents. */
    ghost function Model(): (st: Store)
      requires Structured()
      reads Repr
      ensures |st.sets| == numSets && st.numWays == numWays
    {
      Store(numWays, seq(|sets|, i requires 0 <= i < |sets| && Structured() reads Repr => sets[i].State()))
    }

    constructor (numSets: nat, numWays: nat)
      requires numWays >= 1 && exists k :: 0 <= k <= 24 && numSets == Pow2(k)
      ensures Valid() && fresh(Repr) && this.numSets == numSets && this.numWays == numWays
      ensures forall l :: View(Model(), l) == None
    {
      hide IsBlank;
      ghost var k :| 0 <= k <= MAX_SET_BITS && numSets == Pow2(k);
      Log2OfPow2(k);
      var built: seq<CacheSet> := [];
      ghost var repr: set<object> := {};
      for i := 0 to numSets
        invariant |built| == i && fresh(repr)
        invariant forall j :: 0 <= j < i ==> built[j].lines in repr && built[j].lru in repr
        invariant forall j :: 0 <= j < i ==> built[j].Valid() && built[j].numWays == numWays
        invariant forall j :: 0 <= j < i ==>
                    built[j].State() == SetValue(seq(numWays, w => EmptyLine()), InitialRanks(numWays))
        invariant forall j, m :: 0 <= j < m < i ==> built[j].lines != built[m].lines && built[j].lru != built[m].lru
      {
        var s := new CacheSet(numWays);
        built := built + [s];
        repr := repr + {s.lines, s.lru};
      }
      this.numSets := numSets;
      this.numWays := numWays;
      setBits := Log2(numSets);
      sets := built;
      Repr := repr;
    }

    function SetFor(addr: Addr): (s: CacheSet)
      requires setBits <= MAX_SET_BITS && |sets| == Pow2(setBits)
      ensures s in sets
    {
      sets[GetSetIndex(addr, setBits)]
    }

    /** An operation carried out on the set of `addr`, with all other sets untouched, is that operation on the store. */
    lemma OperationDone(addr: Addr, op: Op, was: Store)
      requires Structured() && ValidStore(was) && was.numWays == numWays && |was.sets| == numSets
      requires forall j :: 0 <= j < numSets && j != GetSetIndex(addr, setBits) ==> sets[j].State() == was.sets[j]
      requires SetFor(addr).State() == ApplySet(Home(was, LineOf(addr)), GetTag(addr, setBits), op)
      ensures Valid() && Model() == Apply(was, LineOf(addr), op)
    {
      assert Model().sets == Apply(was, LineOf(addr), op).sets;
    }

    method Lookup(addr: Addr) returns (resp: LookupResult)
      requires Valid()
      modifies Repr
      ensures Valid() && Model() == Apply(old(Model()), LineOf(addr), Op.Touch)
      ensures resp == CacheStore.Lookup(old(Model()), LineOf(addr))
    {
      ghost var was := Model();
      var s := SetFor(addr);
      assert s.State() == Home(Model(), LineOf(addr));
      resp := LookupIn(s, GetTag(addr, setBits));
      OperationDone(addr, Op.Touch, was);
    }

    static method LookupIn(s: CacheSet, tag: nat) returns (resp: LookupResult)
      requires s.Valid() && s.numWays >= 1
      modifies s.lru
      ensures s.State() == ApplySet(old(s.State()), tag, Op.Touch)
      ensures resp == LookupSet(old(s.State()), tag)
    {
      var way := s.Lookup(tag);
      if way >= 0 {
        resp := Hit(s.lines[way].body);
        s.Touch(way);
        return;
      }
      var free := s.FindInvalid();
      if free >= 0 {
        resp := Miss;
      } else {
        var victim := s.VictimWay();
        resp := Evicting(s.lines[victim]);
      }
    }

    method Fill(addr: Addr, state: LineState, data: Data)
      requires Valid()
      modifies Repr
      ensures Valid() && Model() == Apply(old(Model()), LineOf(addr), Op.Fill(state, data))
    {
      ghost var was := Model();
      var s := SetFor(addr);
      FillIn(s, GetTag(addr, setBits), state, data);
      OperationDone(addr, Op.Fill(state, data), was);
    }

    static method FillIn(s: CacheSet, tag: nat, state: LineState, data: Data)
      requires s.Valid() && s.numWays >= 1
      modifies s.lines, s.lru
      ensures s.State() == ApplySet(old(s.State()), tag, Op.Fill(state, data))
    {
      var way := s.Lookup(tag);
      if way >= 0 {
        var line := s.lines[way];
        s.lines[way] := line.(body := Line(state, data, line.body.sharers));
        s.Touch(way);
        return;
      }
      way := s.FindInvalid();
      if way < 0 {
        way := s.VictimWay();
      }
      s.lines[way] := CacheLine(tag, Line(state, data, {}));
      s.Touch(way);
    }

    method AddSharer(addr: Addr, node: NodeID)
      requires Valid()
      modifies Repr
      ensures Valid() && Model() == Apply(old(Model()), LineOf(addr), Op.AddSharer(node))
      ensures var v := View(old(Model()), LineOf(addr));
              OnlyBecomes(old(Model()), Model(), LineOf(addr),
                if v.Some? then Some(Line(v.value.state, v.value.data, v.value.sharers + {node})) else None)
    {
      ghost var was := Model();
      var s := SetFor(addr);
      var way := s.Lookup(GetTag(addr, setBits));
      if way >= 0 {
        var body := s.lines[way].body;
        s.lines[way] := s.lines[way].(body := body.(sharers := body.sharers + {node}));
      }
      OperationDone(addr, Op.AddSharer(node), was);
      SharerEdits(was, LineOf(addr), node);
    }

    method RemoveSharer(addr: Addr, node: NodeID)
      requires Valid()
      modifies Repr
      ensures Valid() && Model() == Apply(old(Model()), LineOf(addr), Op.RemoveSharer(node))
      ensures var v := View(old(Model()), LineOf(addr));
              OnlyBecomes(old(Model()), Model(), LineOf(addr),
                if v.Some? then Some(Line(v.value.state, v.value.data, v.value.sharers - {node})) else None)
    {
      ghost var was := Model();
      var s := SetFor(addr);
      var way := s.Lookup(GetTag(addr, setBits));
      if way >= 0 {
        var body := s.lines[way].body;
        s.lines[way] := s.lines[way].(body := body.(sharers := body.sharers - {node}));
      }
      OperationDone(addr, Op.RemoveSharer(node), was);
      SharerEdits(was, LineOf(addr), node);
    }

    method ClearSharers(addr: Addr)
      requires Valid()
      modifies Repr
      ensures Valid() && Model() == Apply(old(Model()), LineOf(addr), Op.ClearSharers)
      ensures var v := View(old(Model()), LineOf(addr));
              OnlyBecomes(old(Model()), Model(), LineOf(addr),
                if v.Some? then Some(Line(v.value.state, v.value.data, {})) else None)
    {
      ghost var was := Model();
      var s := SetFor(addr);
      var way := s.Lookup(GetTag(addr, setBits));
      if way >= 0 {
        var body := s.lines[way].body;
        s.lines[way] := s.lines[way].(body := body.(sharers := {}));
      }
      OperationDone(addr, Op.ClearSharers, was);
      SharerEdits(was, LineOf(addr), 0);
    }

    method SetState(addr: Addr, state: LineState)
      requires Valid()
      modifies Repr
      ensures Valid() && Model() == Apply(old(Model()), LineOf(addr), Op.SetLineState(state))
      ensures var v := View(old(Model()), LineOf(addr));
              OnlyBecomes(old(Model()), Model(), LineOf(addr),
                if v.Some? && state != LineState.I then Some(Line(state, v.value.data, v.value.sharers)) else None)
    {
      ghost var was := Model();
      var s := SetFor(addr);
      var way := s.Lookup(GetTag(addr, setBits));
      if way >= 0 {
        var body := s.lines[way].body;
        s.lines[way] := s.lines[way].(body := body.(state := state));
      }
      OperationDone(addr, Op.SetLineState(state), was);
      StateEdits(was, LineOf(addr), state);
    }

    method WriteData(addr: Addr, data: Data)
      requires Valid()
      modifies Repr
      ensures Valid() && Model() == Apply(old(Model()), LineOf(addr), Op.WriteData(data))
      ensures var v := View(old(Model()), LineOf(addr));
              OnlyBecomes(old(Model()), Model(), LineOf(addr),
                if v.Some? then Some(Line(v.value.state, data, v.value.sharers)) else None)
    {
      ghost var was := Model();
      var s := SetFor(addr);
      var way := s.Lookup(GetTag(addr, setBits));
      if way >= 0 {
        var body := s.lines[way].body;
        s.lines[way] := s.lines[way].(body := body.(data := data));
      }
      OperationDone(addr, Op.WriteData(data), was);
      DataEdit(was, LineOf(addr), data);
    }

    method Invalidate(addr: Addr)
      requires Valid()
      modifies Repr
      ensures Valid() && Model() == Apply(old(Model()), LineOf(addr), Op.Invalidate)
      ensures OnlyBecomes(old(Model()), Model(), LineOf(addr), None)
    {
      ghost var was := Model();
      var s := SetFor(addr);
      var way := s.Lookup(GetTag(addr, setBits));
      if way >= 0 {
        s.lines[way] := EmptyLine();
      }
      OperationDone(addr, Op.Invalidate, was);
      StateEdits(was, LineOf(addr), LineState.I);
    }

    /** The resident line, if any: getState, getSharers, getData and needsWriteback all start from it. */
    method Peek(addr: Addr) returns (v: Option<Line>)
      requires Valid()
      ensures v == View(Model(), LineOf(addr))
    {
      var s := SetFor(addr);
      assert s.State() == Home(Model(), LineOf(addr));
      var way := s.Lookup(GetTag(addr, setBits));
      v := if way >= 0 then Some(s.lines[way].body) else None;
    }

    method GetSharers(addr: Addr) returns (sharers: set<NodeID>)
      requires Valid()
      ensures sharers == match View(Model(), LineOf(addr)) case Some(line) => line.sharers case None => {}
    {
      var v := Peek(addr);
      sharers := match v case Some(line) => line.sharers case None => {};
    }

    method GetState(addr: Addr) returns (state: LineState)
      requires Valid()
      ensures state == match View(Model(), LineOf(addr)) case Some(line) => line.state case None => LineState.I
    {
      var v := Peek(addr);
      state := match v case Some(line) => line.state case None => LineState.I;
    }

    /** The payload, or None where the source returns a null pointer. */
    method GetData(addr: Addr) returns (data: Option<Data>)
      requires Valid()
      ensures data == match View(Model(), LineOf(addr)) case Some(line) => Some(line.data) case None => None
    {
      var v := Peek(addr);
      data := match v case Some(line) => Some(line.data) case None => None;
    }

    method NeedsWriteback(addr: Addr) returns (dirty: bool)
      requires Valid()
      ensures dirty <==> View(Model(), LineOf(addr)).Some? && View(Model(), LineOf(addr)).value.state in {UD, SD}
    {
      var v := Peek(addr);
      dirty := v.Some? && Dirty(v.value.state);
    }
  }
}
