/** The LRU ranks are a true recency order, for every history of touches. */
module LruRecency {
  import opened CacheSets

  /** The ranks after a history of touches of a fresh set of `n` ways. */
  function Replay(n: nat, history: seq<nat>): (lru: seq<int>)
    requires forall k :: 0 <= k < |history| ==> history[k] < n
    ensures |lru| == n
  {
    if history == [] then InitialRanks(n)
    else Touched(Replay(n, history[..|history| - 1]), history[|history| - 1])
  }

  ghost function Above(way: nat, n: nat): (s: set<nat>)
    ensures forall x :: x in s <==> way < x < n
    ensures way < n ==> |s| == n - 1 - way
    decreases n - way
  {
    if way + 1 >= n then {} else {way + 1} + Above(way + 1, n)
  }

  /** The other ways touched since `way` was last touched; initially, the ways above it. */
  ghost function Since(n: nat, history: seq<nat>, way: nat): set<nat> {
    if history == [] then Above(way, n)
    else if history[|history| - 1] == way then {}
    else Since(n, history[..|history| - 1], way) + {history[|history| - 1]}
  }

  /** What the ranks say about one way: its rank counts the others touched since, and those rank above it. */
  ghost predicate RankTells(lru: seq<int>, way: nat, since: set<nat>)
    requires way < |lru|
  {
    && way !in since
    && (forall x <- since :: x < |lru|)
    && lru[way] == |lru| - 1 - |since|
    && (forall x :: 0 <= x < |lru| && x != way ==> (x in since <==> lru[x] > lru[way]))
  }

  /** Touching keeps the ranks a permutation and keeps the order of all other ways. */
  lemma TouchKeepsRanks(lru: seq<int>, way: nat)
    requires Ranked(lru) && way < |lru|
    ensures Ranked(Touched(lru, way))
    ensures forall i :: 0 <= i < |lru| && i != way ==> Touched(lru, way)[i] < Touched(lru, way)[way]
    ensures forall i, j :: 0 <= i < |lru| && 0 <= j < |lru| && i != way && j != way ==>
              (Touched(lru, way)[i] > Touched(lru, way)[j] <==> lru[i] > lru[j])
  {
    var t := Touched(lru, way);
    forall i | 0 <= i < |lru| ensures 0 <= t[i] < |lru| && (i != way ==> t[i] < |lru| - 1) {
      if i != way && lru[i] <= lru[way] {
        assert lru[i] != lru[way];
      }
    }
    forall i, j | 0 <= i < |lru| && 0 <= j < |lru| && i != way && j != way && lru[i] > lru[j]
      ensures t[i] > t[j]
    {
      assert lru[i] != lru[way] && lru[j] != lru[way];
    }
    forall i, j | 0 <= i < j < |lru| ensures t[i] != t[j] {
      if i != way && j != way {
        assert lru[i] > lru[j] || lru[j] > lru[i];
      }
    }
  }

  lemma TouchKeepsRankTells(lru: seq<int>, touched: nat, way: nat, since: set<nat>)
    requires Ranked(lru) && touched < |lru| && way < |lru| && RankTells(lru, way, since)
    ensures RankTells(Touched(lru, touched), way, if touched == way then {} else since + {touched})
  {
    TouchKeepsRanks(lru, touched);
    if touched != way && touched !in since {
      assert lru[touched] != lru[way];
      assert |since + {touched}| == |since| + 1;
    } else if touched != way {
      assert since + {touched} == since;
    }
  }

  /** The rank of a way is its distance from the most recently used position: n-1 minus the number of
      distinct other ways touched since; and `x` was touched since `w` exactly when it ranks above it. */
  lemma {:induction false} RankIsRecency(n: nat, history: seq<nat>)
    requires forall k :: 0 <= k < |history| ==> history[k] < n
    ensures Ranked(Replay(n, history))
    ensures forall w :: 0 <= w < n ==> RankTells(Replay(n, history), w, Since(n, history, w))
  {
    if history != [] {
      var h, y := history[..|history| - 1], history[|history| - 1];
      RankIsRecency(n, h);
      TouchKeepsRanks(Replay(n, h), y);
      forall w | 0 <= w < n ensures RankTells(Replay(n, history), w, Since(n, history, w)) {
        TouchKeepsRankTells(Replay(n, h), y, w, Since(n, h, w));
      }
    }
  }

  /** A way is the victim exactly when every other way has been touched since its own last touch. */
  lemma VictimIffAllOthersTouchedSince(n: nat, history: seq<nat>, way: nat)
    requires way < n && forall k :: 0 <= k < |history| ==> history[k] < n
    ensures Victim(Replay(n, history), n) == way <==>
            forall x :: 0 <= x < n && x != way ==> x in Since(n, history, way)
  {
    RankIsRecency(n, history);
    var lru := Replay(n, history);
    assert RankTells(lru, way, Since(n, history, way));
    var v := Victim(lru, n);
    if v == way {
      forall x | 0 <= x < n && x != way ensures x in Since(n, history, way) {
        assert lru[x] != lru[way];
      }
    } else {
      assert lru[v] <= lru[way];
    }
  }

  /** A just-touched way is safe until all the others have been touched: any shorter continuation spares it. */
  lemma TouchedWaySurvives(n: nat, history: seq<nat>, way: nat, later: seq<nat>)
    requires way < n
    requires forall k :: 0 <= k < |history| ==> history[k] < n
    requires forall k :: 0 <= k < |later| ==> later[k] < n
    requires exists x :: 0 <= x < n && x != way && x !in later
    ensures Victim(Replay(n, history + [way] + later), n) != way
  {
    var x :| 0 <= x < n && x != way && x !in later;
    SinceIsLater(n, history + [way], way, later);
    assert x !in Since(n, history + [way] + later, way);
    VictimIffAllOthersTouchedSince(n, history + [way] + later, way);
  }

  lemma {:induction false} SinceIsLater(n: nat, history: seq<nat>, way: nat, later: seq<nat>)
    requires history != [] && history[|history| - 1] == way
    ensures forall x <- Since(n, history + later, way) :: x in later
  {
    if later == [] {
      assert history + later == history;
    } else {
      var init := later[..|later| - 1];
      SinceIsLater(n, history, way, init);
      assert (history + later)[..|history + later| - 1] == history + init;
    }
  }
}
