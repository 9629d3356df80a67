/** The bounded dedup ledger behind `publishedEventIds` (KillFetcher.js) and
    `postedEventIds` (DiscordBot.js): a JavaScript `Set` of event ids, which
    iterates in insertion order, trimmed to a capacity by deleting the first
    ids its iterator yields. The set is a sequence without repetitions, oldest
    id first. */
module Ledger {

  predicate Distinct(s: seq<int>) {
    forall i, j :: 0 <= i < j < |s| ==> s[i] != s[j]
  }

  /** `set.add(id)`: a new id goes to the end, a known id keeps its place. */
  function Added(ledger: seq<int>, id: int): (r: seq<int>)
    ensures id in r && forall x :: x in r <==> x in ledger || x == id
  {
    if id in ledger then ledger else ledger + [id]
  }

  /** The newest `cap` entries of `s` (all of `s` when it is short enough). */
  function Newest(s: seq<int>, cap: nat): (r: seq<int>)
    ensures |r| == if |s| <= cap then |s| else cap
    ensures r == s[|s| - |r|..]
  {
    if |s| <= cap then s else s[|s| - cap..]
  }

  /** The ledger after `_rememberPublished(id)` / `_rememberPosted(id)`: add the
      id, then delete the oldest `size - cap` entries if the set outgrew `cap`. */
  function Remembered(ledger: seq<int>, id: int, cap: nat): (r: seq<int>)
    ensures |r| <= cap
    // a new id becomes the newest entry
    ensures cap > 0 && id !in ledger ==> |r| > 0 && r[|r| - 1] == id
    ensures forall x :: x in r ==> x in ledger || x == id
    // re-inserting a known id into a ledger within its bound changes nothing
    ensures id in ledger && |ledger| <= cap ==> r == ledger
  {
    Newest(Added(ledger, id), cap)
  }

  lemma DistinctIndex(s: seq<int>, a: int, b: int)
    requires Distinct(s) && 0 <= a < |s| && 0 <= b < |s| && s[a] == s[b]
    ensures a == b
  {
  }

  lemma AddedDistinct(ledger: seq<int>, id: int)
    requires Distinct(ledger)
    ensures Distinct(Added(ledger, id))
  {
    if id !in ledger {
      var added := ledger + [id];
      forall i, j | 0 <= i < j < |added| ensures added[i] != added[j] {
        if j < |ledger| {
          assert added[i] == ledger[i] && added[j] == ledger[j];
        } else {
          assert added[i] == ledger[i];
        }
      }
    }
  }

  lemma DistinctSuffix(s: seq<int>, k: int)
    requires Distinct(s) && 0 <= k <= |s|
    ensures Distinct(s[k..])
  {
    forall i, j | 0 <= i < j < |s| - k ensures s[k..][i] != s[k..][j] {
      assert s[k..][i] == s[k + i] && s[k..][j] == s[k + j];
    }
  }

  /** The ledger stays a set: remembering never duplicates an id. */
  lemma RememberedDistinct(ledger: seq<int>, id: int, cap: nat)
    requires Distinct(ledger)
    ensures Distinct(Remembered(ledger, id, cap))
  {
    var added := Added(ledger, id);
    AddedDistinct(ledger, id);
    DistinctSuffix(added, |added| - |Newest(added, cap)|);
  }

  /** In a sequence without repetitions, whatever follows a kept entry is kept. */
  lemma NewestKeepsLater(s: seq<int>, cap: nat, i: int, j: int)
    requires Distinct(s) && 0 <= i < j < |s| && s[i] in Newest(s, cap)
    ensures s[j] in Newest(s, cap)
  {
    var r := Newest(s, cap);
    var cut := |s| - |r|;
    var k :| 0 <= k < |r| && r[k] == s[i];
    assert s[cut + k] == s[i];
    DistinctIndex(s, cut + k, i);
    assert r[j - cut] == s[j];
  }

  /** Only the oldest entries are evicted: an entry that survives is newer than
      every entry that was dropped. */
  lemma RememberedEvictsOldest(ledger: seq<int>, id: int, cap: nat, i: int, j: int)
    requires Distinct(ledger)
    requires 0 <= i < j < |ledger| && ledger[i] in Remembered(ledger, id, cap)
    ensures ledger[j] in Remembered(ledger, id, cap)
  {
    var added := Added(ledger, id);
    AddedDistinct(ledger, id);
    assert added[i] == ledger[i] && added[j] == ledger[j];
    NewestKeepsLater(added, cap, i, j);
  }

  /** The ledger after remembering each of `ids` in turn. */
  function RememberedAll(ledger: seq<int>, ids: seq<int>, cap: nat): seq<int>
    decreases |ids|
  {
    if ids == [] then ledger
    else Remembered(RememberedAll(ledger, ids[..|ids| - 1], cap), ids[|ids| - 1], cap)
  }

  lemma RememberedAllNext(ledger: seq<int>, ids: seq<int>, id: int, cap: nat)
    ensures RememberedAll(ledger, ids + [id], cap) == Remembered(RememberedAll(ledger, ids, cap), id, cap)
  {
    assert (ids + [id])[..|ids|] == ids;
  }

  lemma NewestOfNewest(s: seq<int>, x: int, cap: nat)
    ensures Newest(Newest(s, cap) + [x], cap) == Newest(s + [x], cap)
  {
    var t := Newest(s, cap);
    if |s| > cap {
      assert t + [x] == (s + [x])[|s| - cap..];
    }
  }

  /** Each of `ids` was new to the ledger at the moment it was remembered:
      absent from the ledger left by the inserts before it. */
  predicate FreshRun(ledger: seq<int>, ids: seq<int>, cap: nat) {
    forall i :: 0 <= i < |ids| ==> ids[i] !in RememberedAll(ledger, ids[..i], cap)
  }

  lemma FreshRunNext(ledger: seq<int>, ids: seq<int>, id: int, cap: nat)
    requires FreshRun(ledger, ids, cap) && id !in RememberedAll(ledger, ids, cap)
    ensures FreshRun(ledger, ids + [id], cap)
  {
    var all := ids + [id];
    forall i | 0 <= i < |all| ensures all[i] !in RememberedAll(ledger, all[..i], cap) {
      if i < |ids| {
        assert all[i] == ids[i] && all[..i] == ids[..i];
      } else {
        assert all[..i] == ids;
      }
    }
  }

  /** After any sequence of inserts that are each new when they happen, the
      ledger holds exactly the `cap` most recently inserted ids, oldest first:
      eviction never loses a newer id before an older one. */
  lemma {:induction false} RememberedAllFresh(ledger: seq<int>, ids: seq<int>, cap: nat)
    requires FreshRun(ledger, ids, cap) && |ledger| <= cap
    ensures RememberedAll(ledger, ids, cap) == Newest(ledger + ids, cap)
    decreases |ids|
  {
    if ids == [] {
      assert ledger + ids == ledger;
    } else {
      var n := |ids| - 1;
      var front, last := ids[..n], ids[n];
      FreshRunSplit(ledger, ids, cap);
      RememberedAllFresh(ledger, front, cap);
      RememberedFreshStep(RememberedAll(ledger, front, cap), ledger + front, last, cap);
      JoinLast(ledger, ids);
    }
  }

  /** A fresh run splits into a fresh run and a last id that is new to the
      ledger the run leaves, remembered on top of it. */
  lemma FreshRunSplit(ledger: seq<int>, ids: seq<int>, cap: nat)
    requires FreshRun(ledger, ids, cap) && ids != []
    ensures FreshRun(ledger, ids[..|ids| - 1], cap)
    ensures ids[|ids| - 1] !in RememberedAll(ledger, ids[..|ids| - 1], cap)
    ensures RememberedAll(ledger, ids, cap) == Remembered(RememberedAll(ledger, ids[..|ids| - 1], cap), ids[|ids| - 1], cap)
  {
    FreshRunPrefix(ledger, ids, |ids| - 1, cap);
  }

  lemma JoinLast(ledger: seq<int>, ids: seq<int>)
    requires ids != []
    ensures ledger + ids == (ledger + ids[..|ids| - 1]) + [ids[|ids| - 1]]
  {
  }

  lemma FreshRunPrefix(ledger: seq<int>, ids: seq<int>, n: nat, cap: nat)
    requires FreshRun(ledger, ids, cap) && n <= |ids|
    ensures FreshRun(ledger, ids[..n], cap)
  {
    var front := ids[..n];
    forall i | 0 <= i < |front| ensures front[i] !in RememberedAll(ledger, front[..i], cap) {
      assert front[i] == ids[i] && front[..i] == ids[..i];
    }
  }

  /** Remembering a new id in the newest `cap` of a history is taking the
      newest `cap` of the history extended by that id. */
  lemma RememberedFreshStep(prev: seq<int>, history: seq<int>, x: int, cap: nat)
    requires prev == Newest(history, cap) && x !in prev
    ensures Remembered(prev, x, cap) == Newest(history + [x], cap)
  {
    assert Added(prev, x) == prev + [x];
    NewestOfNewest(history, x, cap);
  }

  /** While nothing is evicted, inserts that are each new when they happen
      add distinct ids that were not in the ledger before. */
  lemma {:induction false} FreshRunDistinct(ledger: seq<int>, ids: seq<int>, cap: nat)
    requires Distinct(ledger) && FreshRun(ledger, ids, cap) && |ledger| + |ids| <= cap
    ensures Distinct(ledger + ids)
    decreases |ids|
  {
    if ids == [] {
      assert ledger + ids == ledger;
    } else {
      var n := |ids| - 1;
      var front, last := ids[..n], ids[n];
      FreshRunSplit(ledger, ids, cap);
      FreshRunDistinct(ledger, front, cap);
      RememberedAllFresh(ledger, front, cap);
      assert Newest(ledger + front, cap) == ledger + front;
      AddedDistinct(ledger + front, last);
      JoinLast(ledger, ids);
    }
  }

  /** The eviction loop of `_rememberPublished` and `_rememberPosted`: add the
      id, then delete the first id the set's iterator yields, `over` times. */
  method Remember(ledger: seq<int>, id: int, cap: nat) returns (r: seq<int>)
    ensures r == Remembered(ledger, id, cap)
  {
    r := Added(ledger, id);
    if |r| > cap {
      var over := |r| - cap;
      ghost var added := r;
      var i := 0;
      while i < over
        invariant 0 <= i <= over
        invariant r == added[i..]
      {
        r := r[1..];
        i := i + 1;
      }
    }
  }
}
