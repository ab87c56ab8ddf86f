/**
 * GameManager.SelectSpawnPointFor: order the roster by actor number, take
 * the player's position in that order modulo the number of spawn points,
 * and fall back to the first assigned spawn point when that slot is empty.
 */
module Spawn {
  import opened Wrappers

  predicate Sorted(s: seq<int>)
  {
    forall i, j :: 0 <= i < j < |s| ==> s[i] <= s[j]
  }

  /** The tail of a sorted sequence is sorted. */
  lemma SortedTail(s: seq<int>)
    requires Sorted(s) && |s| > 0
    ensures Sorted(s[1..])
  {
    forall i, j | 0 <= i < j < |s[1..]|
      ensures s[1..][i] <= s[1..][j]
    {
      assert s[1..][i] == s[i + 1] && s[1..][j] == s[j + 1];
    }
  }

  /** Inserts `a` into a sorted sequence after every element not greater than it. */
  function Insert(a: int, s: seq<int>): (r: seq<int>)
    requires Sorted(s)
    ensures Sorted(r)
    ensures multiset(r) == multiset(s) + multiset{a}
    ensures forall i :: 0 <= i < |r| ==> r[i] == a || r[i] in s
  {
    if |s| == 0 then [a]
    else if a < s[0] then [a] + s
    else
      SortedTail(s);
      var t := Insert(a, s[1..]);
      InsertBehindHead(a, s, t);
      [s[0]] + t
  }

  /** Putting the head back in front of the insertion into the tail keeps the result sorted and complete. */
  lemma InsertBehindHead(a: int, s: seq<int>, t: seq<int>)
    requires Sorted(s) && |s| > 0 && s[0] <= a
    requires Sorted(t)
    requires multiset(t) == multiset(s[1..]) + multiset{a}
    requires forall i :: 0 <= i < |t| ==> t[i] == a || t[i] in s[1..]
    ensures Sorted([s[0]] + t)
    ensures multiset([s[0]] + t) == multiset(s) + multiset{a}
    ensures forall i :: 0 <= i < |[s[0]] + t| ==> ([s[0]] + t)[i] == a || ([s[0]] + t)[i] in s
  {
    assert s == [s[0]] + s[1..];
    forall i | 0 <= i < |t|
      ensures s[0] <= t[i]
    {
      if t[i] != a {
        var k :| 0 <= k < |s[1..]| && s[1..][k] == t[i];
        assert s[k + 1] == t[i];
      }
    }
  }

  /** The roster ordered by actor number (a stable OrderBy). */
  function SortActors(roster: seq<int>): (r: seq<int>)
    ensures Sorted(r)
    ensures multiset(r) == multiset(roster)
  {
    if |roster| == 0 then []
    else
      assert roster == [roster[0]] + roster[1..];
      Insert(roster[0], SortActors(roster[1..]))
  }

  /** Array.FindIndex matching by equality: the first index holding `a`, or -1. */
  function FindIndex(s: seq<int>, a: int): (i: int)
    ensures -1 <= i < |s|
    ensures i == -1 <==> a !in s
    ensures i >= 0 ==> s[i] == a && forall j :: 0 <= j < i ==> s[j] != a
  {
    if |s| == 0 then -1
    else if s[0] == a then 0
    else
      var k := FindIndex(s[1..], a);
      assert s == [s[0]] + s[1..];
      if k == -1 then -1 else k + 1
  }

  /** How many roster entries have a smaller actor number than `a`. */
  function CountLess(s: seq<int>, a: int): nat
  {
    if |s| == 0 then 0 else (if s[0] < a then 1 else 0) + CountLess(s[1..], a)
  }

  lemma {:induction false} CountLessInsert(x: int, s: seq<int>, a: int)
    requires Sorted(s)
    ensures CountLess(Insert(x, s), a) == CountLess(s, a) + (if x < a then 1 else 0)
  {
    if |s| > 0 && x >= s[0] {
      SortedTail(s);
      CountLessInsert(x, s[1..], a);
    }
  }

  /** The count of smaller actor numbers does not depend on the order of the roster. */
  lemma {:induction false} CountLessSorted(roster: seq<int>, a: int)
    ensures CountLess(SortActors(roster), a) == CountLess(roster, a)
  {
    if |roster| > 0 {
      CountLessSorted(roster[1..], a);
      CountLessInsert(roster[0], SortActors(roster[1..]), a);
    }
  }

  lemma {:induction false} CountLessNone(s: seq<int>, a: int)
    requires forall i :: 0 <= i < |s| ==> a <= s[i]
    ensures CountLess(s, a) == 0
  {
    if |s| > 0 {
      CountLessNone(s[1..], a);
    }
  }

  /** In a sorted sequence, the first position of `a` is the number of smaller entries. */
  lemma {:induction false} FindIndexSorted(s: seq<int>, a: int)
    requires Sorted(s) && a in s
    ensures FindIndex(s, a) == CountLess(s, a)
  {
    if s[0] == a {
      CountLessNone(s, a);
    } else {
      assert s == [s[0]] + s[1..];
      assert a in s[1..];
      SortedTail(s);
      FindIndexSorted(s[1..], a);
    }
  }

  /** The player's slot: its rank in actor order (0 when it is not in the roster), modulo the slot count. */
  function SpawnIndex(actor: int, roster: seq<int>, count: nat): (i: nat)
    requires count > 0
    ensures i < count
  {
    var playerIndex := FindIndex(SortActors(roster), actor);
    (if playerIndex < 0 then 0 else playerIndex) % count
  }

  /** Ordering the roster keeps exactly its players. */
  lemma SortedMembership(roster: seq<int>, a: int)
    ensures a in SortActors(roster) <==> a in roster
  {
    var sorted := SortActors(roster);
    assert a in roster <==> a in multiset(roster);
    assert a in sorted <==> a in multiset(sorted);
  }

  /** The slot is the number of players with a lower actor number, wrapped around the slots. */
  lemma SpawnIndexIsRank(actor: int, roster: seq<int>, count: nat)
    requires count > 0
    ensures actor in roster ==> SpawnIndex(actor, roster, count) == CountLess(roster, actor) % count
    ensures actor !in roster ==> SpawnIndex(actor, roster, count) == 0
  {
    var sorted := SortActors(roster);
    var playerIndex := FindIndex(sorted, actor);
    SortedMembership(roster, actor);
    if actor in roster {
      FindIndexSorted(sorted, actor);
      CountLessSorted(roster, actor);
      assert playerIndex == CountLess(roster, actor);
    } else {
      assert playerIndex == -1;
    }
  }

  /** The first assigned spawn point, None when every slot is empty. */
  function FirstPresent<T>(s: seq<Option<T>>): (r: Option<T>)
    ensures r.None? <==> forall i :: 0 <= i < |s| ==> s[i].None?
    ensures r.Some? ==> exists i :: 0 <= i < |s| && s[i] == r && forall j :: 0 <= j < i ==> s[j].None?
  {
    if |s| == 0 then None
    else if s[0].Some? then s[0]
    else
      var r := FirstPresent(s[1..]);
      assert r.Some? ==> exists i :: 1 <= i < |s| && s[i] == r && forall j :: 1 <= j < i ==> s[j].None? by {
        if r.Some? {
          var i :| 0 <= i < |s[1..]| && s[1..][i] == r && forall j :: 0 <= j < i ==> s[1..][j].None?;
          assert s[i + 1] == r;
          assert forall j :: 1 <= j < i + 1 ==> s[j] == s[1..][j - 1];
        }
      }
      r
  }

  /**
   * The spawn point for `player` (None when the player is null); empty
   * slots are None. A null spawnPoints array is treated as the empty one.
   */
  function SelectSpawnPointFor<T>(player: Option<int>, roster: seq<int>, spawnPoints: seq<Option<T>>): (r: Option<T>)
    ensures r.None? <==> player.None? || forall j :: 0 <= j < |spawnPoints| ==> spawnPoints[j].None?
    ensures r.Some? ==> exists j :: 0 <= j < |spawnPoints| && spawnPoints[j] == r
    ensures player.Some? && |spawnPoints| > 0 ==>
      var i := SpawnIndex(player.value, roster, |spawnPoints|);
      if spawnPoints[i].Some? then r == spawnPoints[i] else r == FirstPresent(spawnPoints)
  {
    if player.None? || |spawnPoints| == 0 then None
    else
      var selected := spawnPoints[SpawnIndex(player.value, roster, |spawnPoints|)];
      if selected.None? then FirstPresent(spawnPoints) else selected
  }
}
