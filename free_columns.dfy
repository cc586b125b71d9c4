/**
 * The list of free back-rank columns that the Chess960 setup draws from
 * (List<int> in Chess.Model/Rule/Chess960Rulebook.cs), the List.Remove it is
 * shrunk with.
 */
module FreeColumns {
  import opened Positions

  /** The list of free columns as CreateGame creates it. */
  const AllColumns: seq<int> := [0, 1, 2, 3, 4, 5, 6, 7]

  /** Each entry is smaller than the next: a sorted list without repetitions. */
  ghost predicate Increasing(s: seq<int>) {
    |s| < 2 || (s[0] < s[1] && Increasing(s[1..]))
  }

  /** A sorted list of board columns, as the free-column list always is. */
  ghost predicate SortedColumns(s: seq<int>) {
    Increasing(s) && forall c :: c in s ==> InRange(c)
  }

  /** In an increasing list every earlier entry is smaller than every later one. */
  lemma {:induction false} IncreasingIndices(s: seq<int>)
    requires Increasing(s)
    ensures forall i, j :: 0 <= i < j < |s| ==> s[i] < s[j]
  {
    if |s| >= 2 {
      IncreasingIndices(s[1..]);
      forall i, j | 0 <= i < j < |s| ensures s[i] < s[j] {
        assert s[j] == s[1..][j - 1];
        if i > 0 { assert s[i] == s[1..][i - 1]; }
      }
    }
  }

  /** In an increasing list a value stands at one index only. */
  lemma IncreasingEntry(s: seq<int>, i: int, j: int)
    requires Increasing(s) && 0 <= i < |s| && 0 <= j < |s| && s[i] == s[j]
    ensures i == j
  {
    IncreasingIndices(s);
  }

  /** A list whose earlier entries are all smaller than its later ones is increasing. */
  lemma {:induction false} IndicesIncreasing(s: seq<int>)
    requires forall i, j :: 0 <= i < j < |s| ==> s[i] < s[j]
    ensures Increasing(s)
  {
    if |s| >= 2 {
      var tail := s[1..];
      forall i, j | 0 <= i < j < |tail| ensures tail[i] < tail[j] {
        assert tail[i] == s[i + 1] && tail[j] == s[j + 1];
      }
      IndicesIncreasing(tail);
    }
  }

  /**
   * List.Remove(value): drops the first occurrence of value, if there is
   * one. One copy of the value goes, and nothing else.
   */
  function RemoveFirst(s: seq<int>, value: int): (r: seq<int>)
    ensures |r| == |s| ==> r == s
    ensures |r| == |s| || |r| == |s| - 1
  {
    if s == [] then []
    else
      assert s == [s[0]] + s[1..];
      if s[0] == value then s[1..] else [s[0]] + RemoveFirst(s[1..], value)
  }

  /** Removing takes away one copy of the value, and nothing else. */
  lemma {:induction false} RemoveFirstMultiset(s: seq<int>, value: int)
    ensures multiset(RemoveFirst(s, value)) == multiset(s) - multiset{value}
  {
    if s != [] {
      assert s == [s[0]] + s[1..];
      if s[0] != value {
        RemoveFirstMultiset(s[1..], value);
      }
    }
  }

  /** Removing shortens the list by one exactly when the value is in it. */
  lemma {:induction false} RemoveFirstLength(s: seq<int>, value: int)
    ensures |RemoveFirst(s, value)| == if value in s then |s| - 1 else |s|
  {
    if s != [] && s[0] != value {
      assert s == [s[0]] + s[1..];
      RemoveFirstLength(s[1..], value);
    }
  }

  /** Removing a value the list does not hold leaves the list as it is. */
  lemma {:induction false} RemoveFirstAbsent(s: seq<int>, value: int)
    ensures value !in s ==> RemoveFirst(s, value) == s
  {
    if s != [] && value !in s {
      assert s == [s[0]] + s[1..];
      RemoveFirstAbsent(s[1..], value);
    }
  }

  /**
   * Removing from a list of distinct columns leaves exactly the other
   * columns: no copy of the removed one stays behind.
   */
  lemma {:induction false} RemoveFirstMembers(s: seq<int>, value: int)
    requires Increasing(s)
    ensures forall c :: c in RemoveFirst(s, value) <==> c in s && c != value
  {
    if s != [] {
      assert s == [s[0]] + s[1..];
      if s[0] == value {
        IncreasingIndices(s);
        assert value !in s[1..] by {
          forall k | 0 <= k < |s[1..]| ensures s[1..][k] != value {
            assert s[1..][k] == s[k + 1];
          }
        }
      } else {
        RemoveFirstMembers(s[1..], value);
      }
    }
  }

  /** A sorted list holds each value at most once. */
  lemma {:induction false} IncreasingMultiplicity(s: seq<int>, value: int)
    requires Increasing(s)
    ensures multiset(s)[value] <= 1
  {
    if s != [] {
      assert s == [s[0]] + s[1..];
      IncreasingMultiplicity(s[1..], value);
      if s[0] == value {
        IncreasingIndices(s);
        assert value !in s[1..] by {
          forall k | 0 <= k < |s[1..]| ensures s[1..][k] != value {
            assert s[1..][k] == s[k + 1];
          }
        }
      }
    }
  }

  /** Removing one value keeps every other value the list holds. */
  lemma {:induction false} RemoveFirstKeeps(s: seq<int>, value: int, other: int)
    requires other in s && other != value
    ensures other in RemoveFirst(s, value)
  {
    if s[0] != value && s[0] != other {
      RemoveFirstKeeps(s[1..], value, other);
    }
  }

  /** Removing two different values the list holds shortens it by two. */
  lemma RemoveTwoLength(s: seq<int>, first: int, second: int)
    requires first in s && second in s && first != second
    ensures |RemoveFirst(RemoveFirst(s, first), second)| == |s| - 2
  {
    RemoveFirstLength(s, first);
    RemoveFirstKeeps(s, first, second);
    RemoveFirstLength(RemoveFirst(s, first), second);
  }

  /** Removing from a sorted list keeps it sorted. */
  lemma {:induction false} RemoveFirstKeepsOrder(s: seq<int>, value: int)
    requires Increasing(s)
    ensures Increasing(RemoveFirst(s, value))
  {
    if s != [] && s[0] != value {
      var rest := RemoveFirst(s[1..], value);
      RemoveFirstKeepsOrder(s[1..], value);
      RemoveFirstMembers(s[1..], value);
      var r := [s[0]] + rest;
      assert r[1..] == rest;
      if |rest| > 0 {
        IncreasingIndices(s);
        assert rest[0] in s[1..];
        var k :| 0 <= k < |s[1..]| && s[1..][k] == rest[0];
        assert s[k + 1] == rest[0];
      }
    }
  }

  /** Takes entry i off the list: what is left after a piece takes the column at index i. */
  function TakeEntry(s: seq<int>, i: int): (r: seq<int>)
    requires 0 <= i < |s|
    ensures |r| == |s| - 1
  {
    RemoveFirstLength(s, s[i]);
    RemoveFirst(s, s[i])
  }

  /** On an increasing list, removing the value at index i cuts out exactly that entry. */
  lemma {:induction false} RemoveFirstAt(s: seq<int>, i: int)
    requires Increasing(s) && 0 <= i < |s|
    ensures RemoveFirst(s, s[i]) == s[..i] + s[i + 1..]
  {
    if i > 0 {
      IncreasingIndices(s);
      var tail := s[1..];
      assert tail[i - 1] == s[i];
      RemoveFirstAt(tail, i - 1);
      assert s[..i] == [s[0]] + tail[..i - 1];
      assert s[i + 1..] == tail[i..];
    }
  }

  /**
   * After entry i of an increasing list is taken, the entries from i on are
   * the old ones one further along, so each is larger than the one taken.
   */
  lemma TakeEntryLater(s: seq<int>, i: int, j: int)
    requires Increasing(s) && 0 <= i <= j < |s| - 1
    ensures TakeEntry(s, i)[j] == s[j + 1] && s[i] < TakeEntry(s, i)[j]
  {
    RemoveFirstAt(s, i);
    IncreasingIndices(s);
  }

  /** Taking an entry off a sorted list leaves it sorted. */
  lemma TakeEntrySorted(s: seq<int>, i: int)
    requires Increasing(s) && 0 <= i < |s|
    ensures Increasing(TakeEntry(s, i))
  {
    RemoveFirstKeepsOrder(s, s[i]);
  }

  /** A list of free columns with nothing taken yet: sorted, and holding all eight board columns. */
  ghost predicate FullColumns(s: seq<int>) {
    SortedColumns(s) && |s| == 8 && forall c :: InRange(c) ==> c in s
  }

  /** Every board column is in the initial list of free columns. */
  lemma ColumnOfAll(c: int)
    requires 0 <= c <= 7
    ensures c in AllColumns
  {
    assert AllColumns[c] == c;
  }

  /** The initial list is sorted and holds the board columns, and nothing else. */
  lemma AllColumnsSorted()
    ensures Increasing(AllColumns)
    ensures forall c :: c in AllColumns <==> InRange(c)
  {
    assert AllColumns[1..] == [1, 2, 3, 4, 5, 6, 7];
    assert AllColumns[1..][1..] == [2, 3, 4, 5, 6, 7];
    assert AllColumns[1..][1..][1..] == [3, 4, 5, 6, 7];
    assert AllColumns[1..][1..][1..][1..] == [4, 5, 6, 7];
    assert AllColumns[1..][1..][1..][1..][1..] == [5, 6, 7];
    assert AllColumns[1..][1..][1..][1..][1..][1..] == [6, 7];
    forall c | InRange(c) ensures c in AllColumns {
      ColumnOfAll(c);
    }
  }

  /** The initial list has nothing taken. */
  lemma AllColumnsFull()
    ensures FullColumns(AllColumns)
  {
    AllColumnsSorted();
  }
}
