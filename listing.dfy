/**
 * Tables with auto-increment identifiers, and the newest-first order in which the
 * server lists their rows (`orderBy: [{ createdAt: 'desc' }, { id: 'desc' }]`).
 */
module Listing {

  /** A table: its rows by identifier and the identifier the next insert receives. */
  datatype Table<T> = Table(rows: map<int, T>, nextId: int) {

    /** Identifiers start at 1 and every one in use was handed out already. */
    ghost predicate WellFormed() {
      nextId >= 1 && forall id :: id in rows ==> 1 <= id < nextId
    }

    /** An insert: the row receives `nextId`, and the counter moves on (ids are never reused). */
    function Insert(row: T): (t: Table<T>)
      requires WellFormed()
      ensures t.WellFormed()
      ensures nextId !in rows && t.rows.Keys == rows.Keys + {nextId}
      ensures t.rows[nextId] == row && t.nextId == nextId + 1
      ensures forall id :: id in rows ==> t.rows[id] == rows[id]
    {
      Table(rows[nextId := row], nextId + 1)
    }
  }

  /** Row `a` (created at `ca`) is listed before row `b` (created at `cb`). */
  predicate Precedes(ca: int, a: int, cb: int, b: int) {
    ca > cb || (ca == cb && a > b)
  }

  ghost predicate Stamped(ids: seq<int>, stamp: map<int, int>) {
    forall i :: 0 <= i < |ids| ==> ids[i] in stamp
  }

  /** Every earlier identifier precedes every later one. */
  ghost predicate NewestFirst(ids: seq<int>, stamp: map<int, int>)
    requires Stamped(ids, stamp)
  {
    forall i, j :: 0 <= i < j < |ids| ==> Precedes(stamp[ids[i]], ids[i], stamp[ids[j]], ids[j])
  }

  ghost predicate Distinct(ids: seq<int>) {
    forall i, j :: 0 <= i < j < |ids| ==> ids[i] != ids[j]
  }

  /** The identifiers of `rows` below `n`, in increasing order. */
  function IdsBelow<T>(rows: map<int, T>, n: int): (r: seq<int>)
    ensures forall x :: x in r <==> x in rows && x < n && x >= 1
    ensures Distinct(r)
    decreases n
  {
    if n <= 1 then []
    else
      var r := IdsBelow(rows, n - 1);
      if n - 1 in rows then r + [n - 1] else r
  }

  /** Places `id` into a newest-first list. */
  function Insert(id: int, ids: seq<int>, stamp: map<int, int>): (r: seq<int>)
    requires id in stamp && Stamped(ids, stamp) && NewestFirst(ids, stamp) && id !in ids
    ensures Stamped(r, stamp) && NewestFirst(r, stamp)
    ensures forall x :: x in r <==> x == id || x in ids
    ensures |r| == |ids| + 1
  {
    if ids == [] then [id]
    else if Precedes(stamp[id], id, stamp[ids[0]], ids[0]) then [id] + ids
    else
      var rest := Insert(id, ids[1..], stamp);
      forall j | 0 <= j < |rest|
        ensures Precedes(stamp[ids[0]], ids[0], stamp[rest[j]], rest[j])
      {
        assert rest[j] in rest;
        if rest[j] == id {
          assert ids[0] != id;
        } else {
          var k :| 0 <= k < |ids[1..]| && ids[1..][k] == rest[j];
          assert ids[k + 1] == rest[j];
        }
      }
      [ids[0]] + rest
  }

  /** Sorts distinct identifiers newest first: insertion sort. */
  function SortNewestFirst(ids: seq<int>, stamp: map<int, int>): (r: seq<int>)
    requires Stamped(ids, stamp) && Distinct(ids)
    ensures Stamped(r, stamp) && NewestFirst(r, stamp)
    ensures forall x :: x in r <==> x in ids
    ensures |r| == |ids|
  {
    if ids == [] then []
    else
      var rest := SortNewestFirst(ids[1..], stamp);
      assert ids[0] !in ids[1..] by {
        forall k | 0 <= k < |ids[1..]| ensures ids[1..][k] != ids[0] {
          assert ids[1..][k] == ids[k + 1];
        }
      }
      Insert(ids[0], rest, stamp)
  }

  /**
   * The listing order of a table: every row exactly once, ordered by creation
   * time descending, then identifier descending.
   */
  function NewestFirstIds<T>(t: Table<T>, stamp: map<int, int>): (r: seq<int>)
    requires t.WellFormed() && t.rows.Keys == stamp.Keys
    ensures Stamped(r, stamp) && NewestFirst(r, stamp) && Distinct(r)
    ensures forall x :: x in r <==> x in t.rows
  {
    var ids := IdsBelow(t.rows, t.nextId);
    assert Stamped(ids, stamp);
    var r := SortNewestFirst(ids, stamp);
    NewestFirstDistinct(r, stamp);
    r
  }

  /** A newest-first list never repeats an identifier. */
  lemma NewestFirstDistinct(ids: seq<int>, stamp: map<int, int>)
    requires Stamped(ids, stamp) && NewestFirst(ids, stamp)
    ensures Distinct(ids)
  {
  }

  /** Two newest-first lists of the same identifiers are the same list. */
  lemma {:induction false} NewestFirstUnique(a: seq<int>, b: seq<int>, stamp: map<int, int>)
    requires Stamped(a, stamp) && NewestFirst(a, stamp)
    requires Stamped(b, stamp) && NewestFirst(b, stamp)
    requires forall x :: x in a <==> x in b
    ensures a == b
    decreases |a|
  {
    NonEmptyCarries(a, b);
    NonEmptyCarries(b, a);
    if a != [] {
      assert a[0] in a && b[0] in b;
      assert a[0] == b[0] by {
        var i :| 0 <= i < |b| && b[i] == a[0];
        var j :| 0 <= j < |a| && a[j] == b[0];
      }
      forall x ensures x in a[1..] <==> x in b[1..] {
        TailMembers(a, x);
        TailMembers(b, x);
      }
      NewestFirstUnique(a[1..], b[1..], stamp);
      assert a == [a[0]] + a[1..] && b == [b[0]] + b[1..];
    }
  }

  /** A non-empty list whose members all belong to another makes that one non-empty. */
  lemma NonEmptyCarries(a: seq<int>, b: seq<int>)
    requires forall x :: x in a ==> x in b
    ensures a != [] ==> b != []
  {
    if a != [] {
      var first := a[0];
      assert first in a;
      assert first in b;
    }
  }

  lemma TailMembers(ids: seq<int>, x: int)
    requires ids != [] && Distinct(ids)
    ensures x in ids[1..] <==> x in ids && x != ids[0]
  {
    if x in ids[1..] {
      var k :| 0 <= k < |ids[1..]| && ids[1..][k] == x;
      assert ids[k + 1] == x;
    }
    if x in ids && x != ids[0] {
      var k :| 0 <= k < |ids| && ids[k] == x;
      assert ids[1..][k - 1] == x;
    }
  }
}
