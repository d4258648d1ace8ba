/**
 * A database table as the routers see it: rows in ascending primary-key
 * order (the order SQLite returns them without ORDER BY), each a key and a
 * record of columns. New rows get SQLite's rowid: one past the largest key,
 * or 1 in an empty table. Also the `setattr` loop that copies the fields of
 * a request into a row.
 */
module Tables {
  import opened Base

  datatype Row<R> = Row(id: int, rec: R)

  predicate Ascending<R>(t: seq<Row<R>>)
  {
    forall i, j :: 0 <= i < j < |t| ==> t[i].id < t[j].id
  }

  predicate HasId<R>(t: seq<Row<R>>, id: int)
  {
    exists i :: 0 <= i < |t| && t[i].id == id
  }

  function NextId<R>(t: seq<Row<R>>): (id: int)
    requires Ascending(t)
    ensures forall i :: 0 <= i < |t| ==> t[i].id < id
    ensures !HasId(t, id)
  {
    if t == [] then 1 else t[|t| - 1].id + 1
  }

  /** The record stored under `id` (`query.filter(id == ...).first()`). */
  function Get<R>(t: seq<Row<R>>, id: int): (r: Option<R>)
    ensures r.None? <==> !HasId(t, id)
    ensures r.Some? ==> Row(id, r.value) in t
  {
    if t == [] then None
    else if t[0].id == id then Some(t[0].rec)
    else
      assert forall i :: 1 <= i < |t| ==> t[i] == t[1..][i - 1];
      Get(t[1..], id)
  }

  /** A row of an ascending table is the only one with its key. */
  lemma KeyedRow<R>(t: seq<Row<R>>, x: Row<R>, y: Row<R>)
    requires Ascending(t) && x in t && y in t && x.id == y.id
    ensures x == y
  {
    var i :| 0 <= i < |t| && t[i] == x;
    var j :| 0 <= j < |t| && t[j] == y;
    assert i == j;
  }

  lemma GetUnique<R>(t: seq<Row<R>>, id: int, rec: R)
    requires Ascending(t) && Row(id, rec) in t
    ensures Get(t, id) == Some(rec)
  {
    if t[0] != Row(id, rec) {
      assert Row(id, rec) in t[1..];
      GetUnique(t[1..], id, rec);
    }
  }

  function Insert<R>(t: seq<Row<R>>, rec: R): (r: seq<Row<R>>)
    requires Ascending(t)
    ensures Ascending(r) && |r| == |t| + 1
  {
    t + [Row(NextId(t), rec)]
  }

  function Replace<R>(t: seq<Row<R>>, id: int, rec: R): (r: seq<Row<R>>)
    ensures |r| == |t|
    ensures forall i :: 0 <= i < |t| ==> r[i].id == t[i].id
  {
    if t == [] then []
    else [if t[0].id == id then Row(id, rec) else t[0]] + Replace(t[1..], id, rec)
  }

  function Remove<R>(t: seq<Row<R>>, id: int): (r: seq<Row<R>>)
    ensures forall row :: row in r ==> row in t && row.id != id
    ensures |r| <= |t|
  {
    if t == [] then []
    else (if t[0].id == id then [] else [t[0]]) + Remove(t[1..], id)
  }

  lemma {:induction false} ReplaceAscending<R>(t: seq<Row<R>>, id: int, rec: R)
    requires Ascending(t)
    ensures Ascending(Replace(t, id, rec))
  {
  }

  lemma {:induction false} RemoveAscending<R>(t: seq<Row<R>>, id: int)
    requires Ascending(t)
    ensures Ascending(Remove(t, id))
  {
    if t != [] {
      RemoveAscending(t[1..], id);
      var rest := Remove(t[1..], id);
      forall row | row in rest ensures t[0].id < row.id {
        var i :| 0 <= i < |t[1..]| && t[1..][i] == row;
        assert t[i + 1] == row;
      }
    }
  }

  /** The rows left by a remove are exactly the rows with another key. */
  lemma {:induction false} RemoveMembers<R>(t: seq<Row<R>>, id: int)
    ensures forall x :: x in Remove(t, id) <==> x in t && x.id != id
  {
    if t != [] {
      RemoveMembers(t[1..], id);
      assert Remove(t, id) == (if t[0].id == id then [] else [t[0]]) + Remove(t[1..], id);
      assert forall x :: x in t <==> x == t[0] || x in t[1..] by {
        assert t == [t[0]] + t[1..];
      }
    }
  }

  /** Replacing a key the table does not have changes nothing. */
  lemma {:induction false} ReplaceAbsent<R>(t: seq<Row<R>>, id: int, rec: R)
    requires !HasId(t, id)
    ensures Replace(t, id, rec) == t
  {
    if t != [] {
      assert !HasId(t[1..], id) by {
        forall i | 0 <= i < |t[1..]| ensures t[1..][i].id != id {
          assert t[1..][i] == t[i + 1];
        }
      }
      ReplaceAbsent(t[1..], id, rec);
      assert t[0].id != id;
      assert t == [t[0]] + t[1..];
    }
  }

  /** Writing back the record a key already holds changes nothing. */
  lemma {:induction false} ReplaceSame<R>(t: seq<Row<R>>, id: int, rec: R)
    requires Ascending(t) && Row(id, rec) in t
    ensures Replace(t, id, rec) == t
  {
    assert t == [t[0]] + t[1..];
    if t[0] == Row(id, rec) {
      assert !HasId(t[1..], id) by {
        forall i | 0 <= i < |t[1..]| ensures t[1..][i].id != id {
          assert t[1..][i] == t[i + 1];
        }
      }
      ReplaceAbsent(t[1..], id, rec);
    } else {
      var k :| 0 <= k < |t| && t[k] == Row(id, rec);
      assert k > 0 && t[0].id < id;
      assert Row(id, rec) in t[1..] by { assert t[1..][k - 1] == t[k]; }
      ReplaceSame(t[1..], id, rec);
    }
  }

  /** The second of two replaces under one key is the one that counts. */
  lemma {:induction false} ReplaceReplace<R>(t: seq<Row<R>>, id: int, a: R, b: R)
    ensures Replace(Replace(t, id, a), id, b) == Replace(t, id, b)
  {
    if t != [] {
      ReplaceReplace(t[1..], id, a, b);
      var r := Replace(t, id, a);
      assert r[0] == (if t[0].id == id then Row(id, a) else t[0]) && r[1..] == Replace(t[1..], id, a);
    }
  }

  /** After an insert, the new key holds the new record and every other key is as before. */
  lemma GetInsert<R>(t: seq<Row<R>>, rec: R, k: int)
    requires Ascending(t)
    ensures Get(Insert(t, rec), k) == if k == NextId(t) then Some(rec) else Get(t, k)
  {
    var r := Insert(t, rec);
    if k == NextId(t) {
      GetUnique(r, k, rec);
    } else if Get(t, k).Some? {
      GetUnique(r, k, Get(t, k).value);
    }
  }

  /** After a replace, `id` holds the new record (if it was present) and every other key is as before. */
  lemma {:induction false} GetReplace<R>(t: seq<Row<R>>, id: int, rec: R, k: int)
    ensures Get(Replace(t, id, rec), k) == if k == id && HasId(t, id) then Some(rec) else Get(t, k)
  {
    if t != [] {
      GetReplace(t[1..], id, rec, k);
      assert HasId(t, id) <==> t[0].id == id || HasId(t[1..], id) by {
        if HasId(t, id) && t[0].id != id {
          var i :| 0 <= i < |t| && t[i].id == id;
          assert t[1..][i - 1].id == id;
        }
        if HasId(t[1..], id) {
          var i :| 0 <= i < |t[1..]| && t[1..][i].id == id;
          assert t[i + 1].id == id;
        }
      }
    }
  }

  lemma GetCons<R>(x: Row<R>, s: seq<Row<R>>, k: int)
    ensures Get([x] + s, k) == if x.id == k then Some(x.rec) else Get(s, k)
  {
    assert ([x] + s)[0] == x && ([x] + s)[1..] == s;
  }

  /** After a remove, `id` is absent and every other key is as before. */
  lemma {:induction false} GetRemove<R>(t: seq<Row<R>>, id: int, k: int)
    ensures Get(Remove(t, id), k) == if k == id then None else Get(t, k)
  {
    if t != [] {
      var rest := Remove(t[1..], id);
      GetRemove(t[1..], id, k);
      if t[0].id != id {
        assert Remove(t, id) == [t[0]] + rest;
        GetCons(t[0], rest, k);
      } else {
        assert Remove(t, id) == rest;
      }
    }
  }

  /** The index of the first row that satisfies `f` (`query.filter(...).first()`). */
  function FirstWhere<R>(t: seq<Row<R>>, f: Row<R> -> bool): (r: Option<nat>)
    ensures r.Some? ==> r.value < |t| && f(t[r.value])
  {
    if t == [] then None
    else if f(t[0]) then Some(0)
    else
      match FirstWhere(t[1..], f)
      case None => None
      case Some(i) => Some(i + 1)
  }

  /** No row before the one found satisfies `f`, and none is found only when no row does. */
  lemma {:induction false} FirstWhereSpec<R>(t: seq<Row<R>>, f: Row<R> -> bool)
    ensures FirstWhere(t, f).Some? ==> forall j :: 0 <= j < FirstWhere(t, f).value ==> !f(t[j])
    ensures FirstWhere(t, f).None? <==> forall j :: 0 <= j < |t| ==> !f(t[j])
  {
    if t != [] && !f(t[0]) {
      FirstWhereSpec(t[1..], f);
      assert forall j :: 1 <= j < |t| ==> t[j] == t[1..][j - 1];
    }
  }

  /** In a table whose rows satisfying `f` all share one key, the first of them is that row. */
  lemma FirstWhereOnly<R>(t: seq<Row<R>>, f: Row<R> -> bool, x: Row<R>)
    requires Ascending(t) && x in t && f(x)
    requires forall y :: y in t && f(y) ==> y.id == x.id
    ensures FirstWhere(t, f).Some? && t[FirstWhere(t, f).value] == x
  {
    FirstWhereSpec(t, f);
    var i :| 0 <= i < |t| && t[i] == x;
    var k := FirstWhere(t, f).value;
    assert t[k].id == x.id;
    assert k == i;
  }

  /** `add` of several records in order, then `commit`. */
  function InsertAll<R>(t: seq<Row<R>>, recs: seq<R>): (r: seq<Row<R>>)
    requires Ascending(t)
    ensures Ascending(r) && |r| == |t| + |recs|
    decreases |recs|
  {
    if recs == [] then t else InsertAll(Insert(t, recs[0]), recs[1..])
  }

  /** The rows added by `InsertAll` follow the old ones, with consecutive keys, in the order given. */
  lemma {:induction false} InsertAllRows<R>(t: seq<Row<R>>, recs: seq<R>)
    requires Ascending(t)
    ensures InsertAll(t, recs)[..|t|] == t
    ensures forall i :: 0 <= i < |recs| ==> InsertAll(t, recs)[|t| + i] == Row(NextId(t) + i, recs[i])
    decreases |recs|
  {
    if recs != [] {
      var t1 := Insert(t, recs[0]);
      InsertAllRows(t1, recs[1..]);
      var r := InsertAll(t, recs);
      assert r == InsertAll(t1, recs[1..]);
      assert r[..|t|] == r[..|t1|][..|t|];
      assert NextId(t1) == NextId(t) + 1;
      forall i | 0 <= i < |recs| ensures r[|t| + i] == Row(NextId(t) + i, recs[i]) {
        if i == 0 {
          assert r[|t|] == r[..|t1|][|t|];
        } else {
          assert r[|t1| + (i - 1)] == Row(NextId(t1) + (i - 1), recs[1..][i - 1]);
        }
      }
    }
  }

  /** The `for` loop that adds each record of `recs`. */
  method InsertEach<R>(t: seq<Row<R>>, recs: seq<R>) returns (out: seq<Row<R>>)
    requires Ascending(t)
    ensures out == InsertAll(t, recs)
  {
    out := t;
    var i := 0;
    while i < |recs|
      invariant 0 <= i <= |recs| && Ascending(out)
      invariant InsertAll(out, recs[i..]) == InsertAll(t, recs)
    {
      assert recs[i..][0] == recs[i] && recs[i..][1..] == recs[i + 1..];
      out := Insert(out, recs[i]);
      i := i + 1;
    }
  }

  // ---------------------------------------------------------------------------
  // `for key, value in update_data.items(): setattr(row, key, value)`

  /** The record after applying `items` in order with `set`. */
  function ApplyAll<R, A>(r: R, items: seq<A>, apply: (R, A) -> R): R
    decreases |items|
  {
    if items == [] then r else ApplyAll(apply(r, items[0]), items[1..], apply)
  }

  lemma {:induction false} ApplyAllAppend<R, A>(r: R, a: seq<A>, b: seq<A>, apply: (R, A) -> R)
    ensures ApplyAll(r, a + b, apply) == ApplyAll(ApplyAll(r, a, apply), b, apply)
    decreases |a|
  {
    if a == [] {
      assert a + b == b;
    } else {
      assert (a + b)[0] == a[0] && (a + b)[1..] == a[1..] + b;
      ApplyAllAppend(apply(r, a[0]), a[1..], b, apply);
    }
  }

  /** Applying at most one item `o` in front of `rest`. */
  lemma ApplyFront<R, A>(m: R, o: seq<A>, rest: seq<A>, apply: (R, A) -> R, next: R)
    requires |o| <= 1
    requires next == if o == [] then m else apply(m, o[0])
    ensures ApplyAll(m, o + rest, apply) == ApplyAll(next, rest, apply)
  {
    if o == [] {
      assert o + rest == rest;
    } else {
      assert (o + rest)[0] == o[0] && (o + rest)[1..] == rest;
    }
  }

  method SetAttrLoop<R, A>(r: R, items: seq<A>, apply: (R, A) -> R) returns (out: R)
    ensures out == ApplyAll(r, items, apply)
  {
    out := r;
    var i := 0;
    while i < |items|
      invariant 0 <= i <= |items|
      invariant ApplyAll(out, items[i..], apply) == ApplyAll(r, items, apply)
    {
      assert items[i..][0] == items[i] && items[i..][1..] == items[i + 1..];
      out := apply(out, items[i]);
      i := i + 1;
    }
  }
}
