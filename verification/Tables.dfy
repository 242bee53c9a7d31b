/** Database tables: rows in insertion order, primary keys and version-guarded updates. */
module Tables {
  import opened Results
  import opened Sums

  datatype Row<+T> = Row(id: Id, version: nat, data: T)

  type Table<T> = seq<Row<T>>

  ghost predicate DistinctIds<T>(t: seq<Row<T>>) {
    forall i, j :: 0 <= i < j < |t| ==> t[i].id != t[j].id
  }

  predicate HasId<T>(t: seq<Row<T>>, id: Id) {
    exists i :: 0 <= i < |t| && t[i].id == id
  }

  // The position of the row with a given id, or |t|.
  function Find<T>(t: seq<Row<T>>, id: Id): (i: nat)
    ensures i <= |t|
    ensures i < |t| ==> t[i].id == id
    ensures i == |t| <==> !HasId(t, id)
  {
    if t == [] then 0
    else if t[0].id == id then 0
    else
      var i := Find(t[1..], id);
      assert HasId(t, id) <==> HasId(t[1..], id) by {
        if HasId(t, id) {
          var k :| 0 <= k < |t| && t[k].id == id;
          assert t[1..][k-1].id == id;
        }
      }
      i + 1
  }

  // INSERT with a PRIMARY KEY on id.
  function Insert<T>(t: seq<Row<T>>, row: Row<T>): Result<seq<Row<T>>> {
    if HasId(t, row.id) then Err(DuplicateKey) else Ok(t + [row])
  }

  function InsertAll<T>(t: seq<Row<T>>, rows: seq<Row<T>>): Result<seq<Row<T>>> {
    if rows == [] then Ok(t)
    else
      var before :- InsertAll(t, rows[..|rows|-1]);
      Insert(before, rows[|rows|-1])
  }

  // UPDATE ... WHERE id = row.id AND version < row.version; no row changed is an error.
  function Update<T>(t: seq<Row<T>>, row: Row<T>): Result<seq<Row<T>>> {
    var i := Find(t, row.id);
    if i < |t| && t[i].version < row.version then Ok(t[i := row]) else Err(ConcurrentUpdate)
  }

  function UpdateAll<T>(t: seq<Row<T>>, rows: seq<Row<T>>): Result<seq<Row<T>>> {
    if rows == [] then Ok(t)
    else
      var before :- UpdateAll(t, rows[..|rows|-1]);
      Update(before, rows[|rows|-1])
  }

  // What a batch of updates means: the new row where there is one, the old row elsewhere.
  function Patched<T>(row: Row<T>, news: seq<Row<T>>): Row<T> {
    var i := Find(news, row.id);
    if i < |news| then news[i] else row
  }

  function Patch<T>(t: seq<Row<T>>, news: seq<Row<T>>): (r: seq<Row<T>>)
    ensures |r| == |t|
    ensures forall k :: 0 <= k < |t| ==> r[k] == Patched(t[k], news)
  {
    seq(|t|, k requires 0 <= k < |t| => Patched(t[k], news))
  }

  lemma FindAt<T>(t: seq<Row<T>>, k: nat)
    requires DistinctIds(t) && k < |t|
    ensures Find(t, t[k].id) == k
  {
    assert HasId(t, t[k].id);
  }

  // The new rows replace old rows of the same ids, each with a higher version.
  ghost predicate Replaces<T>(t: seq<Row<T>>, olds: seq<Row<T>>, news: seq<Row<T>>) {
    && DistinctIds(t) && DistinctIds(news) && |olds| == |news|
    && forall i :: 0 <= i < |news| ==> olds[i] in t && news[i].id == olds[i].id && olds[i].version < news[i].version
  }

  lemma ReplacesPrefix<T>(t: seq<Row<T>>, olds: seq<Row<T>>, news: seq<Row<T>>, n: nat)
    requires Replaces(t, olds, news) && n <= |news|
    ensures Replaces(t, olds[..n], news[..n])
  {
  }

  lemma PatchNothing<T>(t: seq<Row<T>>)
    ensures Patch(t, []) == t
  {
    forall k | 0 <= k < |t|
      ensures Patched(t[k], []) == t[k]
    {
    }
  }

  // Patching by one row more changes one position more.
  lemma PatchOneMore<T>(t: seq<Row<T>>, news: seq<Row<T>>, k: nat)
    requires DistinctIds(t) && DistinctIds(news) && news != [] && k < |t| && t[k].id == news[|news|-1].id
    ensures Patch(t, news) == Patch(t, news[..|news|-1])[k := news[|news|-1]]
    ensures Patch(t, news[..|news|-1])[k] == t[k]
  {
    var n := |news| - 1;
    var prev := news[..n];
    assert !HasId(prev, t[k].id);
    forall m | 0 <= m < |t|
      ensures Patched(t[m], news) == if m == k then news[n] else Patched(t[m], prev)
    {
      if m == k {
        FindAt(news, n);
      } else if HasId(prev, t[m].id) {
        FindAt(news, Find(prev, t[m].id));
      } else {
        assert !HasId(news, t[m].id);
      }
    }
  }

  lemma PatchKeepsIds<T>(t: seq<Row<T>>, olds: seq<Row<T>>, news: seq<Row<T>>)
    ensures forall k :: 0 <= k < |t| ==> Patch(t, news)[k].id == t[k].id
    ensures DistinctIds(t) ==> DistinctIds(Patch(t, news))
  {
  }

  // A batch of guarded updates on freshly read rows succeeds and is a patch.
  lemma {:induction false} UpdateAllIsPatch<T>(t: seq<Row<T>>, olds: seq<Row<T>>, news: seq<Row<T>>)
    requires Replaces(t, olds, news)
    ensures UpdateAll(t, news) == Ok(Patch(t, news))
  {
    if news == [] {
      PatchNothing(t);
    } else {
      var n := |news| - 1;
      ReplacesPrefix(t, olds, news, n);
      UpdateAllIsPatch(t, olds[..n], news[..n]);
      var k :| 0 <= k < |t| && t[k] == olds[n];
      PatchOneMore(t, news, k);
      var before := Patch(t, news[..n]);
      PatchKeepsIds(t, olds[..n], news[..n]);
      FindAt(before, k);
    }
  }

  // ... and moves any sum over the table by what the new rows weigh more than the old.
  lemma {:induction false} PatchSum<T>(t: seq<Row<T>>, olds: seq<Row<T>>, news: seq<Row<T>>, w: Row<T> -> int)
    requires Replaces(t, olds, news)
    ensures Sum(Patch(t, news), w) == Sum(t, w) + Sum(news, w) - Sum(olds, w)
  {
    if news == [] {
      PatchNothing(t);
    } else {
      var n := |news| - 1;
      ReplacesPrefix(t, olds, news, n);
      PatchSum(t, olds[..n], news[..n], w);
      var k :| 0 <= k < |t| && t[k] == olds[n];
      PatchOneMore(t, news, k);
      SumUpdate(Patch(t, news[..n]), k, news[n], w);
    }
  }

  lemma PatchHit<T>(t: seq<Row<T>>, olds: seq<Row<T>>, news: seq<Row<T>>, k: nat)
    requires Replaces(t, olds, news) && k < |t|
    ensures (exists i :: 0 <= i < |news| && olds[i] == t[k] && Patch(t, news)[k] == news[i])
         || (t[k] !in olds && Patch(t, news)[k] == t[k])
  {
    var i := Find(news, t[k].id);
    if i < |news| {
      var m :| 0 <= m < |t| && t[m] == olds[i];
      assert m == k;
    } else {
      assert forall j :: 0 <= j < |olds| ==> news[j].id == olds[j].id;
    }
  }

  // Inserting rows appends them and keeps the key unique.
  lemma {:induction false} InsertAllAppends<T>(t: seq<Row<T>>, rows: seq<Row<T>>)
    ensures InsertAll(t, rows).Ok? ==> InsertAll(t, rows).value == t + rows
    ensures InsertAll(t, rows).Ok? && DistinctIds(t) ==> DistinctIds(t + rows)
  {
    if rows == [] {
      assert t + rows == t;
    } else {
      var n := |rows| - 1;
      InsertAllAppends(t, rows[..n]);
      assert t + rows == (t + rows[..n]) + [rows[n]];
    }
  }

  lemma InsertOne<T>(t: seq<Row<T>>, row: Row<T>)
    ensures InsertAll(t, [row]) == Insert(t, row)
  {
    assert [row][..0] == [];
  }

  lemma InsertAppends<T>(t: seq<Row<T>>, row: Row<T>)
    ensures Insert(t, row).Ok? ==> Insert(t, row).value == t + [row]
    ensures Insert(t, row).Ok? && DistinctIds(t) ==> DistinctIds(t + [row])
  {
  }

  // The rows a WHERE clause selects, in table order.
  function Where<T>(t: seq<Row<T>>, q: Row<T> -> bool): seq<Row<T>> {
    if t == [] then []
    else
      var rest := Where(t[..|t|-1], q);
      if q(t[|t|-1]) then rest + [t[|t|-1]] else rest
  }

  lemma {:induction false} WhereAppend<T>(a: seq<Row<T>>, b: seq<Row<T>>, q: Row<T> -> bool)
    ensures Where(a + b, q) == Where(a, q) + Where(b, q)
  {
    if b == [] {
      assert a + b == a;
    } else {
      var n := |b| - 1;
      assert (a + b)[..|a + b|-1] == a + b[..n];
      WhereAppend(a, b[..n], q);
    }
  }

  lemma DistinctPrefix<T>(t: seq<Row<T>>, n: nat)
    requires DistinctIds(t) && n < |t|
    ensures DistinctIds(t[..n])
    ensures forall r :: r in t[..n] ==> r.id != t[n].id
  {
  }

  // A WHERE clause returns exactly the rows that satisfy it.
  lemma {:induction false} WhereMember<T>(t: seq<Row<T>>, q: Row<T> -> bool, r: Row<T>)
    ensures r in Where(t, q) <==> r in t && q(r)
  {
    if t != [] {
      var n := |t| - 1;
      WhereMember(t[..n], q, r);
      assert t == t[..n] + [t[n]];
    }
  }

  lemma {:induction false} WhereDistinct<T>(t: seq<Row<T>>, q: Row<T> -> bool)
    requires DistinctIds(t)
    ensures DistinctIds(Where(t, q))
  {
    if t != [] {
      var n := |t| - 1;
      var rest := Where(t[..n], q);
      DistinctPrefix(t, n);
      WhereDistinct(t[..n], q);
      forall i | 0 <= i < |rest|
        ensures rest[i].id != t[n].id
      {
        WhereMember(t[..n], q, rest[i]);
      }
    }
  }

  lemma {:induction false} WhereNone<T>(t: seq<Row<T>>, q: Row<T> -> bool)
    requires forall r :: r in t ==> !q(r)
    ensures Where(t, q) == []
  {
    if t != [] {
      WhereNone(t[..|t|-1], q);
    }
  }

  lemma {:induction false} WhereAll<T>(t: seq<Row<T>>, q: Row<T> -> bool)
    requires forall r :: r in t ==> q(r)
    ensures Where(t, q) == t
  {
    if t != [] {
      WhereAll(t[..|t|-1], q);
    }
  }

  lemma {:induction false} WhereSum<T>(t: seq<Row<T>>, q: Row<T> -> bool, v: Row<T> -> int, w: Row<T> -> int)
    requires forall r :: r in t ==> w(r) == if q(r) then v(r) else 0
    ensures Sum(Where(t, q), v) == Sum(t, w)
  {
    if t != [] {
      WhereSum(t[..|t|-1], q, v, w);
      if q(t[|t|-1]) {
        SumPush(Where(t[..|t|-1], q), t[|t|-1], v);
      }
    }
  }
}
