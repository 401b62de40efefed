/** The two query shapes the handlers rely on: a `.single()` lookup, which
    yields a row only when exactly one row matches (zero rows and several rows
    both give an error and `data === null`), and `.order(column, { ascending:
    false })`. */
module Tables {
  import Json
  import Http

  /** The message PostgREST gives when `.single()` finds no row or several. */
  const NotSingle := "Cannot coerce the result to a single JSON object"

  /** The outcome of a `.single()` query. */
  datatype Lookup = NoRow | One(index: nat) | Many

  /** `.filter(p).single()` over a table held as a sequence of rows. */
  function Single<T>(rows: seq<T>, p: T -> bool): (r: Lookup)
    ensures r.One? ==> r.index < |rows| && p(rows[r.index])
    ensures r.One? ==> forall j :: 0 <= j < |rows| && j != r.index ==> !p(rows[j])
    ensures r.NoRow? <==> forall j :: 0 <= j < |rows| ==> !p(rows[j])
    ensures r.Many? ==> exists i, j :: 0 <= i < j < |rows| && p(rows[i]) && p(rows[j])
    decreases |rows|
  {
    if |rows| == 0 then NoRow
    else
      var rest := Single(rows[1..], p);
      if p(rows[0]) then
        if rest.NoRow? then One(0)
        else
          ghost var k := if rest.One? then rest.index
                         else var i, j :| 0 <= i < j < |rows[1..]| && p(rows[1..][i]) && p(rows[1..][j]); i;
          assert p(rows[0]) && p(rows[k + 1]);
          Many
      else
        match rest
        case NoRow => NoRow
        case One(i) => One(i + 1)
        case Many =>
          ghost var i, j :| 0 <= i < j < |rows[1..]| && p(rows[1..][i]) && p(rows[1..][j]);
          assert p(rows[i + 1]) && p(rows[j + 1]);
          Many
  }

  /** `.select('*').eq('id', id).single()` behind a GET of one row: the row
      when exactly one has that id, otherwise 404 with the `.single()` error. */
  function GetById(rows: seq<Json.Row>, id: string): (r: Http.Reply<Json.Row>)
    ensures r.Ok? <==> Single(rows, Json.HasId(id)).One?
    ensures r.Ok? ==> r.status == 200 && r.body in rows && Json.FieldIs(r.body, "id", Json.Str(id))
    ensures r.Fail? ==> r == Http.Error(404, NotSingle)
  {
    var found := Single(rows, Json.HasId(id));
    if found.One? then Http.Ok(200, rows[found.index]) else Http.Error(404, NotSingle)
  }

  /** `.filter(p)`: the rows satisfying `p`, in their table order. Each row
      that passes occurs as often as in the table, and no other row occurs. */
  function Filter<T(!new)>(rows: seq<T>, p: T -> bool): (r: seq<T>)
    ensures forall i :: 0 <= i < |r| ==> p(r[i])
    ensures forall x :: multiset(r)[x] == if p(x) then multiset(rows)[x] else 0
  {
    if rows == [] then []
    else
      var h, tail := rows[0], rows[1..];
      var rest := Filter(tail, p);
      assert rows == [h] + tail;
      assert multiset(rows) == multiset{h} + multiset(tail);
      if p(h) then [h] + rest else rest
  }

  /** Every row's key is at least the key of every row after it. */
  ghost predicate SortedDesc<T>(s: seq<T>, key: T -> real) {
    forall i, j :: 0 <= i < j < |s| ==> key(s[i]) >= key(s[j])
  }

  /** Insert `x` into a descending sequence before the first smaller key. */
  function InsertDesc<T>(x: T, s: seq<T>, key: T -> real): (r: seq<T>)
    requires SortedDesc(s, key)
    ensures SortedDesc(r, key)
    ensures multiset(r) == multiset(s) + multiset{x}
    ensures |r| == |s| + 1
  {
    if s == [] then [x]
    else if key(s[0]) <= key(x) then
      assert forall i :: 0 <= i < |s| ==> key(s[i]) <= key(s[0]);
      PrependSorted(x, s, key);
      [x] + s
    else
      var rest := InsertDesc(x, s[1..], key);
      assert s == [s[0]] + s[1..];
      var atMostHead := (y: T) => key(y) <= key(s[0]);
      assert forall i :: 0 <= i < |s[1..] + [x]| ==> atMostHead((s[1..] + [x])[i]);
      SameRowsSameTest(rest, s[1..] + [x], atMostHead);
      PrependSorted(s[0], rest, key);
      assert multiset([s[0]] + rest) == multiset{s[0]} + multiset(rest);
      [s[0]] + rest
  }

  /** A head whose key bounds every key of a descending tail keeps it descending. */
  lemma PrependSorted<T>(h: T, rest: seq<T>, key: T -> real)
    requires SortedDesc(rest, key)
    requires forall i :: 0 <= i < |rest| ==> key(rest[i]) <= key(h)
    ensures SortedDesc([h] + rest, key)
  {
    var r := [h] + rest;
    forall i, j | 0 <= i < j < |r|
      ensures key(r[i]) >= key(r[j])
    {
      assert r[j] == rest[j - 1];
      if i > 0 {
        assert r[i] == rest[i - 1];
      }
    }
  }

  /** `.order(key, { ascending: false })`: the same rows, largest key first.
      Rows with equal keys may come in any order, as in the database. */
  function SortDesc<T>(s: seq<T>, key: T -> real): (r: seq<T>)
    ensures SortedDesc(r, key)
    ensures multiset(r) == multiset(s)
    ensures |r| == |s|
  {
    if s == [] then []
    else
      assert s == [s[0]] + s[1..];
      InsertDesc(s[0], SortDesc(s[1..], key), key)
  }

  /** Splitting a table by a test and its negation loses and adds no row. */
  lemma {:induction false} FilterPartition<T(!new)>(rows: seq<T>, p: T -> bool, q: T -> bool)
    requires forall x :: p(x) <==> !q(x)
    ensures multiset(Filter(rows, p)) + multiset(Filter(rows, q)) == multiset(rows)
  {
    var both := multiset(Filter(rows, p)) + multiset(Filter(rows, q));
    forall x
      ensures both[x] == multiset(rows)[x]
    {
      assert p(x) <==> !q(x);
    }
  }

  /** `.update(f).filter(p)`: every matching row is rewritten, the others are
      kept, and no row is added or removed. */
  function UpdateWhere<T>(rows: seq<T>, p: T -> bool, f: T -> T): (r: seq<T>)
    ensures |r| == |rows|
    ensures forall i :: 0 <= i < |rows| ==> r[i] == if p(rows[i]) then f(rows[i]) else rows[i]
  {
    if rows == [] then []
    else [if p(rows[0]) then f(rows[0]) else rows[0]] + UpdateWhere(rows[1..], p, f)
  }

  /** `.delete().filter(p)`: the rows that do not match, in their order.
      Each row that does not match is kept as often as the table holds it,
      no matching row is kept, and the kept rows appear in table order; these
      together leave exactly one possible result. */
  function DeleteWhere<T(==,!new)>(rows: seq<T>, p: T -> bool): (r: seq<T>)
    ensures forall i :: 0 <= i < |r| ==> !p(r[i])
    ensures forall x :: multiset(r)[x] == if p(x) then 0 else multiset(rows)[x]
    ensures Json.IsSubsequence(r, rows)
  {
    if rows == [] then []
    else
      var h, tail := rows[0], rows[1..];
      var rest := DeleteWhere(tail, p);
      assert rows == [h] + tail;
      assert multiset(rows) == multiset{h} + multiset(tail);
      if p(h) then
        assert rest != [] ==> rest[0] != h;
        rest
      else [h] + rest
  }

  /** Rows that all pass a test still all pass it after being reordered or
      thinned out. */
  lemma SameRowsSameTest<T>(r: seq<T>, s: seq<T>, p: T -> bool)
    requires multiset(r) <= multiset(s)
    requires forall i :: 0 <= i < |s| ==> p(s[i])
    ensures forall i :: 0 <= i < |r| ==> p(r[i])
  {
    forall i | 0 <= i < |r|
      ensures p(r[i])
    {
      assert r[i] in multiset(s);
    }
  }
}
