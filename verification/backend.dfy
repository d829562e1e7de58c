/**
 * What a request sees of the hosted database: a table is either a sequence
 * of rows or an error that every query on it returns. The query builder's
 * `.eq(…)` filter and `.single()` are stated here over in-memory rows.
 */
module Backend {
  import opened Wrappers

  /** One table as seen by one request. */
  datatype Table<R> = Rows(rows: seq<R>) | Failing(message: string)

  /**
   * The rows satisfying `p`, in table order: each row occurs in the result
   * exactly as often as in the table when it matches, and not at all otherwise.
   */
  function Where<R(==,!new)>(rows: seq<R>, p: R -> bool): (r: seq<R>)
    ensures forall x :: multiset(r)[x] == if p(x) then multiset(rows)[x] else 0
    ensures forall i :: 0 <= i < |r| ==> p(r[i]) && r[i] in rows
    ensures |r| <= |rows|
  {
    if |rows| == 0 then []
    else
      assert rows == [rows[0]] + rows[1..];
      if p(rows[0]) then [rows[0]] + Where(rows[1..], p)
      else Where(rows[1..], p)
  }

  /** When exactly the row at `i` matches, filtering leaves that row alone. */
  lemma {:induction false} WhereSingleMatch<R(!new)>(rows: seq<R>, p: R -> bool, i: nat)
    requires i < |rows| && p(rows[i])
    requires forall j :: 0 <= j < |rows| && j != i ==> !p(rows[j])
    ensures Where(rows, p) == [rows[i]]
  {
    if i == 0 {
      WhereNoMatch(rows[1..], p);
    } else {
      WhereSingleMatch(rows[1..], p, i - 1);
    }
  }

  /** When no row matches, filtering leaves nothing. */
  lemma {:induction false} WhereNoMatch<R(!new)>(rows: seq<R>, p: R -> bool)
    requires forall j :: 0 <= j < |rows| ==> !p(rows[j])
    ensures Where(rows, p) == []
  {
    if |rows| > 0 {
      WhereNoMatch(rows[1..], p);
    }
  }

  /**
   * `.single()`: the one matching row, or an error (here `None`) when no row
   * or more than one row matches.
   */
  function Single<R(==,!new)>(rows: seq<R>, p: R -> bool): (r: Option<R>)
    ensures r.Some? <==> |Where(rows, p)| == 1
    ensures r.Some? ==> r.value in rows && p(r.value)
    ensures r.Some? ==> forall x :: x in rows && p(x) ==> x == r.value
  {
    var matches := Where(rows, p);
    if |matches| == 1 then
      assert forall x :: x in rows && p(x) ==> multiset(matches)[x] > 0;
      Some(matches[0])
    else None
  }

  /** The image of a sequence under `f`, element by element. */
  function MapSeq<A, B>(s: seq<A>, f: A -> B): (r: seq<B>)
    ensures |r| == |s|
    ensures forall i :: 0 <= i < |s| ==> r[i] == f(s[i])
  {
    seq(|s|, i requires 0 <= i < |s| => f(s[i]))
  }

  /** Mapping distributes over concatenation. */
  lemma MapSeqAppend<A, B>(u: seq<A>, v: seq<A>, f: A -> B)
    ensures MapSeq(u + v, f) == MapSeq(u, f) + MapSeq(v, f)
  {
    assert MapSeq(u + v, f) == MapSeq(u, f) + MapSeq(v, f);
  }

  /** Two permutations of each other have images that are permutations of each other. */
  lemma {:induction false} MapSeqPermutation<A, B>(a: seq<A>, b: seq<A>, f: A -> B)
    requires multiset(a) == multiset(b)
    ensures multiset(MapSeq(a, f)) == multiset(MapSeq(b, f))
    decreases |a|
  {
    if |a| == 0 {
      assert |b| == |multiset(b)| == 0;
    } else {
      var x := a[0];
      assert x in multiset(b);
      var k :| 0 <= k < |b| && b[k] == x;
      var rest := b[..k] + b[k + 1..];
      assert b == b[..k] + [x] + b[k + 1..];
      assert a == [x] + a[1..];
      assert multiset(b) == multiset(b[..k]) + multiset{x} + multiset(b[k + 1..]);
      assert multiset(a) == multiset{x} + multiset(a[1..]);
      assert multiset(rest) == multiset(b[..k]) + multiset(b[k + 1..]);
      assert multiset(a[1..]) == multiset(a) - multiset{x};
      assert multiset(rest) == multiset(b) - multiset{x};
      MapSeqPermutation(a[1..], rest, f);
      MapSeqAppend([x], a[1..], f);
      MapSeqAppend(b[..k], b[k + 1..], f);
      MapSeqAppend(b[..k] + [x], b[k + 1..], f);
      MapSeqAppend(b[..k], [x], f);
    }
  }

  /** Mapping twice is mapping by the composition. */
  lemma MapSeqCompose<A, B, C>(s: seq<A>, f: A -> B, g: B -> C, h: A -> C)
    requires forall x :: h(x) == g(f(x))
    ensures MapSeq(MapSeq(s, f), g) == MapSeq(s, h)
  {
  }
}
