/** Generic operations on tables held as sequences of rows: the WHERE, ORDER BY,
    LIMIT, LIKE and UPDATE building blocks the queries are written with. */
module Tables {
  import opened Wrappers

  // ---------------------------------------------------------------------------
  // WHERE: keep the rows a predicate accepts, in table order
  // ---------------------------------------------------------------------------

  function Filter<T(!new)>(s: seq<T>, p: T -> bool): (r: seq<T>)
    ensures |r| <= |s|
    ensures forall x :: x in r <==> x in s && p(x)
    ensures forall x :: multiset(r)[x] == if p(x) then multiset(s)[x] else 0
  {
    if s == [] then []
    else
      assert s == [s[0]] + s[1..];
      (if p(s[0]) then [s[0]] else []) + Filter(s[1..], p)
  }

  /** Filtering a concatenation filters each part. */
  lemma {:induction false} FilterAppend<T(!new)>(s: seq<T>, t: seq<T>, p: T -> bool)
    ensures Filter(s + t, p) == Filter(s, p) + Filter(t, p)
  {
    if s == [] {
      assert s + t == t;
    } else {
      var h := if p(s[0]) then [s[0]] else [];
      assert (s + t)[0] == s[0] && (s + t)[1..] == s[1..] + t;
      calc {
        Filter(s + t, p);
        h + Filter(s[1..] + t, p);
        { FilterAppend(s[1..], t, p); }
        h + (Filter(s[1..], p) + Filter(t, p));
        (h + Filter(s[1..], p)) + Filter(t, p);
      }
    }
  }

  /** A filter that accepts no row keeps none. */
  lemma FilterNone<T(!new)>(s: seq<T>, p: T -> bool)
    requires forall x :: x in s ==> !p(x)
    ensures Filter(s, p) == []
  {
  }

  /** A filter whose predicate implies another's keeps no more of any row. */
  lemma FilterNarrows<T(!new)>(s: seq<T>, p: T -> bool, q: T -> bool)
    requires forall x :: q(x) ==> p(x)
    ensures multiset(Filter(s, q)) <= multiset(Filter(s, p))
  {
  }

  // ---------------------------------------------------------------------------
  // First match (what `result[0] || null` returns after a WHERE)
  // ---------------------------------------------------------------------------

  function First<T(!new)>(s: seq<T>, p: T -> bool): (r: Option<T>)
    ensures r.None? <==> forall x :: x in s ==> !p(x)
    ensures r.Some? ==> r.value in s && p(r.value)
    ensures r.Some? ==> exists i :: 0 <= i < |s| && s[i] == r.value && forall j :: 0 <= j < i ==> !p(s[j])
  {
    if s == [] then None
    else if p(s[0]) then Some(s[0])
    else
      var r := First(s[1..], p);
      assert r.Some? ==> exists i :: 0 <= i < |s| && s[i] == r.value && forall j :: 0 <= j < i ==> !p(s[j]) by {
        if r.Some? {
          var i :| 0 <= i < |s[1..]| && s[1..][i] == r.value && forall j :: 0 <= j < i ==> !p(s[1..][j]);
          assert s[i + 1] == r.value;
          assert forall j :: 0 <= j < i + 1 ==> !p(s[j]) by {
            forall j | 0 <= j < i + 1 ensures !p(s[j]) {
              if j > 0 { assert s[j] == s[1..][j - 1]; }
            }
          }
        }
      }
      r
  }

  // ---------------------------------------------------------------------------
  // ORDER BY: a stable insertion sort on an integer key (ascending; a
  // descending order is the ascending order of the negated key)
  // ---------------------------------------------------------------------------

  ghost predicate SortedBy<T>(s: seq<T>, key: T -> int) {
    forall i, j :: 0 <= i < j < |s| ==> key(s[i]) <= key(s[j])
  }

  function InsertBy<T>(x: T, s: seq<T>, key: T -> int): (r: seq<T>)
    requires SortedBy(s, key)
    ensures SortedBy(r, key)
    ensures multiset(r) == multiset(s) + multiset{x}
    decreases |s|, 1
  {
    if s == [] then [x]
    else if key(x) <= key(s[0]) then [x] + s
    else
      var rest := InsertBy(x, s[1..], key);
      assert s == [s[0]] + s[1..];
      InsertAboveHead(x, s, key);
      [s[0]] + rest
  }

  /** Inserting a row with a larger key after the head keeps the head the smallest. */
  lemma InsertAboveHead<T>(x: T, s: seq<T>, key: T -> int)
    requires SortedBy(s, key) && s != [] && key(s[0]) < key(x)
    ensures forall y :: y in InsertBy(x, s[1..], key) ==> key(s[0]) <= key(y)
    decreases |s|, 0
  {
    var rest := InsertBy(x, s[1..], key);
    forall y | y in rest ensures key(s[0]) <= key(y) {
      assert y in multiset(rest);
      if y != x {
        assert y in multiset(s[1..]);
        var j :| 0 <= j < |s[1..]| && s[1..][j] == y;
        assert s[j + 1] == y;
      }
    }
  }

  function SortBy<T>(s: seq<T>, key: T -> int): (r: seq<T>)
    ensures SortedBy(r, key)
    ensures multiset(r) == multiset(s)
  {
    if s == [] then []
    else
      assert s == [s[0]] + s[1..];
      InsertBy(s[0], SortBy(s[1..], key), key)
  }

  // ---------------------------------------------------------------------------
  // LIMIT
  // ---------------------------------------------------------------------------

  function Take<T>(s: seq<T>, limit: nat): (r: seq<T>)
    ensures |r| == if |s| <= limit then |s| else limit
    ensures r <= s
  {
    if |s| <= limit then s else s[..limit]
  }

  /** The first `limit` rows of a sorted table are `limit` rows of the table (or all
      of them), each at most as often as the table holds it, still sorted. */
  lemma TakeSortedWithin<T>(s: seq<T>, key: T -> int, limit: nat)
    ensures |Take(SortBy(s, key), limit)| == if |s| <= limit then |s| else limit
    ensures multiset(Take(SortBy(s, key), limit)) <= multiset(s)
    ensures forall x :: x in Take(SortBy(s, key), limit) ==> x in s
    ensures SortedBy(Take(SortBy(s, key), limit), key)
  {
    var t := SortBy(s, key);
    var r := Take(t, limit);
    forall i, j | 0 <= i < j < |r| ensures key(r[i]) <= key(r[j]) {
      assert r[i] == t[i] && r[j] == t[j];
    }
    assert |t| == |multiset(t)| == |s|;
    assert t == r + t[|r|..];
    assert multiset(t) == multiset(r) + multiset(t[|r|..]);
    forall x | x in r ensures x in s {
      assert x in multiset(r);
      assert x in multiset(s);
    }
  }

  /** The first `limit` rows of a sorted table hold the smallest keys: a row left
      out has a key no smaller than any row kept. */
  lemma TakeSortedKeepsSmallest<T>(s: seq<T>, key: T -> int, limit: nat, x: T, y: T)
    requires x in s && x !in Take(SortBy(s, key), limit) && y in Take(SortBy(s, key), limit)
    ensures key(y) <= key(x)
  {
    var t := SortBy(s, key);
    var r := Take(t, limit);
    assert x in multiset(t);
    var i :| 0 <= i < |t| && t[i] == x;
    var j :| 0 <= j < |r| && r[j] == y;
    assert r == t[..|r|];
    assert t[j] == y;
  }

  // ---------------------------------------------------------------------------
  // LIKE '%needle%' on a present string, taken as plain substring search
  // ---------------------------------------------------------------------------

  predicate Contains(hay: string, needle: string)
    decreases |hay|
  {
    needle <= hay || (hay != [] && Contains(hay[1..], needle))
  }

  /** A needle found at offset `k` is contained. */
  lemma {:induction false} ContainsFromOffset(hay: string, needle: string, k: nat)
    requires k <= |hay| && needle <= hay[k..]
    ensures Contains(hay, needle)
    decreases k
  {
    if k == 0 {
      assert hay[k..] == hay;
    } else {
      assert hay[1..][k - 1..] == hay[k..];
      ContainsFromOffset(hay[1..], needle, k - 1);
    }
  }

  /** A contained needle occurs at some offset. */
  lemma {:induction false} OffsetOfContained(hay: string, needle: string) returns (k: nat)
    requires Contains(hay, needle)
    ensures k <= |hay| && needle <= hay[k..]
    decreases |hay|
  {
    if needle <= hay {
      k := 0;
      assert hay[k..] == hay;
    } else {
      var k' := OffsetOfContained(hay[1..], needle);
      k := k' + 1;
      assert hay[1..][k'..] == hay[k..];
    }
  }

  /** `Contains` holds exactly when the needle occurs at some offset. */
  lemma ContainsAt(hay: string, needle: string)
    ensures Contains(hay, needle) <==> exists k :: 0 <= k <= |hay| && needle <= hay[k..]
  {
    if Contains(hay, needle) {
      var k := OffsetOfContained(hay, needle);
    }
    if exists k :: 0 <= k <= |hay| && needle <= hay[k..] {
      var k :| 0 <= k <= |hay| && needle <= hay[k..];
      ContainsFromOffset(hay, needle, k);
    }
  }

  // ---------------------------------------------------------------------------
  // INNER JOIN: each row of the driving table contributes the rows it joins to,
  // in the driving table's order
  // ---------------------------------------------------------------------------

  function FlatMap<A, B>(s: seq<A>, f: A -> seq<B>): seq<B> {
    if s == [] then [] else f(s[0]) + FlatMap(s[1..], f)
  }

  /** Joining a concatenation joins each part. */
  lemma {:induction false} FlatMapAppend<A, B>(s: seq<A>, t: seq<A>, f: A -> seq<B>)
    ensures FlatMap(s + t, f) == FlatMap(s, f) + FlatMap(t, f)
  {
    if s == [] {
      assert s + t == t;
    } else {
      assert (s + t)[0] == s[0] && (s + t)[1..] == s[1..] + t;
      FlatMapAppend(s[1..], t, f);
    }
  }

  /** A row is in the join exactly when some driving row joins to it. */
  lemma {:induction false} FlatMapMembers<A(!new), B(!new)>(s: seq<A>, f: A -> seq<B>)
    ensures forall x :: x in FlatMap(s, f) <==> exists a :: a in s && x in f(a)
  {
    if s != [] {
      FlatMapMembers(s[1..], f);
      forall x | exists a :: a in s && x in f(a)
        ensures x in FlatMap(s, f)
      {
        var a :| a in s && x in f(a);
        if a != s[0] {
          assert a in s[1..];
        }
      }
      forall x | x in FlatMap(s[1..], f)
        ensures exists a :: a in s && x in f(a)
      {
        var a :| a in s[1..] && x in f(a);
        assert a in s;
      }
    }
  }

  // ---------------------------------------------------------------------------
  // UPDATE ... SET: rewrite every row, keeping the table's length and order
  // ---------------------------------------------------------------------------

  function MapRows<T>(s: seq<T>, f: T -> T): (r: seq<T>)
    ensures |r| == |s|
    ensures forall i :: 0 <= i < |s| ==> r[i] == f(s[i])
  {
    if s == [] then [] else [f(s[0])] + MapRows(s[1..], f)
  }
}
