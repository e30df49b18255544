/** Sequence operations the services perform through the query builder or on JavaScript arrays and sets. */
module Seqs {
  import opened Wrappers

  /** The rows of `s` satisfying `p`, in table order: a `.eq(...)` filter or `Array.filter`. */
  function Filter<T>(s: seq<T>, p: T -> bool): (r: seq<T>)
    ensures |r| <= |s|
  {
    if s == [] then []
    else if p(s[0]) then [s[0]] + Filter(s[1..], p)
    else Filter(s[1..], p)
  }

  lemma {:induction false} FilterMembership<T>(s: seq<T>, p: T -> bool)
    ensures forall x :: x in Filter(s, p) <==> x in s && p(x)
  {
    if s != [] {
      FilterMembership(s[1..], p);
      assert s == [s[0]] + s[1..];
    }
  }

  /** Filtering distributes over concatenation: what was stored earlier comes out earlier. */
  lemma {:induction false} FilterAppend<T>(a: seq<T>, b: seq<T>, p: T -> bool)
    ensures Filter(a + b, p) == Filter(a, p) + Filter(b, p)
  {
    if a == [] {
      assert a + b == b;
    } else {
      assert (a + b)[0] == a[0];
      assert (a + b)[1..] == a[1..] + b;
      FilterAppend(a[1..], b, p);
    }
  }

  lemma {:induction false} FilterNone<T>(s: seq<T>, p: T -> bool)
    requires forall i :: 0 <= i < |s| ==> !p(s[i])
    ensures Filter(s, p) == []
  {
    if s != [] {
      FilterNone(s[1..], p);
    }
  }

  lemma {:induction false} FilterAll<T>(s: seq<T>, p: T -> bool)
    requires forall i :: 0 <= i < |s| ==> p(s[i])
    ensures Filter(s, p) == s
  {
    if s != [] {
      FilterAll(s[1..], p);
      assert s == [s[0]] + s[1..];
    }
  }

  /** A filter that only one element passes yields exactly that element. */
  lemma {:induction false} FilterSingle<T>(s: seq<T>, p: T -> bool, k: nat)
    requires k < |s| && p(s[k])
    requires forall i :: 0 <= i < |s| && i != k ==> !p(s[i])
    ensures Filter(s, p) == [s[k]]
  {
    if k == 0 {
      assert forall i :: 0 <= i < |s[1..]| ==> !p(s[1..][i]) by {
        forall i | 0 <= i < |s[1..]| ensures !p(s[1..][i]) {
          assert s[1..][i] == s[i + 1];
        }
      }
      FilterNone(s[1..], p);
    } else {
      assert forall i :: 0 <= i < |s[1..]| && i != k - 1 ==> !p(s[1..][i]) by {
        forall i | 0 <= i < |s[1..]| && i != k - 1 ensures !p(s[1..][i]) {
          assert s[1..][i] == s[i + 1];
        }
      }
      FilterSingle(s[1..], p, k - 1);
    }
  }

  /** Two tests that agree on every element select the same elements. */
  lemma {:induction false} FilterSame<T>(s: seq<T>, p: T -> bool, q: T -> bool)
    requires forall i :: 0 <= i < |s| ==> p(s[i]) == q(s[i])
    ensures Filter(s, p) == Filter(s, q)
  {
    if s != [] {
      assert forall i :: 0 <= i < |s[1..]| ==> s[1..][i] == s[i + 1];
      FilterSame(s[1..], p, q);
    }
  }

  /** `.maybeSingle()` and `.single()`: the row when exactly one matches, otherwise no data. */
  function MaybeSingle<T>(rows: seq<T>): (r: Option<T>)
    ensures r.Some? <==> |rows| == 1
    ensures r.Some? ==> r.value == rows[0]
  {
    if |rows| == 1 then Some(rows[0]) else None
  }

  /** `set.add(x)` on a JavaScript Set viewed in insertion order. */
  function SetAdd<T(==)>(d: seq<T>, x: T): seq<T> {
    if x in d then d else d + [x]
  }

  /** `new Set(s)` in insertion order: first occurrences only. */
  function Dedup<T(==)>(s: seq<T>): (d: seq<T>)
    decreases |s|
  {
    if s == [] then [] else SetAdd(Dedup(s[..|s| - 1]), s[|s| - 1])
  }

  predicate Distinct<T(==)>(s: seq<T>) {
    forall i, j :: 0 <= i < j < |s| ==> s[i] != s[j]
  }

  lemma SetAddSpec<T>(d: seq<T>, x: T)
    requires Distinct(d)
    ensures Distinct(SetAdd(d, x))
    ensures forall y :: y in SetAdd(d, x) <==> y in d || y == x
  {
  }

  /** The Set keeps every element of its input once and nothing else. */
  lemma {:induction false} DedupSpec<T>(s: seq<T>)
    ensures Distinct(Dedup(s))
    ensures forall y :: y in Dedup(s) <==> y in s
  {
    if s != [] {
      var init := s[..|s| - 1];
      DedupSpec(init);
      SetAddSpec(Dedup(init), s[|s| - 1]);
      assert s == init + [s[|s| - 1]];
    }
  }
}
