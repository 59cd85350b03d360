/** ORDER BY time ASC, id ASC LIMIT n: the one answer such a query may give, and how to compute it. */
module Selection {
  import opened Text

  datatype SortKey = SortKey(at: nat, id: string)

  predicate Before(a: SortKey, b: SortKey) {
    a.at < b.at || (a.at == b.at && Less(a.id, b.id))
  }

  lemma BeforeTransitive(a: SortKey, b: SortKey, c: SortKey)
    requires Before(a, b) && Before(b, c)
    ensures Before(a, c)
  {
    if a.at == b.at && b.at == c.at {
      LessTransitive(a.id, b.id, c.id);
    }
  }

  lemma BeforeTotal(a: SortKey, b: SortKey)
    ensures Before(a, b) || a == b || Before(b, a)
    ensures !(Before(a, b) && Before(b, a)) && !Before(a, a)
  {
    LessTotal(a.id, b.id);
    LessIrreflexive(a.id);
    if Less(a.id, b.id) {
      LessAsymmetric(a.id, b.id);
    }
  }

  /** `out` is the first `limit` members of `all`, in order. */
  predicate IsFirst(out: seq<SortKey>, all: set<SortKey>, limit: nat) {
    && |out| == (if |all| < limit then |all| else limit)
    && (forall i | 0 <= i < |out| :: out[i] in all)
    && (forall i, j | 0 <= i < j < |out| :: Before(out[i], out[j]))
    && (forall i, k | 0 <= i < |out| && k in all && k !in out :: Before(out[i], k))
  }

  /** The query has one answer. */
  lemma {:induction false} FirstIsUnique(a: seq<SortKey>, b: seq<SortKey>, all: set<SortKey>, limit: nat)
    requires IsFirst(a, all, limit) && IsFirst(b, all, limit)
    ensures a == b
  {
    var i := 0;
    while i < |a|
      invariant 0 <= i <= |a|
      invariant a[..i] == b[..i]
    {
      assert a[i] == b[i] by {
        SamePosition(a, b, all, limit, i);
      }
      i := i + 1;
    }
    assert a[..|a|] == a && b[..|b|] == b;
  }

  lemma SamePosition(a: seq<SortKey>, b: seq<SortKey>, all: set<SortKey>, limit: nat, i: nat)
    requires IsFirst(a, all, limit) && IsFirst(b, all, limit)
    requires i < |a| && a[..i] == b[..i]
    ensures a[i] == b[i]
  {
    if a[i] != b[i] {
      AtOrBefore(a, b, all, limit, i);
      AtOrBefore(b, a, all, limit, i);
      BeforeTotal(a[i], b[i]);
    }
  }

  /** With equal prefixes, the next member of one answer does not come after that of the other. */
  lemma AtOrBefore(a: seq<SortKey>, b: seq<SortKey>, all: set<SortKey>, limit: nat, i: nat)
    requires IsFirst(a, all, limit) && IsFirst(b, all, limit)
    requires i < |a| && a[..i] == b[..i]
    ensures a[i] == b[i] || Before(a[i], b[i])
  {
    if b[i] in a {
      var j :| 0 <= j < |a| && a[j] == b[i];
      if j < i {
        assert a[j] == a[..i][j] == b[..i][j] == b[j];
        BeforeTotal(b[j], b[i]);
      }
    }
  }

  method Smallest(all: set<SortKey>) returns (least: SortKey)
    requires all != {}
    ensures least in all
    ensures forall k | k in all && k != least :: Before(least, k)
  {
    least :| least in all;
    var rest := all - {least};
    while rest != {}
      invariant least in all && rest <= all
      invariant forall k | k in all && k !in rest && k != least :: Before(least, k)
      decreases rest
    {
      var k :| k in rest;
      BeforeTotal(least, k);
      if Before(k, least) {
        forall other | other in all && other !in rest && other != least
          ensures Before(k, other)
        {
          BeforeTransitive(k, least, other);
        }
        least := k;
      }
      rest := rest - {k};
    }
  }

  method First(all: set<SortKey>, limit: nat) returns (out: seq<SortKey>)
    ensures IsFirst(out, all, limit)
  {
    out := [];
    var rest := all;
    while rest != {} && |out| < limit
      invariant rest <= all
      invariant |out| + |rest| == |all| && |out| <= limit
      invariant forall k | k in all :: k in rest <==> k !in out
      invariant forall i | 0 <= i < |out| :: out[i] in all
      invariant forall i, j | 0 <= i < j < |out| :: Before(out[i], out[j])
      invariant forall i, k | 0 <= i < |out| && k in rest :: Before(out[i], k)
      decreases rest
    {
      var k := Smallest(rest);
      out := out + [k];
      rest := rest - {k};
    }
  }

  lemma {:induction false} SmallerSubset<T>(a: set<T>, b: set<T>, x: T)
    requires a <= b && x in b && x !in a
    ensures |a| < |b|
  {
    if a != {} {
      var y :| y in a;
      SmallerSubset(a - {y}, b - {y}, x);
    }
  }

  lemma {:induction false} SizeOfDistinct(keys: seq<SortKey>, taken: set<SortKey>)
    requires forall i, j | 0 <= i < j < |keys| :: Before(keys[i], keys[j])
    requires taken == set i | 0 <= i < |keys| :: keys[i]
    ensures |taken| == |keys|
  {
    if keys != [] {
      var n := |keys| - 1;
      var front := keys[..n];
      var rest := set i | 0 <= i < n :: front[i];
      SizeOfDistinct(front, rest);
      forall i | 0 <= i < n ensures front[i] != keys[n] {
        BeforeTotal(keys[i], keys[n]);
      }
      assert taken == rest + {keys[n]};
    }
  }

  /** Taking as many as there are takes all. */
  lemma AllOf(keys: seq<SortKey>, all: set<SortKey>)
    requires IsFirst(keys, all, |all|)
    ensures forall k | k in all :: k in keys
  {
    var taken := set i | 0 <= i < |keys| :: keys[i];
    SizeOfDistinct(keys, taken);
    assert taken <= all;
    if taken != all {
      var k :| k in all && k !in taken;
      SmallerSubset(taken, all, k);
    }
  }
}
