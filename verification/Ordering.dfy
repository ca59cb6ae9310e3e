/** The order Go gives strings, and the insertion sort the host writes out where it avoids a library. */
module Ordering {
  /** `a` sorts no later than `b`, character by character. */
  predicate Below(a: string, b: string) {
    a == "" || (b != "" && (a[0] < b[0] || (a[0] == b[0] && Below(a[1..], b[1..]))))
  }

  lemma {:induction false} BelowReflexive(a: string)
    ensures Below(a, a)
  {
    if a != "" {
      BelowReflexive(a[1..]);
    }
  }

  lemma {:induction false} BelowTotal(a: string, b: string)
    ensures Below(a, b) || Below(b, a)
  {
    if a != "" && b != "" {
      BelowTotal(a[1..], b[1..]);
    }
  }

  lemma {:induction false} BelowAntisymmetric(a: string, b: string)
    requires Below(a, b) && Below(b, a)
    ensures a == b
  {
    if a != "" {
      BelowAntisymmetric(a[1..], b[1..]);
      assert a == [a[0]] + a[1..] && b == [b[0]] + b[1..];
    }
  }

  lemma {:induction false} BelowTransitive(a: string, b: string, c: string)
    requires Below(a, b) && Below(b, c)
    ensures Below(a, c)
  {
    if a != "" && a[0] == b[0] == c[0] {
      BelowTransitive(a[1..], b[1..], c[1..]);
    }
  }

  predicate Sorted(keys: seq<string>) {
    forall i, j | 0 <= i < j < |keys| :: Below(keys[i], keys[j])
  }

  predicate NoRepeats(keys: seq<string>) {
    forall i, j | 0 <= i < j < |keys| :: keys[i] != keys[j]
  }

  lemma {:induction false} HasMember(b: seq<string>)
    ensures b == [] || exists k :: k in b
  {
    if b != [] {
      assert b[0] in b;
    }
  }

  /** A set of strings has one sorted listing. */
  lemma {:induction false} SortedIsUnique(a: seq<string>, b: seq<string>)
    requires Sorted(a) && NoRepeats(a) && Sorted(b) && NoRepeats(b)
    requires forall k :: k in a <==> k in b
    ensures a == b
  {
    if a == [] {
      HasMember(b);
    } else {
      assert a[0] in a && a[0] in b;
      assert b[0] in b && b[0] in a;
      BelowReflexive(a[0]);
      BelowReflexive(b[0]);
      BelowAntisymmetric(a[0], b[0]);
      forall k
        ensures k in a[1..] <==> k in b[1..]
      {
        if k in a[1..] {
          assert k in a && k != a[0];
        }
        if k in b[1..] {
          assert k in b && k != b[0];
        }
      }
      SortedIsUnique(a[1..], b[1..]);
    }
  }

  lemma {:induction false} SameListing(s: multiset<string>, a: seq<string>, b: seq<string>)
    requires multiset(a) == multiset(b) == s
    ensures |a| == |b|
    ensures forall k :: k in a <==> k in b
    ensures NoRepeats(a) ==> NoRepeats(b)
  {
    assert |multiset(a)| == |a| && |multiset(b)| == |b|;
    forall k
      ensures k in a <==> k in b
    {
      assert k in multiset(a) <==> k in a;
      assert k in multiset(b) <==> k in b;
    }
    if NoRepeats(a) {
      forall i, j | 0 <= i < j < |b|
        ensures b[i] != b[j]
      {
        if b[i] == b[j] {
          TwiceCounts(b, i, j);
          OnceCounts(a, b[i]);
        }
      }
    }
  }

  lemma {:induction false} TwiceCounts(b: seq<string>, i: nat, j: nat)
    requires i < j < |b| && b[i] == b[j]
    ensures multiset(b)[b[i]] >= 2
  {
    assert b == b[..j] + [b[j]] + b[j + 1..];
    assert b[i] in multiset(b[..j]) by {
      assert b[..j][i] == b[i];
    }
  }

  lemma {:induction false} OnceCounts(a: seq<string>, k: string)
    requires NoRepeats(a)
    ensures multiset(a)[k] <= 1
  {
    if a != [] {
      assert a == [a[0]] + a[1..];
      OnceCounts(a[1..], k);
      if k == a[0] {
        assert k !in a[1..];
      }
    }
  }

  /** Sorted except that the element at `hole` may still have to move down. */
  ghost predicate SortedBut(keys: seq<string>, hole: nat) {
    forall i, j | 0 <= i < j < |keys| && j != hole :: Below(keys[i], keys[j])
  }

  /** Moves the element at `i` down to its place among the sorted ones before it. */
  method SiftDown(keys: array<string>, i: nat)
    requires i < keys.Length && Sorted(keys[..i])
    modifies keys
    ensures Sorted(keys[..i + 1])
    ensures multiset(keys[..]) == old(multiset(keys[..]))
  {
    var j := i;
    assert SortedBut(keys[..i + 1], j);
    while j > 0 && !Below(keys[j - 1], keys[j])
      invariant 0 <= j <= i
      invariant SortedBut(keys[..i + 1], j)
      invariant forall k | j < k <= i :: Below(keys[j], keys[k])
      invariant multiset(keys[..]) == old(multiset(keys[..]))
    {
      BelowTotal(keys[j - 1], keys[j]);
      ghost var before := keys[..i + 1];
      keys[j - 1], keys[j] := keys[j], keys[j - 1];
      SwapDown(before, keys[..i + 1], j);
      j := j - 1;
    }
    Settled(keys[..i + 1], j);
  }

  lemma {:induction false} SwapDown(before: seq<string>, after: seq<string>, j: nat)
    requires 0 < j < |before| && SortedBut(before, j)
    requires forall k | j < k < |before| :: Below(before[j], before[k])
    requires Below(before[j], before[j - 1])
    requires after == before[j - 1 := before[j]][j := before[j - 1]]
    ensures SortedBut(after, j - 1)
    ensures forall k | j - 1 < k < |after| :: Below(after[j - 1], after[k])
  {
  }

  lemma {:induction false} Settled(keys: seq<string>, j: nat)
    requires j < |keys| && SortedBut(keys, j)
    requires forall k | j < k < |keys| :: Below(keys[j], keys[k])
    requires j > 0 ==> Below(keys[j - 1], keys[j])
    ensures Sorted(keys)
  {
    forall i | 0 <= i < j
      ensures Below(keys[i], keys[j])
    {
      if i < j - 1 {
        BelowTransitive(keys[i], keys[j - 1], keys[j]);
      }
    }
  }

  /** The in-place sort of core/credentials.go and core/inject.go. */
  method InsertionSort(keys: array<string>)
    modifies keys
    ensures Sorted(keys[..])
    ensures multiset(keys[..]) == old(multiset(keys[..]))
  {
    var i := 1;
    while i < keys.Length
      invariant 1 <= i && (i <= keys.Length || keys.Length == 0)
      invariant i <= keys.Length ==> Sorted(keys[..i])
      invariant multiset(keys[..]) == old(multiset(keys[..]))
    {
      SiftDown(keys, i);
      i := i + 1;
    }
    assert keys.Length > 0 ==> keys[..i] == keys[..];
  }

  // ---------- The least of a set ----------

  ghost predicate IsLeast(x: string, s: set<string>) {
    x in s && forall y | y in s :: Below(x, y)
  }

  lemma {:induction false} LeastExists(s: set<string>)
    requires s != {}
    ensures exists x :: IsLeast(x, s)
    decreases |s|
  {
    var x :| x in s;
    var rest := s - {x};
    BelowReflexive(x);
    if rest != {} {
      LeastExists(rest);
      var y :| IsLeast(y, rest);
      BelowTotal(x, y);
      if Below(x, y) {
        forall z | z in s
          ensures Below(x, z)
        {
          if z != x {
            BelowTransitive(x, y, z);
          }
        }
        assert IsLeast(x, s);
      } else {
        assert IsLeast(y, s);
      }
    } else {
      assert s == {x};
      assert IsLeast(x, s);
    }
  }

  ghost function Least(s: set<string>): (x: string)
    requires s != {}
    ensures IsLeast(x, s)
  {
    LeastExists(s);
    var x :| IsLeast(x, s);
    x
  }
}
