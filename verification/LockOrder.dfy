/** Advisory locks taken in `sortLockSpecs` order and held to transaction end. */
module LockOrder {

  datatype Spec = Named(name: string) | Claim(producer: string, selector: string)

  // ------------------------------------------------------------ the order

  /** Bytewise order of strings. */
  predicate StringLeq(a: string, b: string) {
    a == [] || (b != [] && (a[0] < b[0] || (a[0] == b[0] && StringLeq(a[1..], b[1..]))))
  }

  /** The first difference decides, and a prefix comes first. */
  lemma {:induction false} StringLeqMeans(a: string, b: string)
    ensures StringLeq(a, b) <==> a <= b || exists k :: 0 <= k < |a| && k < |b| && a[..k] == b[..k] && a[k] < b[k]
  {
    if a == [] || b == [] {
    } else if a[0] != b[0] {
      if a[0] < b[0] { assert a[..0] == b[..0]; }
      forall k | 0 < k < |a| && k < |b| ensures a[..k] != b[..k] { assert a[..k][0] != b[..k][0]; }
    } else {
      var x, y := a[1..], b[1..];
      StringLeqMeans(x, y);
      assert a == [a[0]] + x && b == [b[0]] + y;
      assert a <= b <==> x <= y;
      forall k | 0 <= k < |x| && k < |y| ensures x[..k] == y[..k] <==> a[..k + 1] == b[..k + 1] {
        assert a[..k + 1] == [a[0]] + x[..k] && b[..k + 1] == [b[0]] + y[..k];
      }
      if k :| 0 <= k < |x| && k < |y| && x[..k] == y[..k] && x[k] < y[k] {
        assert a[..k + 1] == b[..k + 1] && a[k + 1] < b[k + 1];
      }
      if k :| 0 <= k < |a| && k < |b| && a[..k] == b[..k] && a[k] < b[k] {
        assert x[..k - 1] == y[..k - 1] && x[k - 1] < y[k - 1];
      }
    }
  }

  function SortKey(s: Spec): string {
    match s
    case Named(name) => name
    case Claim(producer, selector) => producer + ":" + selector
  }

  /** Named locks first, then by key. */
  predicate Leq(x: Spec, y: Spec) {
    if x.Named? != y.Named? then x.Named? else StringLeq(SortKey(x), SortKey(y))
  }

  lemma {:induction false} StringTotal(a: string, b: string)
    ensures StringLeq(a, b) || StringLeq(b, a)
    ensures StringLeq(a, b) && StringLeq(b, a) ==> a == b
  {
    if a == [] || b == [] || a[0] != b[0] {
    } else {
      StringTotal(a[1..], b[1..]);
      assert a == [a[0]] + a[1..] && b == [b[0]] + b[1..];
    }
  }

  lemma {:induction false} StringTrans(a: string, b: string, c: string)
    requires StringLeq(a, b) && StringLeq(b, c)
    ensures StringLeq(a, c)
  {
    if a == [] || a[0] != b[0] || b[0] != c[0] {
    } else {
      StringTrans(a[1..], b[1..], c[1..]);
    }
  }

  lemma LeqTotal(x: Spec, y: Spec)
    ensures Leq(x, y) || Leq(y, x)
  {
    StringTotal(SortKey(x), SortKey(y));
  }

  lemma LeqTrans(x: Spec, y: Spec, z: Spec)
    requires Leq(x, y) && Leq(y, z)
    ensures Leq(x, z)
  {
    if x.Named? == y.Named? && y.Named? == z.Named? { StringTrans(SortKey(x), SortKey(y), SortKey(z)); }
  }

  predicate Sorted(l: seq<Spec>) {
    forall i, j | 0 <= i < j < |l| :: Leq(l[i], l[j])
  }

  // ---------------------------------------------------------- the sort

  function InsertSpec(l: seq<Spec>, x: Spec): seq<Spec> {
    if l == [] || Leq(x, l[0]) then [x] + l else [l[0]] + InsertSpec(l[1..], x)
  }

  function SortSpecs(l: seq<Spec>): seq<Spec> {
    if l == [] then [] else InsertSpec(SortSpecs(l[1..]), l[0])
  }

  /** The specs of the same rank as `y`, in order. */
  function Rank(l: seq<Spec>, y: Spec): seq<Spec> {
    if l == [] then []
    else if Leq(l[0], y) && Leq(y, l[0]) then [l[0]] + Rank(l[1..], y) else Rank(l[1..], y)
  }

  lemma {:induction false} InsertElems(l: seq<Spec>, x: Spec)
    ensures multiset(InsertSpec(l, x)) == multiset(l) + multiset{x}
    ensures forall z :: z in InsertSpec(l, x) <==> z in l || z == x
  {
    if l == [] || Leq(x, l[0]) {
    } else {
      InsertElems(l[1..], x);
      assert l == [l[0]] + l[1..];
    }
  }

  lemma {:induction false} InsertSorted(l: seq<Spec>, x: Spec)
    requires Sorted(l)
    ensures Sorted(InsertSpec(l, x))
  {
    if l == [] {
    } else if Leq(x, l[0]) {
      forall j | 0 < j < |l| ensures Leq(x, l[j]) { LeqTrans(x, l[0], l[j]); }
    } else {
      InsertSorted(l[1..], x);
      InsertElems(l[1..], x);
      LeqTotal(l[0], x);
      var t := InsertSpec(l[1..], x);
      forall j | 0 <= j < |t| ensures Leq(l[0], t[j]) { assert t[j] in t; }
    }
  }

  /** An insertion goes in front of everything of its own rank. */
  lemma {:induction false} InsertStable(l: seq<Spec>, x: Spec, y: Spec)
    ensures Rank(InsertSpec(l, x), y) == Rank([x] + l, y)
  {
    assert ([x] + l)[1..] == l;
    if l == [] || Leq(x, l[0]) {
    } else {
      InsertStable(l[1..], x, y);
      assert InsertSpec(l, x)[1..] == InsertSpec(l[1..], x);
      assert ([x] + l[1..])[1..] == l[1..];
      if Leq(x, y) && Leq(y, l[0]) { LeqTrans(x, y, l[0]); }
    }
  }

  /** The sort orders the specs, loses and invents none, and keeps those of equal
      rank in the order they came in. */
  lemma {:induction false} SortSpecsSorts(l: seq<Spec>, y: Spec)
    ensures Sorted(SortSpecs(l)) && multiset(SortSpecs(l)) == multiset(l)
    ensures Rank(SortSpecs(l), y) == Rank(l, y)
  {
    if l == [] {
    } else {
      var t := SortSpecs(l[1..]);
      SortSpecsSorts(l[1..], y);
      InsertElems(t, l[0]);
      InsertSorted(t, l[0]);
      InsertStable(t, l[0], y);
      assert l == [l[0]] + l[1..] && ([l[0]] + t)[1..] == t;
    }
  }
}
