/** Value types and sequence helpers shared by the menu, burger and order models:
    optional values, thrown errors, JavaScript truthiness, `Array.prototype.join`,
    `indexOf`/`splice` and the insertion-ordered `Set<string>` of ingredients. */
module Common {

  datatype Option<T> = None | Some(value: T)

  /** The outcome of an operation that may throw: `Err` carries the thrown message. */
  datatype Result<T> = Ok(value: T) | Err(message: string)

  /** JavaScript truthiness of an optional string: `undefined` and `""` are falsy. */
  predicate Truthy(s: Option<string>)
  {
    s.Some? && s.value != ""
  }

  /** JavaScript truthiness of an optional number: `undefined` and `0` are falsy. */
  predicate TruthyNumber(x: Option<real>)
  {
    x.Some? && x.value != 0.0
  }

  predicate NoDup<T(==)>(s: seq<T>)
  {
    forall i, j :: 0 <= i < j < |s| ==> s[i] != s[j]
  }

  function Elems<T>(s: seq<T>): set<T>
  {
    set x | x in s
  }

  predicate IsPrefix(p: string, s: string)
  {
    |p| <= |s| && s[..|p|] == p
  }

  predicate IsSuffix(p: string, s: string)
  {
    |p| <= |s| && s[|s| - |p|..] == p
  }

  /** `parts.join(sep)`: the parts in order, `sep` between neighbours. */
  function Join(parts: seq<string>, sep: string): string
  {
    if parts == [] then ""
    else if |parts| == 1 then parts[0]
    else Join(parts[..|parts| - 1], sep) + sep + parts[|parts| - 1]
  }

  /** Joining one more part appends the separator and that part. */
  lemma JoinSnoc(parts: seq<string>, x: string, sep: string)
    requires parts != []
    ensures Join(parts + [x], sep) == Join(parts, sep) + sep + x
  {
    assert (parts + [x])[..|parts|] == parts;
  }

  /** With a non-empty separator the joined text is empty exactly when there
      is nothing to join or the only part is itself empty. */
  lemma JoinIsEmpty(parts: seq<string>, sep: string)
    requires sep != ""
    ensures Join(parts, sep) == "" <==> parts == [] || parts == [""]
  {
    if |parts| >= 2 {
      assert |Join(parts, sep)| >= |sep| > 0;
    }
  }

  /** `Array.prototype.indexOf`: the first position holding `x`, or -1. */
  function IndexOf<T(==)>(s: seq<T>, x: T): (i: int)
    ensures -1 <= i < |s|
    ensures i == -1 <==> x !in s
    ensures 0 <= i ==> s[i] == x && x !in s[..i]
  {
    if s == [] then -1
    else if s[0] == x then 0
    else
      var j := IndexOf(s[1..], x);
      assert s[1..][..if j < 0 then 0 else j] == s[1..if j < 0 then 1 else j + 1];
      if j == -1 then -1 else j + 1
  }

  /** `const i = s.indexOf(x); if (i > -1) s.splice(i, 1)`: drops the first
      occurrence of `x` and keeps every other element in order. */
  function RemoveFirst<T(==)>(s: seq<T>, x: T): (r: seq<T>)
    ensures x !in s ==> r == s
    ensures x in s ==> |r| == |s| - 1
    ensures x in s ==> forall k :: 0 <= k < IndexOf(s, x) ==> r[k] == s[k]
    ensures x in s ==> forall k :: IndexOf(s, x) <= k < |r| ==> r[k] == s[k + 1]
    ensures multiset(r) == multiset(s) - multiset{x}
  {
    var i := IndexOf(s, x);
    if i > -1 then
      CutAt(s, i, s[..i] + s[i + 1..]);
      s[..i] + s[i + 1..]
    else
      s
  }

  /** Cutting position `i` out of a sequence, giving `c`, shifts the later
      elements down by one and removes one copy of the element held there. */
  lemma CutAt<T>(s: seq<T>, i: nat, c: seq<T>)
    requires i < |s| && c == s[..i] + s[i + 1..]
    ensures |c| == |s| - 1
    ensures forall k | 0 <= k < i :: c[k] == s[k]
    ensures forall k | i <= k < |c| :: c[k] == s[k + 1]
    ensures multiset(c) == multiset(s) - multiset{s[i]}
  {
    assert s == s[..i] + [s[i]] + s[i + 1..];
  }

  /** Cutting a position other than the last one out of a sequence keeps
      the last element last. */
  lemma CutBeforeLast<T>(s: seq<T>, i: nat)
    requires i + 1 < |s|
    ensures s[..i] + s[i + 1..] == (s[..|s| - 1][..i] + s[..|s| - 1][i + 1..]) + [s[|s| - 1]]
  {
  }

  /** Removing an element from a duplicate-free sequence leaves it
      duplicate-free and without that element. */
  lemma RemoveFirstNoDup<T>(s: seq<T>, x: T)
    requires NoDup(s)
    ensures NoDup(RemoveFirst(s, x))
    ensures x !in RemoveFirst(s, x)
    ensures Elems(RemoveFirst(s, x)) == Elems(s) - {x}
  {
    if x in s {
      var i := IndexOf(s, x);
      assert RemoveFirst(s, x) == s[..i] + s[i + 1..];
      RemoveAtNoDup(s, i);
    }
  }

  /** Cutting position `i` out of a duplicate-free sequence removes exactly
      the element held there. */
  lemma RemoveAtNoDup<T>(s: seq<T>, i: nat)
    requires NoDup(s) && i < |s|
    ensures NoDup(s[..i] + s[i + 1..])
    ensures s[i] !in s[..i] + s[i + 1..]
    ensures Elems(s[..i] + s[i + 1..]) == Elems(s) - {s[i]}
  {
    var r := s[..i] + s[i + 1..];
    assert forall k | 0 <= k < |r| :: r[k] == s[if k < i then k else k + 1];
    assert NoDup(r) by {
      forall a, b | 0 <= a < b < |r| ensures r[a] != r[b] {
        assert r[a] == s[if a < i then a else a + 1];
        assert r[b] == s[if b < i then b else b + 1];
      }
    }
    assert Elems(r) == Elems(s) - {s[i]} by {
      forall y | y in Elems(s) - {s[i]} ensures y in Elems(r) {
        var k :| 0 <= k < |s| && s[k] == y;
        assert r[if k < i then k else k - 1] == y;
      }
    }
  }

  /** `set.add(x)` on an insertion-ordered set: a new element goes last, an
      element already present changes nothing. */
  function SetAdd(s: seq<string>, x: string): (r: seq<string>)
    ensures Elems(r) == Elems(s) + {x}
    ensures NoDup(s) ==> NoDup(r)
    ensures x in s ==> r == s
    ensures x !in s ==> |r| == |s| + 1 && r[..|s|] == s && r[|s|] == x
  {
    if x in s then s else s + [x]
  }

  /** Inserting the elements of a duplicate-free list one by one rebuilds
      it: each next element is new to the part already inserted. */
  lemma SetAddNext(s: seq<string>, k: nat)
    requires NoDup(s) && k < |s|
    ensures SetAdd(s[..k], s[k]) == s[..k + 1]
  {
    assert s[..k + 1] == s[..k] + [s[k]];
  }

  /** `set.delete(x)` on an insertion-ordered set: removes `x` if present. */
  function SetDelete(s: seq<string>, x: string): (r: seq<string>)
    requires NoDup(s)
    ensures Elems(r) == Elems(s) - {x}
    ensures NoDup(r)
    ensures x !in s ==> r == s
  {
    RemoveFirstNoDup(s, x);
    RemoveFirst(s, x)
  }

  /** `xs.forEach(x => set.add(x))`. */
  function SetAddAll(s: seq<string>, xs: seq<string>): seq<string>
    decreases xs
  {
    if xs == [] then s else SetAddAll(SetAdd(s, xs[0]), xs[1..])
  }

  /** Adding several ingredients one by one yields the union of the sets and
      keeps the order duplicate-free. */
  lemma {:induction false} SetAddAllUnion(s: seq<string>, xs: seq<string>)
    ensures Elems(SetAddAll(s, xs)) == Elems(s) + Elems(xs)
    ensures NoDup(s) ==> NoDup(SetAddAll(s, xs))
    decreases xs
  {
    if xs != [] {
      SetAddAllUnion(SetAdd(s, xs[0]), xs[1..]);
      ElemsCons(xs);
    }
  }

  /** The elements of a non-empty sequence are its head and those of its tail. */
  lemma ElemsCons<T>(xs: seq<T>)
    requires xs != []
    ensures Elems(xs) == {xs[0]} + Elems(xs[1..])
  {
    forall y | y in Elems(xs) ensures y in {xs[0]} + Elems(xs[1..]) {
      var k :| 0 <= k < |xs| && xs[k] == y;
      if k > 0 {
        assert xs[1..][k - 1] == y;
      }
    }
  }

  /** One more step of `forEach`: adding the elements of `xs` and then `x` is
      adding the elements of `xs + [x]`. */
  lemma {:induction false} SetAddAllSnoc(s: seq<string>, xs: seq<string>, x: string)
    ensures SetAddAll(s, xs + [x]) == SetAdd(SetAddAll(s, xs), x)
    decreases xs
  {
    if xs == [] {
      assert xs + [x] == [x];
    } else {
      assert (xs + [x])[1..] == xs[1..] + [x];
      SetAddAllSnoc(SetAdd(s, xs[0]), xs[1..], x);
    }
  }

  /** Step `i` of `forEach` over `xs`. */
  lemma SetAddAllStep(s: seq<string>, xs: seq<string>, i: nat)
    requires i < |xs|
    ensures SetAddAll(s, xs[..i + 1]) == SetAdd(SetAddAll(s, xs[..i]), xs[i])
  {
    assert xs[..i + 1] == xs[..i] + [xs[i]];
    SetAddAllSnoc(s, xs[..i], xs[i]);
  }

  /** Adding elements never moves the ones already there: the original
      order is a prefix of the result. */
  lemma {:induction false} SetAddAllPrefix(s: seq<string>, xs: seq<string>)
    ensures |s| <= |SetAddAll(s, xs)| && SetAddAll(s, xs)[..|s|] == s
    decreases xs
  {
    if xs != [] {
      var s1 := SetAdd(s, xs[0]);
      SetAddAllPrefix(s1, xs[1..]);
      assert s1[..|s|] == s;
      assert SetAddAll(s, xs)[..|s|] == SetAddAll(s, xs)[..|s1|][..|s|];
    }
  }
}
