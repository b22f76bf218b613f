/** Options, strings as the controllers use them (prefixes, the byte order behind
    strings.Compare, values outside a finite set), and sorting by a string key. */
module Basics {

  datatype Option<+T> = None | Some(value: T)

  predicate HasPrefix(s: string, prefix: string) {
    |prefix| <= |s| && s[..|prefix|] == prefix
  }

  /** Lexicographic order. */
  predicate Leq(a: string, b: string) {
    a == "" || (b != "" && (a[0] < b[0] || (a[0] == b[0] && Leq(a[1..], b[1..]))))
  }

  lemma {:induction false} LeqTotal(a: string, b: string)
    ensures Leq(a, b) || Leq(b, a)
  {
    if a != "" && b != "" && a[0] == b[0] {
      LeqTotal(a[1..], b[1..]);
    }
  }

  lemma {:induction false} LeqAntisymmetric(a: string, b: string)
    requires Leq(a, b) && Leq(b, a)
    ensures a == b
  {
    if a != "" {
      LeqAntisymmetric(a[1..], b[1..]);
      assert a == [a[0]] + a[1..] && b == [b[0]] + b[1..];
    }
  }

  lemma {:induction false} LeqTransitive(a: string, b: string, c: string)
    requires Leq(a, b) && Leq(b, c)
    ensures Leq(a, c)
  {
    if a != "" && a[0] == b[0] == c[0] {
      LeqTransitive(a[1..], b[1..], c[1..]);
    }
  }

  ghost predicate SortedBy<T(!new)>(xs: seq<T>, key: T -> string) {
    forall i, j :: 0 <= i < j < |xs| ==> Leq(key(xs[i]), key(xs[j]))
  }

  /** Inserts x before the first element that is not smaller, so equal keys keep their order. */
  function Insert<T>(x: T, xs: seq<T>, key: T -> string): (r: seq<T>) {
    if xs == [] || Leq(key(x), key(xs[0])) then [x] + xs
    else [xs[0]] + Insert(x, xs[1..], key)
  }

  function SortBy<T>(xs: seq<T>, key: T -> string): (r: seq<T>) {
    if xs == [] then [] else Insert(xs[0], SortBy(xs[1..], key), key)
  }

  lemma {:induction false} InsertPermutes<T>(x: T, xs: seq<T>, key: T -> string)
    ensures multiset(Insert(x, xs, key)) == multiset{x} + multiset(xs)
  {
    if xs != [] && !Leq(key(x), key(xs[0])) {
      InsertPermutes(x, xs[1..], key);
      assert xs == [xs[0]] + xs[1..];
    }
  }

  lemma {:induction false} InsertSorts<T(!new)>(x: T, xs: seq<T>, key: T -> string)
    requires SortedBy(xs, key)
    ensures SortedBy(Insert(x, xs, key), key)
  {
    if xs != [] && !Leq(key(x), key(xs[0])) {
      var tail := Insert(x, xs[1..], key);
      InsertSorts(x, xs[1..], key);
      InsertPermutes(x, xs[1..], key);
      LeqTotal(key(x), key(xs[0]));
      forall j | 0 <= j < |tail| ensures Leq(key(xs[0]), key(tail[j])) {
        assert tail[j] in multiset(tail);
        assert tail[j] == x || tail[j] in xs[1..];
      }
    } else if xs != [] {
      forall j | 0 <= j < |xs| ensures Leq(key(x), key(xs[j])) {
        if j > 0 { LeqTransitive(key(x), key(xs[0]), key(xs[j])); }
      }
    }
  }

  lemma {:induction false} SortBySorts<T(!new)>(xs: seq<T>, key: T -> string)
    ensures multiset(SortBy(xs, key)) == multiset(xs)
    ensures SortedBy(SortBy(xs, key), key)
  {
    if xs != [] {
      SortBySorts(xs[1..], key);
      InsertSorts(xs[0], SortBy(xs[1..], key), key);
      InsertPermutes(xs[0], SortBy(xs[1..], key), key);
      assert xs == [xs[0]] + xs[1..];
    }
  }

  /** The first element of a sorted arrangement has the least key. */
  lemma {:induction false} HeadIsLeast<T(!new)>(xs: seq<T>, x: T, key: T -> string)
    requires SortedBy(xs, key) && x in multiset(xs)
    ensures xs != [] && Leq(key(xs[0]), key(x))
  {
    var i :| 0 <= i < |xs| && xs[i] == x;
    LeqReflexive(key(xs[0]));
  }

  /** The key tells the elements of m apart. */
  ghost predicate Separates<T(!new)>(key: T -> string, m: multiset<T>) {
    forall a, b :: a in m && b in m && key(a) == key(b) ==> a == b
  }

  lemma {:induction false} SeparatesFewer<T(!new)>(key: T -> string, m: multiset<T>, n: multiset<T>)
    requires Separates(key, m) && n <= m
    ensures Separates(key, n)
  {}

  lemma {:induction false} SortedTail<T(!new)>(xs: seq<T>, key: T -> string)
    requires SortedBy(xs, key) && xs != []
    ensures SortedBy(xs[1..], key)
    ensures multiset(xs[1..]) == multiset(xs) - multiset{xs[0]}
  {
    assert xs == [xs[0]] + xs[1..];
  }

  lemma {:induction false} SameHead<T(!new)>(xs: seq<T>, ys: seq<T>, key: T -> string)
    requires SortedBy(xs, key) && SortedBy(ys, key) && multiset(xs) == multiset(ys)
    requires Separates(key, multiset(xs)) && xs != []
    ensures ys != [] && xs[0] == ys[0]
  {
    assert xs[0] in multiset(ys);
    HeadIsLeast(ys, xs[0], key);
    assert ys[0] in multiset(xs);
    HeadIsLeast(xs, ys[0], key);
    LeqAntisymmetric(key(xs[0]), key(ys[0]));
  }

  lemma {:induction false} SameTails<T(!new)>(xs: seq<T>, ys: seq<T>, key: T -> string)
    requires SortedBy(xs, key) && SortedBy(ys, key) && multiset(xs) == multiset(ys)
    requires Separates(key, multiset(xs)) && xs != [] && ys != [] && xs[0] == ys[0]
    ensures SortedBy(xs[1..], key) && SortedBy(ys[1..], key) && multiset(xs[1..]) == multiset(ys[1..])
    ensures Separates(key, multiset(xs[1..]))
  {
    SortedTail(xs, key);
    SortedTail(ys, key);
    SeparatesFewer(key, multiset(xs), multiset(xs[1..]));
  }

  /** Two sorted arrangements of the same elements are equal when the key tells elements apart. */
  lemma {:induction false} SortedUnique<T(!new)>(xs: seq<T>, ys: seq<T>, key: T -> string)
    requires SortedBy(xs, key) && SortedBy(ys, key) && multiset(xs) == multiset(ys)
    requires Separates(key, multiset(xs))
    ensures xs == ys
  {
    if xs == [] {
      assert |ys| == |multiset(ys)| == |multiset(xs)| == 0;
    } else {
      SameHead(xs, ys, key);
      SameTails(xs, ys, key);
      SortedUnique(xs[1..], ys[1..], key);
      assert xs == [xs[0]] + xs[1..] && ys == [ys[0]] + ys[1..];
    }
  }

  lemma {:induction false} LeqReflexive(a: string)
    ensures Leq(a, a)
  {
    if a != "" { LeqReflexive(a[1..]); }
  }

  /** Sorting forgets the order the input arrived in. */
  lemma {:induction false} SortByPermutation<T(!new)>(xs: seq<T>, ys: seq<T>, key: T -> string)
    requires multiset(xs) == multiset(ys) && Separates(key, multiset(xs))
    ensures SortBy(xs, key) == SortBy(ys, key)
  {
    SortBySorts(xs, key);
    SortBySorts(ys, key);
    SortedUnique(SortBy(xs, key), SortBy(ys, key), key);
  }

  /** Finds the last element of xs in a rearrangement ys; the remainders are rearrangements too. */
  lemma {:induction false} PullOut<T>(xs: seq<T>, ys: seq<T>) returns (left: seq<T>, right: seq<T>)
    requires multiset(xs) == multiset(ys) && xs != []
    ensures ys == left + [xs[|xs| - 1]] + right
    ensures multiset(xs[..|xs| - 1]) == multiset(left + right)
  {
    var last := xs[|xs| - 1];
    assert last in multiset(ys);
    var i :| 0 <= i < |ys| && ys[i] == last;
    left, right := ys[..i], ys[i + 1..];
    assert ys == left + [last] + right;
    assert xs == xs[..|xs| - 1] + [last];
    assert multiset(xs) == multiset(xs[..|xs| - 1]) + multiset{last};
    assert multiset(ys) == multiset(left) + multiset{last} + multiset(right);
    assert multiset(ys) - multiset{last} == multiset(left + right);
  }

  lemma {:induction false} SameElements<T>(xs: seq<T>, ys: seq<T>)
    requires multiset(xs) == multiset(ys)
    ensures |xs| == |ys|
    ensures forall x :: x in xs <==> x in ys
  {
    assert |xs| == |multiset(xs)| == |multiset(ys)| == |ys|;
    assert forall x :: x in xs <==> x in multiset(xs);
    assert forall x :: x in ys <==> x in multiset(ys);
  }

  /** The identity key. */
  function Itself(s: string): string { s }

  ghost function MaxLength(s: set<string>): (n: nat)
    ensures forall x :: x in s ==> |x| <= n
  {
    if s == {} then 0
    else
      var x :| x in s;
      var rest := MaxLength(s - {x});
      assert forall y :: y in s ==> y == x || y in s - {x};
      if |x| > rest then |x| else rest
  }

  /** A string no finite set contains: longer than every member. */
  ghost function Fresh(s: set<string>): (v: string)
    ensures v !in s
  {
    seq(MaxLength(s) + 1, _ => 'a')
  }

  lemma {:induction false} MoveToEnd<T>(a: seq<T>, b: seq<T>, c: seq<T>)
    ensures multiset((a + b) + c) == multiset(a + c) + multiset(b)
  {
    assert multiset((a + b) + c) == multiset(a) + multiset(b) + multiset(c);
  }
}
