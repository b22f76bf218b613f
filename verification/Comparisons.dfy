/** When the selectors that the admission check accepts really share a label set. The check does not decide
    numeric comparisons (internal/webhook/check.go); here is what they add. */
module Comparisons {
  import opened Basics
  import opened Labels
  import opened Webhook

  predicate IsNumeric(r: Requirement) { r.op.GreaterThan? || r.op.LessThan? }

  predicate IsPositive(r: Requirement) { r.op.Equals? || r.op.DoubleEquals? || r.op.In? }

  const MIN_64: int := -0x8000_0000_0000_0000
  const MAX_64: int := 0x7FFF_FFFF_FFFF_FFFF

  /** The number a comparison compares with; None when it has not exactly one value, or no int64. */
  ghost function BoundOf(r: Requirement): Option<int> {
    if |r.values| != 1 then None
    else
      var b :| b in r.values;
      ParseInt64(b)
  }

  /** The least number above every lower bound on the key. */
  ghost function Lowest(reqs: seq<Requirement>, key: string): int {
    if reqs == [] then MIN_64
    else
      var r, rest := reqs[|reqs| - 1], Lowest(reqs[..|reqs| - 1], key);
      if r.key == key && r.op.GreaterThan? && BoundOf(r).Some? && BoundOf(r).value + 1 > rest
      then BoundOf(r).value + 1 else rest
  }

  /** The greatest number below every upper bound on the key. */
  ghost function Highest(reqs: seq<Requirement>, key: string): int {
    if reqs == [] then MAX_64
    else
      var r, rest := reqs[|reqs| - 1], Highest(reqs[..|reqs| - 1], key);
      if r.key == key && r.op.LessThan? && BoundOf(r).Some? && BoundOf(r).value - 1 < rest
      then BoundOf(r).value - 1 else rest
  }

  ghost predicate Compared(reqs: seq<Requirement>, key: string) {
    exists r :: r in reqs && r.key == key && IsNumeric(r)
  }

  ghost predicate BoundsParse(reqs: seq<Requirement>, key: string) {
    forall r :: r in reqs && r.key == key && IsNumeric(r) ==> BoundOf(r).Some?
  }

  ghost predicate InBounds(reqs: seq<Requirement>, key: string, n: int) {
    forall r :: r in reqs && r.key == key && IsNumeric(r) ==>
      BoundOf(r).Some? && (if r.op.GreaterThan? then n > BoundOf(r).value else n < BoundOf(r).value)
  }

  lemma {:induction false} BoundsAreAnInterval(reqs: seq<Requirement>, key: string, n: int)
    requires BoundsParse(reqs, key) && MIN_64 <= n <= MAX_64
    ensures InBounds(reqs, key, n) <==> Lowest(reqs, key) <= n <= Highest(reqs, key)
  {
    if reqs != [] {
      var front, r := reqs[..|reqs| - 1], reqs[|reqs| - 1];
      assert reqs == front + [r];
      BoundsAreAnInterval(front, key, n);
      assert InBounds(reqs, key, n) <==> InBounds(front, key, n) && InBounds([r], key, n);
      assert r in [r];
    }
  }

  lemma {:induction false} IntervalIs64Bit(reqs: seq<Requirement>, key: string)
    ensures MIN_64 <= Lowest(reqs, key) && Highest(reqs, key) <= MAX_64
  {
    if reqs != [] { IntervalIs64Bit(reqs[..|reqs| - 1], key); }
  }

  ghost predicate AcceptsAll(reqs: seq<Requirement>, key: string, v: Option<string>) {
    forall r :: r in reqs && r.key == key ==> Accepts(r, v)
  }

  ghost predicate AcceptsAllRelaxed(reqs: seq<Requirement>, key: string, v: Option<string>) {
    forall r :: r in reqs && r.key == key ==> AcceptsRelaxed(r, v)
  }

  /** The comparisons on a key leave room: one of the values still allowed lies between the bounds, or, when no
      values are listed, any int64 does. */
  ghost predicate LeavesRoom(reqs: seq<Requirement>, key: string) {
    && BoundsParse(reqs, key)
    && if exists r :: r in reqs && r.key == key && IsPositive(r)
       then exists w :: AcceptsAllRelaxed(reqs, key, Some(w)) && ParseInt64(w).Some?
                        && Lowest(reqs, key) <= ParseInt64(w).value <= Highest(reqs, key)
       else Lowest(reqs, key) <= Highest(reqs, key)
  }

  lemma {:induction false} AcceptsComparison(r: Requirement, w: string)
    requires IsNumeric(r)
    ensures Accepts(r, Some(w)) <==>
            && ParseInt64(w).Some? && BoundOf(r).Some?
            && (if r.op.GreaterThan? then ParseInt64(w).value > BoundOf(r).value
                else ParseInt64(w).value < BoundOf(r).value)
  {
    if |r.values| == 1 {
      var b :| b in r.values;
      assert |r.values - {b}| == 0;
      assert forall c :: c in r.values ==> c == b || c in r.values - {b};
    }
  }

  lemma {:induction false} AcceptedValues(reqs: seq<Requirement>, key: string, w: string)
    requires Compared(reqs, key)
    ensures AcceptsAll(reqs, key, Some(w)) <==>
            AcceptsAllRelaxed(reqs, key, Some(w)) && ParseInt64(w).Some? && InBounds(reqs, key, ParseInt64(w).value)
  {
    forall r | r in reqs && r.key == key && IsNumeric(r)
      ensures Accepts(r, Some(w)) <==>
              && ParseInt64(w).Some? && BoundOf(r).Some?
              && (if r.op.GreaterThan? then ParseInt64(w).value > BoundOf(r).value
                  else ParseInt64(w).value < BoundOf(r).value)
    {
      AcceptsComparison(r, w);
    }
  }

  /** A zero-padded numeral of the number, longer than the given length. */
  ghost function Numeral(n: int, longer: nat): string {
    (if n < 0 then "-" else "") + seq(longer + 1, _ => '0') + Decimal(if n < 0 then -n else n)
  }

  lemma {:induction false} NumeralParses(n: int, longer: nat)
    requires MIN_64 <= n <= MAX_64
    ensures ParseInt64(Numeral(n, longer)) == Some(n) && |Numeral(n, longer)| > longer
  {
    var zeros, digits := seq(longer + 1, _ => '0'), Decimal(if n < 0 then -n else n);
    PaddingIsSilent(longer + 1, digits);
    var w := Numeral(n, longer);
    if n < 0 {
      assert w[0] == '-' && w[1..] == zeros + digits;
    } else {
      assert w[0] == '0' && w == zeros + digits;
    }
  }

  lemma {:induction false} PaddingIsSilent(k: nat, s: string)
    requires Digits(s).Some?
    ensures Digits(seq(k, _ => '0') + s) == Digits(s)
    decreases |s|, k
  {
    var zeros := seq(k, _ => '0');
    if s != "" {
      assert (zeros + s)[..|zeros + s| - 1] == zeros + s[..|s| - 1];
      PaddingIsSilent(k, s[..|s| - 1]);
    } else if k > 0 {
      assert zeros[..k - 1] == seq(k - 1, _ => '0');
      assert zeros + s == zeros && zeros[..k - 1] + s == zeros[..k - 1];
      PaddingIsSilent(k - 1, s);
    } else {
      assert zeros + s == "";
    }
  }

  // ---- One key ------------------------------------------------------------------------

  /** All the values the requirements mention. */
  function Mentioned(reqs: seq<Requirement>): (vs: set<string>)
    ensures forall r, v :: r in reqs && v in r.values ==> v in vs
  {
    if reqs == [] then {}
    else
      assert reqs == reqs[..|reqs| - 1] + [reqs[|reqs| - 1]];
      Mentioned(reqs[..|reqs| - 1]) + reqs[|reqs| - 1].values
  }

  /** A key without listed values takes a fresh numeral between the bounds. */
  lemma {:induction false} FreshNumeralFits(reqs: seq<Requirement>, key: string, v: Option<string>) returns (w: string)
    requires Compared(reqs, key) && BoundsParse(reqs, key) && Lowest(reqs, key) <= Highest(reqs, key)
    requires AcceptsAllRelaxed(reqs, key, v) && !exists r :: r in reqs && r.key == key && IsPositive(r)
    ensures AcceptsAll(reqs, key, Some(w))
  {
    var n, longer := Lowest(reqs, key), MaxLength(Mentioned(reqs));
    IntervalIs64Bit(reqs, key);
    BoundsAreAnInterval(reqs, key, n);
    NumeralParses(n, longer);
    w := Numeral(n, longer);
    assert w !in Mentioned(reqs);
    assert v.Some?;
    AcceptedValues(reqs, key, w);
  }

  lemma {:induction false} RoomIsEnough(
    reqs: seq<Requirement>, key: string, v: Option<string>) returns (u: Option<string>)
    requires AcceptsAllRelaxed(reqs, key, v) && (Compared(reqs, key) ==> LeavesRoom(reqs, key))
    ensures AcceptsAll(reqs, key, u)
  {
    if !Compared(reqs, key) {
      u := v;
    } else if exists r :: r in reqs && r.key == key && IsPositive(r) {
      var w :| AcceptsAllRelaxed(reqs, key, Some(w)) && ParseInt64(w).Some?
        && Lowest(reqs, key) <= ParseInt64(w).value <= Highest(reqs, key);
      BoundsAreAnInterval(reqs, key, ParseInt64(w).value);
      AcceptedValues(reqs, key, w);
      u := Some(w);
    } else {
      var w := FreshNumeralFits(reqs, key, v);
      u := Some(w);
    }
  }

  lemma {:induction false} RoomIsNeeded(reqs: seq<Requirement>, key: string, v: Option<string>)
    requires AcceptsAll(reqs, key, v) && Compared(reqs, key)
    ensures AcceptsAllRelaxed(reqs, key, v) && LeavesRoom(reqs, key)
  {
    assert v.Some?;
    AcceptedValues(reqs, key, v.value);
    BoundsAreAnInterval(reqs, key, ParseInt64(v.value).value);
  }

  // ---- All keys ---------------------------------------------------------------------------

  ghost predicate SomeValue(reqs: seq<Requirement>, key: string) { exists v :: AcceptsAll(reqs, key, v) }

  ghost function ValueFor(reqs: seq<Requirement>, key: string): (v: Option<string>)
    requires SomeValue(reqs, key)
    ensures AcceptsAll(reqs, key, v)
  {
    var v :| AcceptsAll(reqs, key, v);
    v
  }

  lemma {:induction false} ValuesMakeLabels(reqs: seq<Requirement>) returns (ls: LabelSet)
    requires forall key :: SomeValue(reqs, key)
    ensures forall r :: r in reqs ==> Accepts(r, Lookup(ls, r.key))
  {
    var keys := set r | r in reqs :: r.key;
    ls := map key | key in keys && ValueFor(reqs, key).Some? :: ValueFor(reqs, key).value;
    forall r | r in reqs ensures Accepts(r, Lookup(ls, r.key)) {
      assert r.key in keys && Lookup(ls, r.key) == ValueFor(reqs, r.key);
    }
  }

  ghost predicate ShareLabels(a: Selector, b: Selector) { exists ls :: Matches(a, ls) && Matches(b, ls) }

  /** Two selectors share a label set exactly when the check accepts them and the comparisons on every compared key
      leave room. */
  lemma {:induction false} CompatibleIffWitness(a: Selector, b: Selector)
    ensures ShareLabels(a, b) <==>
            && Compatible(a, b)
            && forall key :: Compared(a.reqs + b.reqs, key) ==> LeavesRoom(a.reqs + b.reqs, key)
  {
    if ls :| Matches(a, ls) && Matches(b, ls) {
      assert MatchesRelaxed(a, ls) && MatchesRelaxed(b, ls);
      forall key | Compared(a.reqs + b.reqs, key) ensures LeavesRoom(a.reqs + b.reqs, key) {
        RoomIsNeeded(a.reqs + b.reqs, key, Lookup(ls, key));
      }
    }
    if Compatible(a, b) && forall key :: Compared(a.reqs + b.reqs, key) ==> LeavesRoom(a.reqs + b.reqs, key) {
      RoomMakesLabels(a, b);
    }
  }

  lemma {:induction false} RoomMakesLabels(a: Selector, b: Selector)
    requires Compatible(a, b) && forall key :: Compared(a.reqs + b.reqs, key) ==> LeavesRoom(a.reqs + b.reqs, key)
    ensures ShareLabels(a, b)
  {
    var reqs := a.reqs + b.reqs;
    var relaxed :| MatchesRelaxed(a, relaxed) && MatchesRelaxed(b, relaxed);
    forall key ensures SomeValue(reqs, key) {
      var u := RoomIsEnough(reqs, key, Lookup(relaxed, key));
    }
    var ls := ValuesMakeLabels(reqs);
    assert Matches(a, ls) && Matches(b, ls);
  }

  /** The annotation "key > 5, key < 3" is accepted against a policy that selects every cluster, and no label set
      matches it: the check fails open. */
  lemma {:induction false} NumericFailsOpen(key: string)
    ensures var a := Requirements([Requirement(key, GreaterThan, {"5"}), Requirement(key, LessThan, {"3"})]);
            Compatible(a, Requirements([])) && !ShareLabels(a, Requirements([]))
  {
    var ra, rb := Requirement(key, GreaterThan, {"5"}), Requirement(key, LessThan, {"3"});
    var a, b := Requirements([ra, rb]), Requirements([]);
    var ls: LabelSet := map[key := "4"];
    assert MatchesRelaxed(a, ls) && MatchesRelaxed(b, ls);
    assert "5"[..0] == "" && "3"[..0] == "";
    assert Digits("5") == Some(5) && Digits("3") == Some(3);
    assert ParseInt64("5") == Some(5) && ParseInt64("3") == Some(3);
    forall ls ensures !(Matches(a, ls) && Matches(b, ls)) {
      assert ra in a.reqs && rb in a.reqs;
    }
  }
}
