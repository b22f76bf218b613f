/** Label sets and selectors with the matching rules of k8s.io/apimachinery/pkg/labels. */
module Labels {
  import opened Basics

  type LabelSet = map<string, string>

  datatype Operator =
    | Equals | DoubleEquals | In
    | NotEquals | NotIn
    | Exists | DoesNotExist
    | GreaterThan | LessThan

  datatype Requirement = Requirement(key: string, op: Operator, values: set<string>)

  /** Nothing is labels.Nothing(): it has no requirements to list and matches no label set. */
  datatype Selector = Nothing | Requirements(reqs: seq<Requirement>)

  /** The result of converting an API label selector: the conversion can fail. */
  datatype SelectorSpec = Invalid | Valid(selector: Selector)

  function Lookup(ls: LabelSet, key: string): Option<string> {
    if key in ls then Some(ls[key]) else None
  }

  function Digits(s: string): (n: Option<nat>) {
    if s == "" then Some(0)
    else if !('0' <= s[|s| - 1] <= '9') then None
    else
      match Digits(s[..|s| - 1])
      case None => None
      case Some(n) => Some(10 * n + (s[|s| - 1] as int - '0' as int))
  }

  /** The decimal digits of a number. */
  function Decimal(n: nat): (s: string)
    ensures s != "" && Digits(s) == Some(n)
  {
    var last := ['0' + (n % 10) as char];
    assert last[..0] == "";
    if n < 10 then last
    else
      var front := Decimal(n / 10);
      assert (front + last)[..|front|] == front;
      front + last
  }

  /** strconv.ParseInt(s, 10, 64). */
  function ParseInt64(s: string): Option<int> {
    var negative := s != "" && s[0] == '-';
    var body := if s != "" && (s[0] == '-' || s[0] == '+') then s[1..] else s;
    if body == "" then None
    else
      match Digits(body)
      case None => None
      case Some(n) =>
        var v := if negative then 0 - n as int else n as int;
        if -0x8000_0000_0000_0000 <= v < 0x8000_0000_0000_0000 then Some(v) else None
  }

  predicate Compares(op: Operator, value: string, bound: string) {
    var v, b := ParseInt64(value), ParseInt64(bound);
    v.Some? && b.Some? && (if op.GreaterThan? then v.value > b.value else v.value < b.value)
  }

  /** What a requirement demands of the value under its key; None is an absent key. */
  predicate Accepts(r: Requirement, v: Option<string>) {
    match r.op
    case Equals | DoubleEquals | In => v.Some? && v.value in r.values
    case NotEquals | NotIn => v.None? || v.value !in r.values
    case Exists => v.Some?
    case DoesNotExist => v.None?
    case GreaterThan | LessThan =>
      v.Some? && |r.values| == 1 && exists b :: b in r.values && Compares(r.op, v.value, b)
  }

  predicate Matches(sel: Selector, ls: LabelSet) {
    sel.Requirements? && forall r :: r in sel.reqs ==> Accepts(r, Lookup(ls, r.key))
  }

  /** An invalid selector matches nothing. */
  predicate SpecMatches(spec: SelectorSpec, ls: LabelSet) {
    spec.Valid? && Matches(spec.selector, ls)
  }
}
