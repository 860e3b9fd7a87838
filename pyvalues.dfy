/**
  The few pieces of Python's object model that the data-source code leans on:
  the values a parsed configuration holds, truthiness (`if not x`), `dict.get`,
  `str()` as used by `str.format`, and a dictionary object that callers share
  and that the validators update in place.
 */
module PyValues {

  /** A value of a parsed configuration or of a query-parameter dictionary. */
  datatype Value =
    | PyNone
    | PyBool(b: bool)
    | PyInt(i: int)
    | PyStr(s: string)
    | PyDict(entries: map<string, Value>)
    | PyList(items: seq<Value>)

  /** Python truthiness: None, False, 0 and empty strings, dicts and lists are falsy. */
  predicate Truthy(v: Value) {
    match v
    case PyNone => false
    case PyBool(b) => b
    case PyInt(i) => i != 0
    case PyStr(s) => |s| > 0
    case PyDict(d) => |d| > 0
    case PyList(xs) => |xs| > 0
  }

  /** `d.get(key)`: the stored value, or None when the key is absent. */
  function Get(d: map<string, Value>, key: string): Value {
    if key in d then d[key] else PyNone
  }

  predicate IsDigit(c: char) {
    '0' <= c <= '9'
  }

  /** The number a string of decimal digits denotes. */
  function DigitsValue(s: string): nat
    requires forall k :: 0 <= k < |s| ==> IsDigit(s[k])
  {
    if s == [] then 0
    else
      assert IsDigit(s[|s| - 1]);
      DigitsValue(s[..|s| - 1]) * 10 + (s[|s| - 1] as int - '0' as int)
  }

  /** A non-empty string of decimal digits with no leading zero: "0" is the only one starting with '0'. */
  predicate Canonical(s: string) {
    && |s| > 0
    && (forall k :: 0 <= k < |s| ==> IsDigit(s[k]))
    && (s[0] == '0' ==> s == "0")
  }

  /** `s` is Python's decimal text for `i`: an optional '-' (for negatives only), then canonical digits. */
  predicate DecimalText(i: int, s: string) {
    if i < 0 then |s| > 1 && s[0] == '-' && Canonical(s[1..]) && DigitsValue(s[1..]) == -i
    else Canonical(s) && DigitsValue(s) == i
  }

  /** Digits whose first one is not '0' denote a positive number. */
  lemma {:induction false} LeadingNonzeroIsPositive(s: string)
    requires |s| > 0 && (forall k :: 0 <= k < |s| ==> IsDigit(s[k])) && s[0] != '0'
    ensures DigitsValue(s) >= 1
    decreases |s|
  {
    if |s| > 1 {
      LeadingNonzeroIsPositive(s[..|s| - 1]);
    }
  }

  /** A number has one canonical digit string. */
  lemma {:induction false} CanonicalDigitsUnique(s: string, t: string)
    requires Canonical(s) && Canonical(t) && DigitsValue(s) == DigitsValue(t)
    ensures s == t
    decreases |s| + |t|
  {
    var s', t' := s[..|s| - 1], t[..|t| - 1];
    assert IsDigit(s[|s| - 1]) && IsDigit(t[|t| - 1]);
    var ds, dt := s[|s| - 1] as int - '0' as int, t[|t| - 1] as int - '0' as int;
    assert DigitsValue(s) == DigitsValue(s') * 10 + ds;
    assert DigitsValue(t) == DigitsValue(t') * 10 + dt;
    assert DigitsValue(s') == DigitsValue(t') && ds == dt;
    if |s'| == 0 && |t'| > 0 {
      LeadingNonzeroIsPositive(t');
    } else if |s'| > 0 && |t'| == 0 {
      LeadingNonzeroIsPositive(s');
    } else if |s'| > 0 {
      CanonicalDigitsUnique(s', t');
      assert s == s' + [s[|s| - 1]] && t == t' + [t[|t| - 1]];
    } else {
      assert s == [s[0]] && t == [t[0]];
    }
  }

  /** An integer has one decimal text. */
  lemma DecimalTextUnique(i: int, s: string, t: string)
    requires DecimalText(i, s) && DecimalText(i, t)
    ensures s == t
  {
    if i < 0 {
      CanonicalDigitsUnique(s[1..], t[1..]);
      assert s == s[..1] + s[1..] && t == t[..1] + t[1..];
    } else {
      CanonicalDigitsUnique(s, t);
    }
  }

  /** `str(n)` for a non-negative integer: its decimal digits, no leading zero. */
  function NatString(n: nat): (r: string)
    ensures |r| > 0
    ensures forall k :: 0 <= k < |r| ==> IsDigit(r[k])
    ensures r[0] == '0' ==> n == 0
    ensures DigitsValue(r) == n
    ensures Canonical(r)
  {
    var last := [(('0' as int) + n % 10) as char];
    if n < 10 then
      last
    else
      var front := NatString(n / 10);
      var r := front + last;
      assert r[..|r| - 1] == front;
      r
  }

  /** `str(i)` for any integer. */
  function DecimalString(i: int): (r: string)
    ensures |r| > 0
    ensures i < 0 <==> r[0] == '-'
    ensures 0 <= i ==> (forall k :: 0 <= k < |r| ==> IsDigit(r[k])) && DigitsValue(r) == i
    ensures i < 0 ==> (forall k :: 1 <= k < |r| ==> IsDigit(r[k])) && DigitsValue(r[1..]) == -i
    ensures r[0] == '0' ==> i == 0
    ensures i < 0 ==> |r| > 1 && r[1] != '0'
    ensures DecimalText(i, r)
  {
    if i < 0 then
      var digits := NatString(-i);
      assert ("-" + digits)[1..] == digits;
      "-" + digits
    else NatString(i)
  }

  /**
    `str(v)` as `"{}".format(v)` renders it. Scalars are rendered as Python
    does; containers are rendered as fixed placeholders (see the README).
   */
  function Str(v: Value): (r: string)
    ensures v.PyStr? ==> r == v.s
    ensures v == PyNone ==> r == "None"
    ensures v.PyBool? ==> r == (if v.b then "True" else "False")
    ensures v.PyInt? && 0 <= v.i ==> (forall k :: 0 <= k < |r| ==> IsDigit(r[k])) && DigitsValue(r) == v.i
    ensures v.PyInt? && v.i < 0 ==> |r| > 0 && r[0] == '-' && (forall k :: 1 <= k < |r| ==> IsDigit(r[k])) && DigitsValue(r[1..]) == -v.i
    // An int is rendered as its one canonical decimal text (see DecimalTextUnique).
    ensures v.PyInt? ==> DecimalText(v.i, r)
  {
    match v
    case PyNone => "None"
    case PyBool(b) => if b then "True" else "False"
    case PyInt(i) => DecimalString(i)
    case PyStr(s) => s
    case PyDict(_) => "<dict>"
    case PyList(_) => "<list>"
  }

  /**
    A Python `dict` object with string keys. Callers hand the same object to
    the data source, which writes defaults into it, so it is a reference.
   */
  class Dict {
    var items: map<string, Value>

    constructor (items: map<string, Value>)
      ensures this.items == items
    {
      this.items := items;
    }

    /** `d[key] = v` */
    method Set(key: string, v: Value)
      modifies this
      ensures items == old(items)[key := v]
    {
      items := items[key := v];
    }
  }
}
