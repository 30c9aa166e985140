/** The one optional-value datatype the model needs: `None` stands for a
    JavaScript `undefined` property or for a call that threw. */
module Wrappers {
  datatype Option<+T> = None | Some(value: T)

  /** `m[k]` on a JavaScript object used as a dictionary: `None` for a
      missing key. */
  function Get<K, V>(m: map<K, V>, k: K): (r: Option<V>)
    ensures r.Some? <==> k in m
  {
    if k in m then Some(m[k]) else None
  }
}

/** The JavaScript values a parsed JSON reply can hold, with the few language
    operations the bot applies to them: truthiness and the string conversion
    used by template literals and `Array.prototype.join`. */
module Js {
  import opened Wrappers

  /** A JSON value. Numbers are integers in this model. */
  datatype Value =
    | Null
    | Bool(b: bool)
    | Num(n: int)
    | Str(s: string)
    | Arr(items: seq<Value>)
    | Obj(props: map<string, Value>)

  /** A plain object with its own enumerable properties. */
  type Object = map<string, Value>

  /** `!v` in JavaScript: undefined, null, false, 0 and "" are falsy. */
  predicate Falsy(v: Option<Value>)
    ensures Falsy(v) <==> v.None? || v.value in {Null, Bool(false), Num(0), Str("")}
  {
    match v
    case None => true
    case Some(Null) => true
    case Some(Bool(b)) => !b
    case Some(Num(n)) => n == 0
    case Some(Str(s)) => s == ""
    case Some(_) => false
  }

  /** The number a run of decimal digits denotes, most significant first. */
  function DigitsValue(s: string): int
  {
    if s == [] then 0 else 10 * DigitsValue(s[..|s| - 1]) + (s[|s| - 1] as int - '0' as int)
  }

  /** The decimal digit for `k`. */
  function Digit(k: int): (c: char)
    requires 0 <= k < 10
    ensures '0' <= c <= '9' && c as int - '0' as int == k
  {
    ('0' as int + k) as char
  }

  /** The decimal digits of `n`, most significant first: they denote `n` and
      have no leading zero. */
  function NatToDecimal(n: nat): (r: string)
    ensures |r| > 0
    ensures forall i :: 0 <= i < |r| ==> '0' <= r[i] <= '9'
    ensures DigitsValue(r) == n
    ensures r[0] == '0' ==> r == "0"
  {
    if n < 10 then
      assert [Digit(n)][..0] == [];
      [Digit(n)]
    else
      var p := NatToDecimal(n / 10);
      assert (p + [Digit(n % 10)])[..|p|] == p;
      p + [Digit(n % 10)]
  }

  /** `String(n)` for an integral number: a minus sign before the digits of a
      negative number. */
  function IntToDecimal(n: int): (r: string)
    ensures n >= 0 ==> DigitsValue(r) == n && r == NatToDecimal(n)
    ensures n < 0 ==> |r| > 1 && r[0] == '-' && DigitsValue(r[1..]) == -n
    ensures n < 0 ==> r == "-" + NatToDecimal(-n)
  {
    if n < 0 then
      var p := NatToDecimal(-n);
      assert ("-" + p)[1..] == p;
      "-" + p
    else NatToDecimal(n)
  }

  /** `parts.join(sep)`. */
  function Join(parts: seq<string>, sep: string): (r: string)
    ensures |parts| == 0 ==> r == ""
    ensures |parts| == 1 ==> r == parts[0]
    ensures |parts| > 1 ==> parts[0] + sep <= r
  {
    if |parts| == 0 then ""
    else if |parts| == 1 then parts[0]
    else parts[0] + sep + Join(parts[1..], sep)
  }

  /** Joining two non-empty runs of parts is joining each run and putting one
      separator between them. */
  lemma {:induction false} JoinAppend(a: seq<string>, b: seq<string>, sep: string)
    requires |a| > 0 && |b| > 0
    ensures Join(a + b, sep) == Join(a, sep) + sep + Join(b, sep)
  {
    if |a| == 1 {
      assert (a + b)[1..] == b;
    } else {
      assert (a + b)[1..] == a[1..] + b;
      JoinAppend(a[1..], b, sep);
    }
  }

  /** The string a template literal `${v}` produces (ECMAScript ToString).
      An object gives "[object Object]"; an array joins its elements with ",". */
  function ToText(v: Value): (r: string)
    ensures v.Str? ==> r == v.s
    ensures v.Num? && v.n >= 0 ==> DigitsValue(r) == v.n
    ensures v.Num? ==> r == IntToDecimal(v.n)
    ensures v.Arr? && v.items == [] ==> r == ""
    decreases v, 1
  {
    match v
    case Null => "null"
    case Bool(b) => if b then "true" else "false"
    case Num(n) => IntToDecimal(n)
    case Str(s) => s
    case Arr(items) => Join(seq(|items|, i requires 0 <= i < |items| => ElementText(items[i])), ",")
    case Obj(_) => "[object Object]"
  }

  /** How `Array.prototype.join` renders one element: null becomes "". */
  function ElementText(v: Value): (r: string)
    ensures v.Null? ==> r == ""
    ensures v.Str? ==> r == v.s
    ensures v.Num? ==> r == IntToDecimal(v.n)
    decreases v, 2
  {
    if v.Null? then "" else ToText(v)
  }

  /** `${v}` where `v` may be `undefined`. */
  function TemplateText(v: Option<Value>): (r: string)
    ensures v.None? ==> r == "undefined"
    ensures v.Some? && v.value.Str? ==> r == v.value.s
    ensures v.Some? && v.value.Num? && v.value.n >= 0 ==> DigitsValue(r) == v.value.n
    ensures v.Some? && v.value.Num? ==> r == IntToDecimal(v.value.n)
  {
    match v
    case None => "undefined"
    case Some(x) => ToText(x)
  }
}
