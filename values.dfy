/** Python-level values that flow through the configuration chain, and the
    small text functions (`str.lower`, `str.upper`, `str.join`) the chain uses. */
module Values {

  datatype Result<+T, +E> = Ok(value: T) | Err(error: E)

  datatype Outcome<+E> = Pass | Fail(error: E)

  /** A value as `json.loads` produces it. `Null` is Python's `None`, which is
      also what `dict.get` and `os.getenv` return for an absent key. */
  datatype Value =
    | Null
    | Bool(b: bool)
    | Num(n: int)
    | Str(s: string)
    | Array(items: seq<Value>)
    | Object(fields: map<string, Value>)

  /** The exceptions the chain raises or catches. */
  datatype Error =
    | ClientError(code: string)       // botocore.exceptions.ClientError
    | JsonDecodeError                 // json.loads on a malformed SecretString
    | KeyError(key: string)           // a missing field in a service response
    | AttributeError(attr: string)    // a method called on a value that lacks it
    | RuntimeError(message: string)   // raised by the service's own checks
    | OtherError(name: string)        // any other exception from a foreign call

  /** Python truthiness, as `if not x` and `x or y` test it. */
  predicate Truthy(v: Value) {
    match v
    case Null => false
    case Bool(b) => b
    case Num(n) => n != 0
    case Str(s) => s != ""
    case Array(items) => items != []
    case Object(fields) => fields != map[]
  }

  /** `d.get(key)`: the entry, or None when the key is absent. */
  function Get<K>(d: map<K, Value>, key: K): Value {
    if key in d then d[key] else Null
  }

  /** `os.getenv(name, None)` over the process environment. */
  function EnvGet(env: map<string, string>, name: string): (v: Value)
    ensures v.Null? <==> name !in env
    ensures name in env ==> v == Str(env[name])
  {
    if name in env then Str(env[name]) else Null
  }

  function LowerChar(c: char): char {
    if 'A' <= c <= 'Z' then (c as int + 32) as char else c
  }

  function UpperChar(c: char): char {
    if 'a' <= c <= 'z' then (c as int - 32) as char else c
  }

  /** `s.lower()`, restricted to ASCII letters. */
  function Lower(s: string): (r: string)
    ensures |r| == |s|
  {
    seq(|s|, i requires 0 <= i < |s| => LowerChar(s[i]))
  }

  /** `s.upper()`, restricted to ASCII letters. */
  function Upper(s: string): (r: string)
    ensures |r| == |s|
  {
    seq(|s|, i requires 0 <= i < |s| => UpperChar(s[i]))
  }

  /** Lowering twice is lowering once: a tag produced by `Lower` is already in lower case. */
  lemma LowerIdempotent(s: string)
    ensures Lower(Lower(s)) == Lower(s)
  {
  }

  /** `sep.join(xs)`. */
  function Join(xs: seq<string>, sep: string): string
    decreases |xs|
  {
    if |xs| == 0 then ""
    else if |xs| == 1 then xs[0]
    else xs[0] + sep + Join(xs[1..], sep)
  }

  /** `sub` occurs in `s` starting at index `i`. */
  predicate OccursAt(s: string, sub: string, i: int) {
    0 <= i && i + |sub| <= |s| && s[i..i + |sub|] == sub
  }

  /** `sub in s` for strings. */
  predicate Contains(s: string, sub: string) {
    exists i | 0 <= i <= |s| :: OccursAt(s, sub, i)
  }

  lemma OccursAfterPrefix(a: string, b: string, sub: string, i: int)
    requires OccursAt(b, sub, i)
    ensures OccursAt(a + b, sub, |a| + i)
  {
  }

  lemma OccursBeforeSuffix(a: string, b: string, sub: string, i: int)
    requires OccursAt(a, sub, i)
    ensures OccursAt(a + b, sub, i)
  {
  }

  /** Every element of a joined list can be found in the joined string. */
  lemma {:induction false} JoinContainsEach(xs: seq<string>, sep: string, x: string)
    requires x in xs
    ensures Contains(Join(xs, sep), x)
    decreases |xs|
  {
    if |xs| == 1 {
      assert OccursAt(Join(xs, sep), x, 0);
    } else if xs[0] == x {
      assert OccursAt(x, x, 0);
      OccursBeforeSuffix(x, sep + Join(xs[1..], sep), x, 0);
      assert x + sep + Join(xs[1..], sep) == x + (sep + Join(xs[1..], sep));
    } else {
      JoinContainsEach(xs[1..], sep, x);
      var i :| OccursAt(Join(xs[1..], sep), x, i);
      OccursAfterPrefix(xs[0] + sep, Join(xs[1..], sep), x, i);
    }
  }

  /** `a` keeps the order of `b`: it is `b` with some elements dropped. */
  predicate IsSubsequence<T(==)>(a: seq<T>, b: seq<T>)
    decreases |b|
  {
    if a == [] then true
    else if b == [] then false
    else (a[0] == b[0] && IsSubsequence(a[1..], b[1..])) || IsSubsequence(a, b[1..])
  }
}
