/**
 * Ruby values as the four Ashmont classes see them: hash keys that are
 * either symbols or strings, scalar attribute values, nested payload hashes,
 * and the two tests Ruby code applies to them (truthiness and `present?`).
 */
module Values {

  datatype Option<+T> = None | Some(value: T)

  /** A hash key: `:number` and `"number"` are different keys in Ruby. */
  datatype Key = Sym(name: string) | Str(name: string)

  /** A scalar value of an attribute bag; `Nil` is Ruby's `nil`. */
  datatype Value = Nil | Bool(b: bool) | Num(n: int) | Text(s: string)

  /** A request payload: a scalar, or a nested hash. */
  datatype Payload = Leaf(v: Value) | Node(fields: map<Key, Payload>)

  /** `attributes[key]`: a missing key reads as nil. */
  function Lookup(attributes: map<Key, Value>, key: Key): Value
  {
    if key in attributes then attributes[key] else Nil
  }

  /** Ruby truthiness: everything but `nil` and `false`. */
  predicate Truthy(v: Value)
  {
    !(v.Nil? || v == Bool(false))
  }

  predicate IsWhitespace(c: char)
  {
    c == ' ' || c == '\t' || c == '\n' || c == '\r' || c == 11 as char || c == 12 as char
  }

  /** `String#blank?`: empty or whitespace only. */
  predicate BlankText(s: string)
  {
    forall i :: 0 <= i < |s| ==> IsWhitespace(s[i])
  }

  /** `present?`: nil, false and blank strings are absent; numbers, true and other strings are present. */
  predicate Present(v: Value)
  {
    match v
    case Nil => false
    case Bool(b) => b
    case Num(_) => true
    case Text(s) => !BlankText(s)
  }

  /** Decimal digits of a natural number, most significant first. */
  function NatToString(n: nat): (s: string)
    ensures |s| > 0
    ensures forall i :: 0 <= i < |s| ==> '0' <= s[i] <= '9'
    decreases n
  {
    var d := [(('0' as int) + n % 10) as char];
    if n < 10 then d else NatToString(n / 10) + d
  }

  /** `to_s` of a scalar: nil gives the empty string. */
  function ToS(v: Value): string
  {
    match v
    case Nil => ""
    case Bool(b) => if b then "true" else "false"
    case Num(n) => if n < 0 then "-" + NatToString(-n) else NatToString(n)
    case Text(s) => s
  }
}
