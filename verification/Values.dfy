/** Nested configuration values, as a YAML or JSON loader hands them to the program. */
module Values {

  datatype Option<+T> = None | Some(value: T)

  datatype Result<+T, +E> = Ok(value: T) | Err(error: E)

  datatype Value =
    | Null
    | Bool(b: bool)
    | Int(i: int)
    | Float(r: real)
    | Str(s: string)
    | List(items: seq<Value>)
    | Dict(fields: map<string, Value>)

  /** A lookup that answers null for an absent key. */
  function Get<K>(m: map<K, Value>, key: K): Value {
    if key in m then m[key] else Null
  }

  predicate Truthy(v: Value) {
    match v
    case Null => false
    case Bool(b) => b
    case Int(i) => i != 0
    case Float(r) => r != 0.0
    case Str(s) => s != ""
    case List(l) => l != []
    case Dict(m) => m != map[]
  }

  /** Numbers of every type, booleans included, compare by magnitude. */
  function Numeric(v: Value): Option<real> {
    match v
    case Bool(b) => Some(if b then 1.0 else 0.0)
    case Int(i) => Some(i as real)
    case Float(r) => Some(r)
    case _ => None
  }

  /** Equality of nested values as the source language decides it: `True == 1 == 1.0`. */
  predicate SameValue(a: Value, b: Value) {
    match (a, b)
    case (Null, Null) => true
    case (Str(s), Str(t)) => s == t
    case (List(l), List(m)) => |l| == |m| && forall i :: 0 <= i < |l| ==> SameValue(l[i], m[i])
    case (Dict(l), Dict(m)) => l.Keys == m.Keys && forall k :: k in l ==> SameValue(l[k], m[k])
    case _ => Numeric(a).Some? && Numeric(a) == Numeric(b)
  }

  predicate IsSpace(c: char) {
    c in " \t\n\r" || c == '\U{B}' || c == '\U{C}' || c == '\U{A0}' || c == '\U{3000}'
  }

  /** The text without leading and trailing white space. */
  function Strip(s: string): string {
    if s == "" then s
    else if IsSpace(s[0]) then Strip(s[1..])
    else if IsSpace(s[|s| - 1]) then Strip(s[..|s| - 1])
    else s
  }
}
