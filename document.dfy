/**
 * A loaded YAML/JSON document: the generic key-value value that
 * `from_dict` reads and `to_dict` produces.
 */
module Document {
  import opened Wrappers
  import Assoc

  datatype Value =
    | Null
    | Bool(b: bool)
    | Num(n: real)
    | Str(s: string)
    | List(items: seq<Value>)
    | Dict(entries: seq<(string, Value)>)

  /** `d.get(key, default)`. */
  function Get(entries: seq<(string, Value)>, key: string, default: Value): Value {
    Assoc.Lookup(entries, key).GetOr(default)
  }

  /** Python's `for x in v`: a list yields its items, a dict its keys, a string its characters. */
  function Iterate(v: Value): (r: Result<seq<Value>>)
    ensures v.List? ==> r == Success(v.items)
    ensures (v.Null? || v.Bool? || v.Num?) ==> r.Failure?
  {
    match v
    case List(items) => Success(items)
    case Dict(entries) => Success(KeyStrings(Assoc.Keys(entries)))
    case Str(s) => Success(CharStrings(s))
    case _ => Failure(TypeError("object is not iterable"))
  }

  function KeyStrings(ks: seq<string>): (r: seq<Value>)
    ensures |r| == |ks|
  {
    if ks == [] then [] else [Str(ks[0])] + KeyStrings(ks[1..])
  }

  function CharStrings(s: string): (r: seq<Value>)
    ensures |r| == |s|
  {
    if s == [] then [] else [Str([s[0]])] + CharStrings(s[1..])
  }

  /** A list of strings, as a document. */
  function StrList(xs: seq<string>): (r: seq<Value>)
    ensures |r| == |xs|
    ensures forall i | 0 <= i < |xs| :: r[i] == Str(xs[i])
  {
    if xs == [] then [] else [Str(xs[0])] + StrList(xs[1..])
  }

  /** A string-to-string mapping, as a document. */
  function StrEntries(m: seq<(string, string)>): (r: seq<(string, Value)>)
    ensures |r| == |m|
    ensures forall i | 0 <= i < |m| :: r[i] == (m[i].0, Str(m[i].1))
  {
    if m == [] then [] else [(m[0].0, Str(m[0].1))] + StrEntries(m[1..])
  }
}
