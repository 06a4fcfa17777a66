/**
 * JSON documents as the adapters see them after JSON.parse, and the Ruby
 * operations the adapters apply to the parsed values: Hash#[] and String#[],
 * Hash#dig and Array#dig, Hash#fetch with a default, empty?, truthiness, and
 * string interpolation. Ruby's nil and JSON null are the same value, JNull.
 * An operation Ruby would refuse with NoMethodError or TypeError yields Raises.
 */
module RubyJson {
  import opened Wrappers
  import opened RubyString

  datatype Json =
    | JNull
    | JBool(b: bool)
    | JInt(i: int)
    | JFloat(f: real)
    | JString(s: string)
    | JArray(items: seq<Json>)
    | JObject(fields: map<string, Json>)

  /** JSON.parse, left uninterpreted: None stands for JSON::ParserError. Every
      operation that parses takes the parser as a parameter, so every property
      proved here holds for whatever the JSON library does. */
  type Parser = string -> Option<Json>

  /** The value of a Ruby expression over parsed JSON, or the fact that Ruby
      raised NoMethodError or TypeError while evaluating it. */
  datatype Access = Value(v: Json) | Raises

  /** Ruby truthiness: only nil and false are false. */
  predicate Truthy(v: Json) {
    v != JNull && v != JBool(false)
  }

  /** Ruby's `v || default`. */
  function OrElse(v: Json, default: Json): (r: Json)
    ensures Truthy(v) ==> r == v
    ensures !Truthy(v) ==> r == default
  {
    if Truthy(v) then v else default
  }

  /** Hash#[] on a Hash with string keys: nil for a missing key. */
  function Lookup(m: map<string, Json>, key: string): (r: Json)
    ensures key in m ==> r == m[key]
    ensures key !in m ==> r == JNull
  {
    if key in m then m[key] else JNull
  }

  /** `recv[key]` with a String key: Hash#[] looks the key up; String#[]
      returns the key when it occurs in the string and nil otherwise; Array,
      Integer, Float, nil and booleans refuse a String index. */
  function Index(recv: Json, key: string): (r: Access)
    ensures recv.JObject? ==> r == Value(Lookup(recv.fields, key))
    ensures recv.JString? ==> r == Value(if Contains(recv.s, key) then JString(key) else JNull)
    ensures r.Raises? <==> !(recv.JObject? || recv.JString?)
  {
    match recv
    case JObject(m) => Value(Lookup(m, key))
    case JString(s) => Value(if Contains(s, key) then JString(key) else JNull)
    case _ => Raises
  }

  /** One argument of dig: a String key or an Integer index. */
  datatype Step = Key(name: string) | At(index: int)

  /** Only Hash and Array respond to dig. */
  predicate Diggable(v: Json) {
    v.JObject? || v.JArray?
  }

  /** `recv[step]` as Hash#dig and Array#dig evaluate it: an Integer index
      into a Hash finds nothing (JSON keys are strings), an Array takes Integer
      indices only, counting from the end when negative. */
  function DigStep(recv: Json, step: Step): (r: Access)
    requires Diggable(recv)
    ensures recv.JObject? && step.Key? ==> r == Value(Lookup(recv.fields, step.name))
    ensures recv.JArray? && step.At? && 0 <= step.index < |recv.items| ==> r == Value(recv.items[step.index])
    ensures r.Raises? <==> (recv.JArray? && step.Key?)
  {
    match (recv, step)
    case (JObject(m), Key(k)) => Value(Lookup(m, k))
    case (JObject(_), At(_)) => Value(JNull)
    case (JArray(_), Key(_)) => Raises
    case (JArray(a), At(i)) =>
      if 0 <= i < |a| then Value(a[i])
      else if -|a| <= i < 0 then Value(a[|a| + i])
      else Value(JNull)
  }

  /** `recv.dig(path...)`: stops with nil at the first missing step, and
      raises when the receiver or an intermediate value does not respond to
      dig. */
  function Dig(recv: Json, path: seq<Step>): (r: Access)
    requires path != []
    ensures !Diggable(recv) ==> r == Raises
    decreases |path|
  {
    if !Diggable(recv) then Raises
    else match DigStep(recv, path[0])
      case Raises => Raises
      case Value(v) => if |path| == 1 || v == JNull then Value(v) else Dig(v, path[1..])
  }

  /** Digging a path of keys through nested objects finds the innermost value. */
  lemma {:induction false} DigObjects(recv: Json, path: seq<string>, leaf: Json)
    requires path != []
    requires recv == Nest(path, leaf)
    ensures Dig(recv, KeyPath(path)) == Value(leaf)
    decreases |path|
  {
    if |path| > 1 {
      assert KeyPath(path)[1..] == KeyPath(path[1..]);
      DigObjects(Nest(path[1..], leaf), path[1..], leaf);
    }
  }

  /** The dig path made of the given keys. */
  function KeyPath(keys: seq<string>): (p: seq<Step>)
    ensures |p| == |keys|
    ensures forall i :: 0 <= i < |keys| ==> p[i] == Key(keys[i])
  {
    seq(|keys|, i requires 0 <= i < |keys| => Key(keys[i]))
  }

  /** The object {k1: {k2: ... {kn: leaf}}}. */
  function Nest(keys: seq<string>, leaf: Json): Json
    decreases |keys|
  {
    if keys == [] then leaf else JObject(map[keys[0] := Nest(keys[1..], leaf)])
  }

  /** `recv.fetch(key, default)` with a String key. Note that a key present
      with value nil gives nil, not the default. */
  function Fetch(recv: Json, key: string, default: Json): (r: Access)
    ensures recv.JObject? && key in recv.fields ==> r == Value(recv.fields[key])
    ensures recv.JObject? && key !in recv.fields ==> r == Value(default)
    ensures r.Raises? <==> !recv.JObject?
  {
    match recv
    case JObject(m) => Value(if key in m then m[key] else default)
    case _ => Raises
  }

  /** `v.empty?`: defined on String, Array and Hash only. */
  function IsEmpty(v: Json): (r: Option<bool>)
    ensures r.Some? <==> (v.JString? || v.JArray? || v.JObject?)
    ensures v.JString? ==> r == Some(v.s == "")
  {
    match v
    case JString(s) => Some(s == "")
    case JArray(a) => Some(a == [])
    case JObject(m) => Some(m == map[])
    case _ => None
  }

  /** A value that responds to empty? and is not empty. */
  predicate NonEmpty(v: Json) {
    IsEmpty(v) == Some(false)
  }

  /** `"#{v}"`: strings, integers, booleans and nil render as Ruby renders
      them; floats and containers render as a fixed marker. */
  function Render(v: Json): (r: string)
    ensures v.JString? ==> r == v.s
    ensures v.JInt? ==> r == IntToString(v.i)
  {
    match v
    case JNull => ""
    case JBool(b) => if b then "true" else "false"
    case JInt(i) => IntToString(i)
    case JFloat(_) => "<float>"
    case JString(s) => s
    case JArray(_) => "<array>"
    case JObject(_) => "<object>"
  }
}
