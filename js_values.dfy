/**
 * The slice of JavaScript values that the hotkey hooks inspect: the records read back
 * from the host process, the `initial` and `newDefaults` arguments, and the entries of
 * the `hotkeys` and `enabled` objects. Only the operations the hooks use are defined:
 * truthiness, `typeof v === 'object'`, reading a data property, and object spread.
 */
module JsValues {

  datatype Value =
    | Undefined
    | Null
    | Bool(b: bool)
    | Num(n: int)
    | Str(s: string)
    | Arr(items: seq<Value>)
    | Obj(props: map<string, Value>)

  /** ToBoolean: the test behind `if (v)`, `!v`, `a && b` and `a || b`. */
  predicate Truthy(v: Value) {
    match v
    case Undefined => false
    case Null => false
    case Bool(b) => b
    case Num(n) => n != 0
    case Str(s) => s != ""
    case Arr(_) => true
    case Obj(_) => true
  }

  /** `v && typeof v === 'object'`: a non-null object; arrays are objects too. */
  predicate IsObject(v: Value) {
    v.Arr? || v.Obj?
  }

  /** `a || b` */
  function Or(a: Value, b: Value): (r: Value)
    ensures Truthy(a) ==> r == a
    ensures !Truthy(a) ==> r == b
  {
    if Truthy(a) then a else b
  }

  /** A parameter declared with the default `= {}`: only `undefined` is replaced. */
  function OrEmptyObject(arg: Value): (r: Value)
    ensures r != Undefined
    ensures arg != Undefined ==> r == arg
  {
    if arg.Undefined? then Obj(map[]) else arg
  }

  /**
   * Reading the own data property `name` of `v`. Reading a property of `null` or
   * `undefined` throws, so callers must rule those out. Arrays, strings, numbers and
   * booleans carry no own property of the names the hooks read (`hotkeys`, `enabled`).
   */
  function Field(v: Value, name: string): (r: Value)
    requires v != Null && v != Undefined
    ensures v.Obj? && name in v.props ==> r == v.props[name]
    ensures !(v.Obj? && name in v.props) ==> r == Undefined
  {
    match v
    case Obj(props) => if name in props then props[name] else Undefined
    case _ => Undefined
  }

  function DigitChar(d: nat): (c: char)
    requires d < 10
    ensures '0' <= c <= '9'
  {
    ('0' as int + d) as char
  }

  /** The decimal property key under which an array or string element is spread. */
  function IndexKey(i: nat): (k: string)
    ensures |k| > 0
    ensures forall j :: 0 <= j < |k| ==> '0' <= k[j] <= '9'
    decreases i
  {
    if i < 10 then [DigitChar(i)] else IndexKey(i / 10) + [DigitChar(i % 10)]
  }

  /** The entries `{...s}` produces for an array or string `s`: element `i` under key `IndexKey(i)`. */
  function Indexed(s: seq<Value>): (m: map<string, Value>)
    ensures m == map[] <==> s == []
    ensures forall k :: k in m ==> m[k] in s
    ensures s != [] ==> IndexKey(|s| - 1) in m && m[IndexKey(|s| - 1)] == s[|s| - 1]
  {
    if s == [] then map[]
    else
      var prev := Indexed(s[..|s| - 1]);
      var m := prev[IndexKey(|s| - 1) := s[|s| - 1]];
      assert IndexKey(|s| - 1) in m;
      m
  }

  /**
   * The own enumerable entries that object spread `{...v}` copies out of `v`: the
   * properties of an object, the elements of an array or the characters of a string
   * under their decimal indices, and nothing for any other value.
   */
  function Spread(v: Value): (m: map<string, Value>)
    ensures v.Obj? ==> m == v.props
    ensures !IsObject(v) && !v.Str? ==> m == map[]
    ensures !Truthy(v) ==> m == map[]
    ensures v.Arr? ==> (m == map[] <==> v.items == [])
    ensures v.Str? ==> (m == map[] <==> v.s == "")
  {
    match v
    case Obj(props) => props
    case Arr(items) => Indexed(items)
    case Str(s) => Indexed(seq(|s|, i requires 0 <= i < |s| => Str([s[i]])))
    case _ => map[]
  }

  /** `m[key]` on a plain object: `undefined` when the key is not an own property. */
  function Get(m: map<string, Value>, key: string): (r: Value)
    ensures key in m ==> r == m[key]
    ensures key !in m ==> r == Undefined
  {
    if key in m then m[key] else Undefined
  }

}
