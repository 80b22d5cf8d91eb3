/**
 * Decoded JSON values, and the few Python operations the gateways apply to them:
 * truthiness, `key in value`, and `dict.get` with a default.
 */
module Json {
  import opened Wrappers

  /** A decoded JSON document (numbers are integers; see README for floats). */
  datatype Value =
    | Null
    | Bool(b: bool)
    | Int(i: int)
    | Str(s: string)
    | Arr(items: seq<Value>)
    | Obj(fields: map<string, Value>)

  /** Python's `bool(v)`: null, false, 0 and empty containers are falsy. */
  predicate Truthy(v: Value)
    ensures Truthy(v) <==> v !in {Null, Bool(false), Int(0), Str(""), Arr([]), Obj(map[])}
  {
    match v
    case Null => false
    case Bool(b) => b
    case Int(i) => i != 0
    case Str(s) => s != ""
    case Arr(items) => items != []
    case Obj(fields) => fields != map[]
  }

  /** `needle` occurs as a contiguous piece of `hay`. */
  predicate Occurs(needle: string, hay: string)
    decreases |hay|
  {
    needle <= hay || (hay != [] && Occurs(needle, hay[1..]))
  }

  /** `Occurs` finds `needle` exactly when it starts at some position of `hay`. */
  lemma {:induction false} OccursAt(needle: string, hay: string)
    ensures Occurs(needle, hay) <==> exists i :: 0 <= i <= |hay| && needle <= hay[i..]
    decreases |hay|
  {
    if hay != [] {
      OccursAt(needle, hay[1..]);
      if exists i :: 0 <= i <= |hay| && needle <= hay[i..] {
        var i :| 0 <= i <= |hay| && needle <= hay[i..];
        if i > 0 {
          assert needle <= hay[1..][i - 1..];
        } else {
          assert hay[i..] == hay;
        }
      }
      if Occurs(needle, hay) {
        if needle <= hay {
          assert needle <= hay[0..];
        } else {
          var j :| 0 <= j <= |hay[1..]| && needle <= hay[1..][j..];
          assert hay[1..][j..] == hay[j + 1..];
        }
      }
    } else {
      assert forall i :: 0 <= i <= |hay| ==> hay[i..] == hay;
    }
  }

  /**
   * Python's `key in v`: key membership for a dict, element membership for a list,
   * substring test for a string; `None` stands for the TypeError raised on the other values.
   */
  function Contains(v: Value, key: string): (r: Option<bool>)
    ensures r.None? <==> !(v.Obj? || v.Arr? || v.Str?)
    ensures v.Obj? ==> r == Some(key in v.fields)
    ensures v.Arr? ==> r == Some(Str(key) in v.items)
    ensures v.Str? ==> r == Some(exists i :: 0 <= i <= |v.s| && key <= v.s[i..])
  {
    match v
    case Obj(fields) => Some(key in fields)
    case Arr(items) => Some(Str(key) in items)
    case Str(s) => OccursAt(key, s); Some(Occurs(key, s))
    case _ => None
  }

  /**
   * Python's `v.get(key, default)`: the stored value when present, else `default`;
   * `None` stands for the AttributeError raised when `v` is not a dict.
   */
  function GetOr(v: Value, key: string, default: Value): (r: Option<Value>)
    ensures r.Some? <==> v.Obj?
    ensures v.Obj? && key in v.fields ==> r == Some(v.fields[key])
    ensures v.Obj? && key !in v.fields ==> r == Some(default)
  {
    if v.Obj? then Some(if key in v.fields then v.fields[key] else default) else None
  }
}
