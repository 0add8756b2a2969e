/**
 * Dynamic values exchanged between resources: the nested dictionaries that
 * `get_state`, `set_state` and `notify` carry, Python's truthiness on them,
 * and the two kinds of dictionary access the resources use (`d[k]` and
 * `d.get(k, default)`), with the built-in exceptions they can raise.
 */
module Values {

  datatype Option<+T> = None | Some(value: T)

  datatype Result<+T, +E> = Ok(value: T) | Err(error: E)

  datatype Outcome<+E> = Pass | Fail(error: E)

  /** One converted item, or nothing, in front of the conversion of the
      items after it; the earlier failure wins. */
  function Prepend<T, E>(first: Result<Option<T>, E>, rest: Result<seq<T>, E>): (r: Result<seq<T>, E>)
    ensures r.Ok? ==> rest.Ok? && |r.value| <= |rest.value| + 1
    ensures first.Err? ==> r == Err(first.error)
  {
    if first.Err? then Err(first.error)
    else if rest.Err? then rest
    else Ok((if first.value.Some? then [first.value.value] else []) + rest.value)
  }

  /** Python built-in exceptions that can escape from the modelled code. */
  datatype PyError = KeyError | TypeError | AttributeError | IndexError | ValueError | RuntimeError

  /** A state payload: `None`, a scalar, a list or a string-keyed dictionary. */
  datatype Value =
    | VNone
    | VBool(b: bool)
    | VInt(i: int)
    | VStr(s: string)
    | VList(items: seq<Value>)
    | VDict(fields: map<string, Value>)

  /** Python's truth value of a payload. */
  predicate Truthy(v: Value)
  {
    match v
    case VNone => false
    case VBool(b) => b
    case VInt(i) => i != 0
    case VStr(s) => s != ""
    case VList(items) => items != []
    case VDict(fields) => fields != map[]
  }

  /** `v[key]` on a payload: a dictionary lookup, `KeyError` when the key is
      missing and `TypeError` when `v` cannot be subscripted by a string. */
  function Subscript(v: Value, key: string): (r: Result<Value, PyError>)
    ensures r.Ok? <==> v.VDict? && key in v.fields
    ensures r.Ok? ==> r.value == v.fields[key]
    ensures r.Err? ==> r.error == (if v.VDict? then KeyError else TypeError)
  {
    if !v.VDict? then Err(TypeError)
    else if key in v.fields then Ok(v.fields[key])
    else Err(KeyError)
  }

  /** `v.get(key, default)`: only dictionaries have `get`. */
  function GetOr(v: Value, key: string, default: Value): (r: Result<Value, PyError>)
    ensures r.Ok? <==> v.VDict?
    ensures r.Ok? ==> r.value == (if key in v.fields then v.fields[key] else default)
    ensures r.Err? ==> r.error == AttributeError
  {
    if !v.VDict? then Err(AttributeError)
    else if key in v.fields then Ok(v.fields[key])
    else Ok(default)
  }

  /** A string-keyed payload built from one entry. */
  function Single(key: string, v: Value): (r: Value)
    ensures r.VDict? && r.fields.Keys == {key} && r.fields[key] == v
  {
    VDict(map[key := v])
  }

  /** Regrouping a concatenation, for loops that build a sequence piece by
      piece. */
  lemma Associative<T>(a: seq<T>, b: seq<T>, c: seq<T>)
    ensures (a + b) + c == a + (b + c)
  {
  }
}
