/**
 * What the media resources of snapcast.py, pulse.py and spotify.py share:
 * Python's `in` on a payload, the iteration over a payload whose elements
 * are then subscripted, and the volume dispatch that snapcast.py and
 * pulse.py both implement, word for word: an action or intent name is
 * matched by substring, in a fixed order, so that an earlier word shadows
 * a later one it contains.
 */
module Dispatch {
  import opened Values
  import opened Strings

  /** What a run of client requests reports to its caller: the error that
      stopped it, if any. */
  function Done(error: Option<PyError>): (r: Outcome<PyError>)
    ensures r.Pass? <==> error.None?
    ensures r.Fail? ==> r.error == error.value
  {
    if error.Some? then Fail(error.value) else Pass
  }

  /** `needle in hay`: a substring of a string, an element of a list, a
      key of a dictionary; anything else is not iterable. */
  function In(needle: string, hay: Value): (r: Result<bool, PyError>)
    ensures r.Err? <==> !(hay.VStr? || hay.VList? || hay.VDict?)
    ensures r.Err? ==> r.error == TypeError
    ensures hay.VStr? ==> r == Ok(Contains(hay.s, needle))
  {
    match hay
    case VStr(s) => Ok(Contains(s, needle))
    case VList(items) => Ok(VStr(needle) in items)
    case VDict(fields) => Ok(needle in fields)
    case _ => Err(TypeError)
  }

  /** The elements of `for x in v` in a loop whose body starts with
      `x[key]`: the items of a list. A non-empty string or dictionary
      yields strings, which raise `TypeError` when subscripted by a string
      before anything else happens; a scalar is not iterable. */
  function Iterate(v: Value): (r: Result<seq<Value>, PyError>)
    ensures r.Err? ==> r.error == TypeError && !Falsy(v)
    ensures v.VList? ==> r == Ok(v.items)
    ensures r.Ok? && !v.VList? ==> r.value == []
  {
    match v
    case VList(items) => Ok(items)
    case VStr(s) => if s == "" then Ok([]) else Err(TypeError)
    case VDict(fields) => if fields == map[] then Ok([]) else Err(TypeError)
    case _ => Err(TypeError)
  }

  /** An empty container. */
  predicate Falsy(v: Value)
  {
    (v.VStr? || v.VList? || v.VDict?) && !Truthy(v)
  }

  /** The volume intents, in the order they are tested. */
  datatype VolumeIntent = Unmute | Mute | Louder | Lower | Level | Ignored

  /** `process_intent`'s dispatch of an intent name: `unmute`, then `mute`,
      `volume_louder`, `volume_lower` and `volume`, each by `in`. */
  function IntentOf(action: Value): (r: Result<VolumeIntent, PyError>)
    ensures r.Err? <==> In("unmute", action).Err?
  {
    var unmute := In("unmute", action);
    if unmute.Err? then Err(unmute.error)
    else if unmute.value then Ok(Unmute)
    else if In("mute", action).value then Ok(Mute)
    else if In("volume_louder", action).value then Ok(Louder)
    else if In("volume_lower", action).value then Ok(Lower)
    else if In("volume", action).value then Ok(Level)
    else Ok(Ignored)
  }

  /** The order of the tests decides: a name mentioning `unmute` also
      mentions `mute` yet unmutes, and one mentioning `volume_louder` or
      `volume_lower` also mentions `volume` yet steps the volume; a name
      that mentions `volume` but neither step nor `mute` sets a level. */
  lemma IntentOrder(s: string)
    ensures Contains(s, "unmute") ==> Contains(s, "mute") && IntentOf(VStr(s)) == Ok(Unmute)
    ensures Contains(s, "volume_louder") ==> Contains(s, "volume")
    ensures Contains(s, "volume_lower") ==> Contains(s, "volume")
    ensures IntentOf(VStr(s)) == Ok(Louder) <==> Contains(s, "volume_louder") && !Contains(s, "mute")
    ensures IntentOf(VStr(s)) == Ok(Level) <==>
              Contains(s, "volume") && !Contains(s, "mute") && !Contains(s, "volume_louder") && !Contains(s, "volume_lower")
    ensures IntentOf(VStr(s)) == Ok(Ignored) <==> !Contains(s, "mute") && !Contains(s, "volume")
  {
    if Contains(s, "unmute") {
      assert OccursAt("unmute", "mute", 2);
      ContainsTransitive(s, "unmute", "mute");
    }
    if Contains(s, "volume_louder") {
      assert OccursAt("volume_louder", "volume", 0);
      ContainsTransitive(s, "volume_louder", "volume");
    }
    if Contains(s, "volume_lower") {
      assert OccursAt("volume_lower", "volume", 0);
      ContainsTransitive(s, "volume_lower", "volume");
    }
  }

  /** The volume actions of `handle_input_action`. */
  datatype VolumeAction = Raise | Reduce | Unknown

  /** `volume_louder` raises, then `volume_quieter` reduces, anything
      else is ignored. */
  function ActionOf(action: Value): (r: Result<VolumeAction, PyError>)
    ensures r.Err? <==> In("volume_louder", action).Err?
    ensures action.VStr? ==>
              r == Ok(if Contains(action.s, "volume_louder") then Raise
                      else if Contains(action.s, "volume_quieter") then Reduce else Unknown)
  {
    var louder := In("volume_louder", action);
    if louder.Err? then Err(louder.error)
    else if louder.value then Ok(Raise)
    else if In("volume_quieter", action).value then Ok(Reduce)
    else Ok(Unknown)
  }
}
