/**
 * The Spotify resource of spotify.py: input actions and recognised
 * intents are matched by substring, in a fixed order, onto playback
 * requests addressed to one device; a `play_music` intent builds a search
 * term from the entities and plays the tracks found.
 *
 * The Spotify client is the outside world: the commands and searches
 * sent to it are a log; its answers (the device listing, the current playback, what a
 * search finds) are parameters. The search is a function from the query
 * and the result types to the URIs the answer holds.
 */
module Spotify {
  import opened Values
  import opened Strings
  import opened Service
  import opened StateChange
  import opened Dispatch

  const INTENT: string := "/speech/intent"
  const INPUT: string := "/input"

  /** A request made of the client; `device` is the device id, possibly
      `None`. `StartPlayback` without URIs resumes; with an empty list it
      stops. */
  datatype Command =
    | NextTrack(device: Value)
    | PreviousTrack(device: Value)
    | StartPlayback(device: Value, uris: Option<seq<string>>)
    | PausePlayback(device: Value)
    | Shuffle(on: bool, device: Value)
    | Repeat(mode: string, device: Value)
    | Search(query: string, kind: string, limit: int)

  /** `device` and `limit`. */
  datatype Settings = Settings(device: string, limit: int)

  /** Where a run of requests stopped: the commands sent, and the error
      raised, if any. */
  datatype Run = Run(log: seq<Command>, error: Option<PyError>)

  // ---------------------------------------------------------------- dispatch

  /** The private playback methods a name can select. */
  datatype Control =
    | SkipTrack | PreviousTrackOf | StopMusic | ToggleMusic | PauseMusic | ResumeMusic
    | PlayMusic | UnshuffleMusic | ShuffleMusic | UnloopMusic | LoopMusic | Other

  /** `handle_input_action`'s dispatch: `skip_track`, `previous_track`,
      `stop`, `playpause`, `pause`, `resume`, each by `in`. */
  function InputControl(action: Value): (r: Result<Control, PyError>)
    ensures r.Err? <==> In("skip_track", action).Err?
    ensures r.Ok? ==> r.value in {SkipTrack, PreviousTrackOf, StopMusic, ToggleMusic, PauseMusic, ResumeMusic, Other}
  {
    var skip := In("skip_track", action);
    if skip.Err? then Err(skip.error)
    else if skip.value then Ok(SkipTrack)
    else if In("previous_track", action).value then Ok(PreviousTrackOf)
    else if In("stop", action).value then Ok(StopMusic)
    else if In("playpause", action).value then Ok(ToggleMusic)
    else if In("pause", action).value then Ok(PauseMusic)
    else if In("resume", action).value then Ok(ResumeMusic)
    else Ok(Other)
  }

  /** `handle_intent`'s dispatch: `skip_track`, `previous_track`, `stop`,
      `pause`, `resume`, `play_music`, `unshuffle`, `shuffle`, `unloop`,
      `loop`, each by `in`. */
  function IntentControl(action: Value): (r: Result<Control, PyError>)
    ensures r.Err? <==> In("skip_track", action).Err?
    ensures r != Ok(ToggleMusic)
  {
    var skip := In("skip_track", action);
    if skip.Err? then Err(skip.error)
    else if skip.value then Ok(SkipTrack)
    else if In("previous_track", action).value then Ok(PreviousTrackOf)
    else if In("stop", action).value then Ok(StopMusic)
    else if In("pause", action).value then Ok(PauseMusic)
    else if In("resume", action).value then Ok(ResumeMusic)
    else if In("play_music", action).value then Ok(PlayMusic)
    else if In("unshuffle", action).value then Ok(UnshuffleMusic)
    else if In("shuffle", action).value then Ok(ShuffleMusic)
    else if In("unloop", action).value then Ok(UnloopMusic)
    else if In("loop", action).value then Ok(LoopMusic)
    else Ok(Other)
  }

  /** Names an earlier test of both dispatches catches before `playpause`
      or `pause`. */
  predicate Transport(s: string)
  {
    Contains(s, "skip_track") || Contains(s, "previous_track") || Contains(s, "stop")
  }

  /** An input action naming `playpause` also names `pause`, yet toggles;
      `pause` alone pauses. */
  lemma InputOrder(s: string)
    ensures Contains(s, "playpause") ==> Contains(s, "pause")
    ensures InputControl(VStr(s)) == Ok(ToggleMusic) <==> Contains(s, "playpause") && !Transport(s)
    ensures InputControl(VStr(s)) == Ok(PauseMusic) <==> Contains(s, "pause") && !Contains(s, "playpause") && !Transport(s)
  {
    if Contains(s, "playpause") {
      assert OccursAt("playpause", "pause", 4);
      ContainsTransitive(s, "playpause", "pause");
    }
  }

  /** Names an earlier test of `handle_intent` catches before the shuffle
      and loop tests. */
  predicate Playback(s: string)
  {
    Transport(s) || Contains(s, "pause") || Contains(s, "resume") || Contains(s, "play_music")
  }

  /** An intent naming `unshuffle` also names `shuffle`, yet unshuffles;
      likewise `unloop` and `loop`. An intent has no toggle: `playpause`
      pauses. */
  lemma IntentOrder(s: string)
    ensures Contains(s, "unshuffle") ==> Contains(s, "shuffle")
    ensures Contains(s, "unloop") ==> Contains(s, "loop")
    ensures IntentControl(VStr(s)) == Ok(UnshuffleMusic) <==> Contains(s, "unshuffle") && !Playback(s)
    ensures IntentControl(VStr(s)) == Ok(ShuffleMusic) <==> Contains(s, "shuffle") && !Contains(s, "unshuffle") && !Playback(s)
    ensures IntentControl(VStr(s)) == Ok(UnloopMusic) <==>
              Contains(s, "unloop") && !Contains(s, "shuffle") && !Playback(s)
    ensures IntentControl(VStr(s)) == Ok(LoopMusic) <==>
              Contains(s, "loop") && !Contains(s, "unloop") && !Contains(s, "shuffle") && !Playback(s)
    ensures Contains(s, "playpause") && !Transport(s) ==> IntentControl(VStr(s)) == Ok(PauseMusic)
  {
    if Contains(s, "unshuffle") {
      assert OccursAt("unshuffle", "shuffle", 2);
      ContainsTransitive(s, "unshuffle", "shuffle");
    }
    if Contains(s, "unloop") {
      assert OccursAt("unloop", "loop", 2);
      ContainsTransitive(s, "unloop", "loop");
    }
    if Contains(s, "playpause") {
      assert OccursAt("playpause", "pause", 4);
      ContainsTransitive(s, "playpause", "pause");
    }
  }

  /** The requests of the playback methods that take no answer. */
  function Effect(c: Control, device: Value): (r: seq<Command>)
    ensures |r| <= 1
    ensures c in {ToggleMusic, PlayMusic, Other} <==> r == []
  {
    match c
    case SkipTrack => [NextTrack(device)]
    case PreviousTrackOf => [PreviousTrack(device)]
    case StopMusic => [StartPlayback(device, Some([]))]
    case PauseMusic => [PausePlayback(device)]
    case ResumeMusic => [StartPlayback(device, None)]
    case UnshuffleMusic => [Shuffle(false, device)]
    case ShuffleMusic => [Shuffle(true, device)]
    case UnloopMusic => [Repeat("off", device)]
    case LoopMusic => [Repeat("context", device)]
    case _ => []
  }

  /** `_toggle_music`, given the current playback: pause when something
      is playing, resume otherwise. */
  function Toggle(log: seq<Command>, device: Value, current: Value): (r: Run)
    ensures r.error.Some? <==> Truthy(current) && Subscript(current, "is_playing").Err?
    ensures r.error.Some? ==> r.log == log && r.error.value == Subscript(current, "is_playing").error
    ensures r.error.None? ==>
              |r.log| == |log| + 1 && r.log[..|log|] == log
              && r.log[|log|] == (if Truthy(current) && Truthy(Subscript(current, "is_playing").value)
                                  then PausePlayback(device) else StartPlayback(device, None))
  {
    if !Truthy(current) then Run(log + [StartPlayback(device, None)], None)
    else
      match Subscript(current, "is_playing")
      case Err(e) => Run(log, Some(e))
      case Ok(playing) =>
        Run(log + [if Truthy(playing) then PausePlayback(device) else StartPlayback(device, None)], None)
  }

  /** Toggling pauses exactly when the playback reports playing, and
      resumes when nothing plays. */
  lemma ToggleFlips(log: seq<Command>, device: Value, playing: bool)
    ensures Toggle(log, device, VDict(map["is_playing" := VBool(playing)]))
            == Run(log + [if playing then PausePlayback(device) else StartPlayback(device, None)], None)
    ensures Toggle(log, device, VNone) == Run(log + [StartPlayback(device, None)], None)
  {
    assert Truthy(VDict(map["is_playing" := VBool(playing)])) by {
      assert "is_playing" in map["is_playing" := VBool(playing)];
    }
  }

  // ---------------------------------------------------------------- play_music

  /** `entities.get(key, [{}])[0].get('value', None)`. */
  function Pick(entities: Value, key: string): (r: Result<Value, PyError>)
    ensures !entities.VDict? ==> r == Err(AttributeError)
    ensures entities.VDict? && key !in entities.fields ==> r == Ok(VNone)
    ensures entities.VDict? && key in entities.fields ==>
              var xs := entities.fields[key];
              (!xs.VList? ==> r.Err?)
              && (xs.VList? && xs.items == [] ==> r == Err(IndexError))
              && (xs.VList? && xs.items != [] && !xs.items[0].VDict? ==> r == Err(AttributeError))
              && (xs.VList? && xs.items != [] && xs.items[0].VDict? ==>
                    r == Ok(if "value" in xs.items[0].fields then xs.items[0].fields["value"] else VNone))
  {
    match GetOr(entities, key, VList([VDict(map[])]))
    case Err(e) => Err(e)
    case Ok(xs) =>
      match First(xs)
      case Err(e) => Err(e)
      case Ok(x) => GetOr(x, "value", VNone)
  }

  /** `v[0]`: the first item of a list or the first character of a string;
      a dictionary has no key `0`; anything else cannot be indexed. */
  function First(v: Value): (r: Result<Value, PyError>)
    ensures v.VList? && v.items != [] ==> r == Ok(v.items[0])
    ensures r.Err? ==> r.error in {IndexError, KeyError, TypeError}
  {
    match v
    case VList(items) => if items == [] then Err(IndexError) else Ok(items[0])
    case VStr(s) => if s == "" then Err(IndexError) else Ok(VStr([s[0]]))
    case VDict(_) => Err(KeyError)
    case _ => Err(TypeError)
  }

  /** The tags rewritten without an author, and with one. */
  const ALL_TAGS: seq<string> := ["track", "album", "artist"]
  const AUTHOR_TAGS: seq<string> := ["track", "album"]

  /** The tag loop of `_play_music`: each tag, in turn, that the item
      starts with followed by a space has every occurrence of `tag + ' '`
      replaced by `tag + ':'`. */
  function Retag(item: string, tags: seq<string>): string
    decreases |tags|
  {
    if tags == [] then item
    else
      var pat := tags[0] + " ";
      Retag(if StartsWith(item, pat) then Replace(item, pat, tags[0] + ":") else item, tags[1..])
  }

  /** One replacement only turns spaces into colons. */
  lemma {:induction false} ReplaceSpaces(s: string, tag: string)
    ensures var r := Replace(s, tag + " ", tag + ":");
            |r| == |s| && forall i :: 0 <= i < |s| ==> r[i] == s[i] || (s[i] == ' ' && r[i] == ':')
    decreases |s|
  {
    var pat := tag + " ";
    var rep := tag + ":";
    var r := Replace(s, pat, rep);
    if |s| < |pat| {
    } else if OccursAt(s, pat, 0) {
      var rest := Replace(s[|pat|..], pat, rep);
      ReplaceSpaces(s[|pat|..], tag);
      assert r == rep + rest;
      forall i | 0 <= i < |s|
        ensures r[i] == s[i] || (s[i] == ' ' && r[i] == ':')
      {
        if i < |tag| {
          assert r[i] == tag[i] && s[i] == pat[i];
        } else if i == |tag| {
          assert r[i] == ':' && s[i] == ' ';
        } else {
          assert r[i] == rest[i - |pat|] && s[i] == s[|pat|..][i - |pat|];
        }
      }
    } else {
      var rest := Replace(s[1..], pat, rep);
      ReplaceShift(s, pat);
      ReplaceSpaces(s[1..], tag);
      assert r == [s[0]] + rest;
      forall i | 0 <= i < |s|
        ensures r[i] == s[i] || (s[i] == ' ' && r[i] == ':')
      {
        if i > 0 {
          assert r[i] == rest[i - 1] && s[i] == s[1..][i - 1];
        }
      }
    }
  }

  /** Rewriting tags keeps the item's length and only turns spaces into
      colons. */
  lemma {:induction false} RetagSpaces(item: string, tags: seq<string>)
    ensures var r := Retag(item, tags);
            |r| == |item| && forall i :: 0 <= i < |item| ==> r[i] == item[i] || (item[i] == ' ' && r[i] == ':')
    decreases |tags|
  {
    if tags != [] {
      var pat := tags[0] + " ";
      var next := if StartsWith(item, pat) then Replace(item, pat, tags[0] + ":") else item;
      if StartsWith(item, pat) {
        ReplaceSpaces(item, tags[0]);
      }
      RetagSpaces(next, tags[1..]);
    }
  }

  /** An item that starts with none of the tags and a space is searched
      as it is. */
  lemma {:induction false} RetagUntagged(item: string, tags: seq<string>)
    requires forall t :: t in tags ==> !StartsWith(item, t + " ")
    ensures Retag(item, tags) == item
    decreases |tags|
  {
    if tags != [] {
      RetagUntagged(item, tags[1..]);
    }
  }

  /** An item starting with one of the tags and a space is searched with
      that tag as a field filter, `tag:`. */
  lemma RetagTagged(item: string, tag: string)
    requires tag in ALL_TAGS && StartsWith(item, tag + " ")
    ensures StartsWith(Retag(item, ALL_TAGS), tag + ":")
    ensures tag in AUTHOR_TAGS ==> StartsWith(Retag(item, AUTHOR_TAGS), tag + ":")
  {
    var r := Replace(item, tag + " ", tag + ":");
    ReplacePrefix(item, tag + " ", tag + ":");
    assert ALL_TAGS[1..] == ["album", "artist"] && AUTHOR_TAGS[1..] == ["album"];
    if tag == "track" {
      Differs(r, "album ", 0);
      Differs(r, "artist ", 0);
      RetagSkip(r, ["album", "artist"]);
      RetagSkip(r, ["artist"]);
      RetagSkip(r, ["album"]);
    } else if tag == "album" {
      Differs(item, "track ", 0);
      Differs(r, "artist ", 1);
      RetagSkip(item, ALL_TAGS);
      RetagSkip(item, AUTHOR_TAGS);
      assert ["album", "artist"][1..] == ["artist"];
      RetagSkip(r, ["artist"]);
    } else {
      Differs(item, "track ", 0);
      Differs(item, "album ", 1);
      RetagSkip(item, ALL_TAGS);
      RetagSkip(item, ["album", "artist"]);
    }
  }

  /** A tag the item does not start with is skipped. */
  lemma RetagSkip(x: string, tags: seq<string>)
    requires tags != [] && !StartsWith(x, tags[0] + " ")
    ensures Retag(x, tags) == Retag(x, tags[1..])
  {
  }

  /** Strings that differ at a position within both do not start alike. */
  lemma Differs(x: string, p: string, k: nat)
    requires k < |x| && k < |p| && x[k] != p[k]
    ensures !StartsWith(x, p)
  {
    if |p| <= |x| {
      assert x[..|p|][k] != p[k];
    }
  }

  /** The search `_play_music` makes for an item and an author, if any:
      without an author, the retagged item over artists, albums and
      tracks; with one, the item retagged for tracks and albums and
      narrowed to the author, over albums and tracks. No item, no search.
      An item that is not a string has no `startswith`; an author that is
      not a string cannot be concatenated. */
  function Query(item: Value, author: Value): (r: Result<Option<(string, string)>, PyError>)
    ensures !Truthy(item) ==> r == Ok(None)
    ensures Truthy(item) && !item.VStr? ==> r == Err(AttributeError)
    ensures item.VStr? && item.s != "" && author == VNone ==> r == Ok(Some((Retag(item.s, ALL_TAGS), "artist,album,track")))
    ensures item.VStr? && item.s != "" && author.VStr? ==>
              r == Ok(Some((Retag(item.s, AUTHOR_TAGS) + " artist:" + author.s, "album,track")))
    ensures item.VStr? && author != VNone && !author.VStr? ==> r.Err? || r == Ok(None)
  {
    if !Truthy(item) then Ok(None)
    else if !item.VStr? then Err(AttributeError)
    else if author == VNone then Ok(Some((Retag(item.s, ALL_TAGS), "artist,album,track")))
    else if !author.VStr? then Err(TypeError)
    else Ok(Some((Retag(item.s, AUTHOR_TAGS) + " artist:" + author.s, "album,track")))
  }

  /** The track URIs among those found, in order. */
  function Tracks(uris: seq<string>): (r: seq<string>)
    ensures forall u :: u in r <==> u in uris && Contains(u, ":track:")
    ensures |r| <= |uris|
  {
    if uris == [] then []
    else (if Contains(uris[0], ":track:") then [uris[0]] else []) + Tracks(uris[1..])
  }

  /** The filter keeps the order the search gave: it distributes over
      concatenation. */
  lemma {:induction false} TracksKeepOrder(a: seq<string>, b: seq<string>)
    ensures Tracks(a + b) == Tracks(a) + Tracks(b)
    decreases |a|
  {
    if a != [] {
      TracksKeepOrder(a[1..], b);
      assert (a + b)[1..] == a[1..] + b;
      assert (a + b)[0] == a[0];
    } else {
      assert a + b == b;
    }
  }

  /** `_play_music(entities)`: one search, then playback of the tracks
      found when there are any. */
  function Play(log: seq<Command>, device: Value, entities: Value, search: (string, string) -> seq<string>, limit: int): (r: Run)
    ensures r.error.Some? ==> r.log == log
    ensures (Pick(entities, "playable_item:playable_item") == Ok(VNone)
             && Pick(entities, "playable_author:playable_author").Ok?) ==> r == Run(log, None)
    ensures |log| <= |r.log| && r.log[..|log|] == log
    ensures r.log != log ==>
              r.error.None? && r.log[|log|].Search? && r.log[|log|].limit == limit
              && Pick(entities, "playable_item:playable_item").Ok?
              && Pick(entities, "playable_author:playable_author").Ok?
              && Query(Pick(entities, "playable_item:playable_item").value,
                       Pick(entities, "playable_author:playable_author").value)
                 == Ok(Some((r.log[|log|].query, r.log[|log|].kind)))
  {
    match Pick(entities, "playable_item:playable_item")
    case Err(e) => Run(log, Some(e))
    case Ok(item) =>
      match Pick(entities, "playable_author:playable_author")
      case Err(e) => Run(log, Some(e))
      case Ok(author) =>
        match Query(item, author)
        case Err(e) => Run(log, Some(e))
        case Ok(None) => Run(log, None)
        case Ok(Some((query, kind))) =>
          var uris := Tracks(search(query, kind));
          Run(log + [Search(query, kind, limit)] + (if uris != [] then [StartPlayback(device, Some(uris))] else []), None)
  }

  /** Playback starts only with track URIs, all of them, and never with
      an empty list. */
  lemma PlayStartsTracks(log: seq<Command>, device: Value, entities: Value, search: (string, string) -> seq<string>, limit: int)
    ensures var r := Play(log, device, entities, search, limit);
            |log| <= |r.log| <= |log| + 2 && r.log[..|log|] == log
            && forall i :: |log| <= i < |r.log| && r.log[i].StartPlayback? ==>
                 i == |log| + 1 && r.log[i].uris.Some? && r.log[i].uris.value != []
                 && r.log[|log|].Search?
                 && r.log[i].uris.value == Tracks(search(r.log[|log|].query, r.log[|log|].kind))
  {
  }

  /** One intent's requests. */
  function Act(log: seq<Command>, device: Value, c: Control, entities: Value, search: (string, string) -> seq<string>, limit: int): (r: Run)
    ensures r.error.Some? ==> c == PlayMusic && r.log == log
    ensures c != PlayMusic ==> r.error.None? && |log| <= |r.log| <= |log| + 1 && r.log[..|log|] == log
    ensures c != PlayMusic && c != ToggleMusic && c != Other ==>
              |r.log| == |log| + 1 && !r.log[|log|].Search? && r.log[|log|].device == device
  {
    if c == PlayMusic then Play(log, device, entities, search, limit) else Run(log + Effect(c, device), None)
  }

  /** The loop of `handle_intent`. */
  function Intents(log: seq<Command>, device: Value, intents: seq<Value>, entities: Value, search: (string, string) -> seq<string>, limit: int): (r: Run)
    ensures intents == [] ==> r == Run(log, None)
    ensures |log| <= |r.log| && r.log[..|log|] == log
    ensures r.error.None? ==>
              forall i :: 0 <= i < |intents| ==>
                Subscript(intents[i], "name").Ok? && IntentControl(Subscript(intents[i], "name").value).Ok?
    decreases |intents|
  {
    if intents == [] then Run(log, None)
    else
      match Subscript(intents[0], "name")
      case Err(e) => Run(log, Some(e))
      case Ok(action) =>
        match IntentControl(action)
        case Err(e) => Run(log, Some(e))
        case Ok(c) =>
          var r := Act(log, device, c, entities, search, limit);
          if r.error.Some? then r else Intents(r.log, device, intents[1..], entities, search, limit)
  }

  /** Every request of a run of intents goes to the selected device. */
  lemma {:induction false} OneDevice(log: seq<Command>, device: Value, intents: seq<Value>, entities: Value, search: (string, string) -> seq<string>, limit: int)
    ensures var r := Intents(log, device, intents, entities, search, limit);
            |log| <= |r.log| && r.log[..|log|] == log
            && forall i :: |log| <= i < |r.log| && !r.log[i].Search? ==> r.log[i].device == device
    decreases |intents|
  {
    if intents != [] && Subscript(intents[0], "name").Ok? && IntentControl(Subscript(intents[0], "name").value).Ok? {
      var c := IntentControl(Subscript(intents[0], "name").value).value;
      var r := Act(log, device, c, entities, search, limit);
      ActOnDevice(log, device, c, entities, search, limit);
      if r.error.None? {
        OneDevice(r.log, device, intents[1..], entities, search, limit);
        var s := Intents(r.log, device, intents[1..], entities, search, limit);
        OnDeviceTrans(log, r.log, s.log, device);
      }
    }
  }

  /** `after` keeps `before` and adds only requests to `device` and
      searches. */
  predicate OnDevice(before: seq<Command>, after: seq<Command>, device: Value)
  {
    |before| <= |after| && after[..|before|] == before
    && forall i :: |before| <= i < |after| && !after[i].Search? ==> after[i].device == device
  }

  lemma ActOnDevice(log: seq<Command>, device: Value, c: Control, entities: Value, search: (string, string) -> seq<string>, limit: int)
    ensures OnDevice(log, Act(log, device, c, entities, search, limit).log, device)
  {
    if c == PlayMusic {
      PlayStartsTracks(log, device, entities, search, limit);
    }
  }

  lemma OnDeviceTrans(a: seq<Command>, b: seq<Command>, c: seq<Command>, device: Value)
    requires OnDevice(a, b, device) && OnDevice(b, c, device)
    ensures OnDevice(a, c, device)
  {
    assert c[..|a|] == c[..|b|][..|a|];
    forall i | |a| <= i < |c| && !c[i].Search?
      ensures c[i].device == device
    {
      if i < |b| {
        assert c[i] == c[..|b|][i];
      }
    }
  }

  // ---------------------------------------------------------------- devices

  /** The loop over `devices['devices']`: the id of the first device with
      the configured name. */
  function Named(xs: seq<Value>, name: string): (r: Result<Option<Value>, PyError>)
    ensures r == Ok(None) ==>
              forall i :: 0 <= i < |xs| ==> Subscript(xs[i], "name").Ok? && Subscript(xs[i], "name").value != VStr(name)
    decreases |xs|
  {
    if xs == [] then Ok(None)
    else
      match Subscript(xs[0], "name")
      case Err(e) => Err(e)
      case Ok(n) =>
        if n == VStr(name) then
          match Subscript(xs[0], "id")
          case Err(e) => Err(e)
          case Ok(id) => Ok(Some(id))
        else Named(xs[1..], name)
  }

  /** The fallback of `_setup_device_id` once no device matched by name:
      the current playback's device, else the first listed device, else
      none. `devices` is the listing as far as it was fetched. */
  function Fallback(devices: Value, current: Value): (r: Result<Value, PyError>)
    ensures devices == VNone && !Truthy(current) ==> r == Err(TypeError)
  {
    if Truthy(current) then
      match Subscript(current, "device")
      case Err(e) => Err(e)
      case Ok(d) => Subscript(d, "id")
    else
      match Subscript(devices, "devices")
      case Err(e) => Err(e)
      case Ok(ds) =>
        var device := if Truthy(ds) then First(ds) else Ok(VNone);
        match device
        case Err(e) => Err(e)
        case Ok(d) =>
          if !Truthy(d) then Ok(VNone)
          else
            // The warning logged first reads the device's name.
            match Subscript(d, "name")
            case Err(e) => Err(e)
            case Ok(_) => Subscript(d, "id")
  }

  /** A first listed device without a name fails the fallback with
      `KeyError`, even though it has an id. */
  lemma FallbackNeedsName(id: Value)
    ensures Fallback(VDict(map["devices" := VList([VDict(map["id" := id])])]), VNone) == Err(KeyError)
  {
    var d := VDict(map["id" := id]);
    assert "id" in d.fields && Truthy(d);
  }

  /** The device id `_setup_device_id` selects, as written: the listing is
      fetched only when a device name is configured, and yet the fallback
      to the first listed device reads it in every case. */
  function DeviceAsWritten(configured: string, listing: Value, current: Value): (r: Result<Value, PyError>)
    ensures configured == "" && !Truthy(current) ==> r == Err(TypeError)
    ensures configured == "" && Truthy(current) ==> r == Fallback(listing, current)
  {
    if configured != "" then
      match Subscript(listing, "devices")
      case Err(e) => Err(e)
      case Ok(ds) =>
        match Iterate(ds)
        case Err(e) => Err(e)
        case Ok(xs) =>
          match Named(xs, configured)
          case Err(e) => Err(e)
          case Ok(Some(id)) => Ok(id)
          case Ok(None) => Fallback(listing, current)
    else Fallback(VNone, current)
  }

  /** With no device name configured and nothing playing, the selection as
      written raises `TypeError` (`None['devices']`) however many devices
      are listed, so the resource does not start; the corrected selection
      picks the first listed device. */
  lemma UnconfiguredNothingPlaying(name: string, id: Value)
    ensures DeviceAsWritten("", Listing([(name, id)]), VNone) == Err(TypeError)
    ensures SelectDevice("", Listing([(name, id)]), VNone) == Ok(id)
  {
    var d := Entries([(name, id)])[0];
    assert "name" in d.fields && "id" in d.fields && Truthy(d);
  }

  /** The device id selected: the first device with the configured name,
      else the current playback's device, else the first listed device,
      else none. The listing is fetched whenever it is needed. */
  function SelectDevice(configured: string, listing: Value, current: Value): (r: Result<Value, PyError>)
    ensures configured != "" ==> r == DeviceAsWritten(configured, listing, current)
  {
    if configured != "" then DeviceAsWritten(configured, listing, current)
    else Fallback(listing, current)
  }

  /** A well-formed listing of named devices with their ids. */
  function Listing(devices: seq<(string, Value)>): (r: Value)
    ensures r.VDict? && "devices" in r.fields && r.fields["devices"].VList?
    ensures |r.fields["devices"].items| == |devices|
  {
    VDict(map["devices" := VList(Entries(devices))])
  }

  function Entries(devices: seq<(string, Value)>): (r: seq<Value>)
    ensures |r| == |devices|
    ensures forall i :: 0 <= i < |devices| ==> r[i] == VDict(map["name" := VStr(devices[i].0), "id" := devices[i].1])
  {
    seq(|devices|, i requires 0 <= i < |devices| => VDict(map["name" := VStr(devices[i].0), "id" := devices[i].1]))
  }

  /** A playback on the device with the given id. */
  function Playing(id: Value): (r: Value)
    ensures Truthy(r)
  {
    var r := VDict(map["device" := VDict(map["id" := id])]);
    assert "device" in r.fields;
    r
  }

  /** The first device of a well-formed listing with the name, if any. */
  lemma {:induction false} NamedFirst(devices: seq<(string, Value)>, name: string)
    ensures Named(Entries(devices), name).Ok?
    ensures (forall k :: 0 <= k < |devices| ==> devices[k].0 != name) <==> Named(Entries(devices), name) == Ok(None)
    ensures forall k :: 0 <= k < |devices| && devices[k].0 == name && (forall j :: 0 <= j < k ==> devices[j].0 != name) ==>
              Named(Entries(devices), name) == Ok(Some(devices[k].1))
    decreases |devices|
  {
    var xs := Entries(devices);
    if devices != [] {
      assert xs[1..] == Entries(devices[1..]);
      NamedFirst(devices[1..], name);
      forall k | 0 <= k < |devices| && devices[k].0 == name && (forall j :: 0 <= j < k ==> devices[j].0 != name)
        ensures Named(xs, name) == Ok(Some(devices[k].1))
      {
        if k > 0 {
          assert devices[1..][k - 1] == devices[k];
          assert forall j :: 0 <= j < k - 1 ==> devices[1..][j].0 != name by {
            forall j | 0 <= j < k - 1 ensures devices[1..][j].0 != name {
              assert devices[1..][j] == devices[j + 1];
            }
          }
        }
      }
      if forall k :: 0 <= k < |devices[1..]| ==> devices[1..][k].0 != name {
        if devices[0].0 != name {
          forall k | 0 <= k < |devices| ensures devices[k].0 != name {
            if k > 0 {
              assert devices[k] == devices[1..][k - 1];
            }
          }
        }
      }
    }
  }

  /** The selection order over a well-formed listing: the configured name
      first, then the current playback, then the first device listed,
      then none. */
  lemma DeviceOrder(configured: string, devices: seq<(string, Value)>, current: Option<Value>)
    ensures var r := SelectDevice(configured, Listing(devices), if current.Some? then Playing(current.value) else VNone);
            (configured != "" ==>
               forall k :: 0 <= k < |devices| && devices[k].0 == configured && (forall j :: 0 <= j < k ==> devices[j].0 != configured) ==>
                 r == Ok(devices[k].1))
            && ((configured == "" || forall k :: 0 <= k < |devices| ==> devices[k].0 != configured) ==>
                  (current.Some? ==> r == Ok(current.value))
                  && (current.None? && devices != [] ==> r == Ok(devices[0].1))
                  && (current.None? && devices == [] ==> r == Ok(VNone)))
  {
    NamedFirst(devices, configured);
    var listing := Listing(devices);
    if current.None? && devices != [] {
      var d := Entries(devices)[0];
      assert "name" in d.fields;
      assert Truthy(d);
    }
  }

  class Spotify {
    const path: string
    const self: ActorId
    const cfg: Settings
    const machine: StateMachine
    /** `_device_id`. */
    var deviceId: Value
    /** The commands and searches sent to the client, oldest first. */
    var requests: seq<Command>
    /** The states passed to `notify(path, ...)` so far, oldest first. */
    var broadcasts: seq<Value>

    ghost predicate Valid()
      reads this, machine
    {
      machine.Valid() && machine.allowed == ["READY"] && machine.next == map[]
    }

    /** `get_state`, for a current state; nothing is ever recorded as
        playing. */
    static function Snapshot(state: string): (r: Value)
      ensures r.VDict? && r.fields.Keys == {"state", "now_playing"}
      ensures r.fields["state"] == VStr(state) && r.fields["now_playing"] == VDict(map[])
    {
      VDict(map["state" := VStr(state), "now_playing" := VDict(map[])])
    }

    /** `__init__` followed by `on_start` up to the device selection:
        `READY` with one forced broadcast, then subscriptions to the
        intents and the input. */
    constructor (path: string, self: ActorId, cfg: Settings, changes: StateChangeRegistry)
      requires changes.Valid()
      modifies changes
      ensures Valid() && fresh(machine) && machine.current == "READY"
      ensures this.path == path && this.self == self && this.cfg == cfg
      ensures requests == [] && deviceId == VNone
      ensures broadcasts == [Snapshot("READY")]
      ensures changes.Valid() && old(changes.subs) <= changes.subs
      ensures (self, INTENT) in changes.subs && (self, INPUT) in changes.subs
      ensures forall s :: s in changes.subs ==> s in old(changes.subs) || (s.0 == self && s.1 in [INTENT, INPUT])
    {
      this.path := path;
      this.self := self;
      this.cfg := cfg;
      UpperIsCanonical("READY");
      machine := new StateMachine(["READY"], map[], "READY");
      requests := [];
      deviceId := VNone;
      broadcasts := [];
      new;
      var r := SetStateInternal(VNone, true);
      changes.RegisterEach(self, [INTENT, INPUT]);
    }

    /** `_set_state_internal(state, force)`: broadcasts only when forced or
        when the state really changed. */
    method SetStateInternal(state: Value, force: bool) returns (r: Outcome<ServiceError>)
      requires Valid()
      modifies this, machine
      ensures Valid() && requests == old(requests) && deviceId == old(deviceId)
      ensures var tried := Truthy(state) && state != VStr(old(machine.current));
              r == (if tried then machine.Try(old(machine.current), state) else Pass)
              && machine.current == (if tried && r.Pass? then Upper(state.s) else old(machine.current))
              && broadcasts == old(broadcasts) + (if force || (tried && r.Pass?) then [Snapshot(machine.current)] else [])
    {
      var changed;
      changed, r := Transition(machine, state);
      if changed || force {
        broadcasts := broadcasts + [Snapshot(machine.current)];
      }
    }

    /** `_setup_device_id`, the last step of `on_start`, given the device
        listing and the current playback the client answers; the listing
        is read also when no name is configured. */
    method SetupDeviceId(listing: Value, current: Value) returns (r: Outcome<PyError>)
      modifies this
      ensures var sel := SelectDevice(cfg.device, listing, current);
              r == (if sel.Err? then Fail(sel.error) else Pass)
              && deviceId == (if sel.Ok? then sel.value else VNone)
      ensures requests == old(requests) && broadcasts == old(broadcasts)
    {
      deviceId := VNone;
      if cfg.device != "" {
        var ds := Subscript(listing, "devices");
        if ds.Err? {
          return Fail(ds.error);
        }
        var xs := Iterate(ds.value);
        if xs.Err? {
          return Fail(xs.error);
        }
        var i := 0;
        while i < |xs.value|
          invariant 0 <= i <= |xs.value|
          invariant Named(xs.value, cfg.device) == Named(xs.value[i..], cfg.device)
          invariant deviceId == VNone && requests == old(requests) && broadcasts == old(broadcasts)
        {
          assert xs.value[i..][1..] == xs.value[i + 1..];
          var name := Subscript(xs.value[i], "name");
          if name.Err? {
            return Fail(name.error);
          }
          if name.value == VStr(cfg.device) {
            var id := Subscript(xs.value[i], "id");
            if id.Err? {
              return Fail(id.error);
            }
            deviceId := id.value;
            return Pass;
          }
          i := i + 1;
        }
      }
      var id := Fallback(listing, current);
      if id.Err? {
        return Fail(id.error);
      }
      deviceId := id.value;
      r := Pass;
    }

    /** The playback methods that take no answer. */
    method Issue(c: Control)
      modifies this
      ensures requests == old(requests) + Effect(c, deviceId)
      ensures deviceId == old(deviceId) && broadcasts == old(broadcasts)
    {
      match c {
        case SkipTrack => requests := requests + [NextTrack(deviceId)];
        case PreviousTrackOf => requests := requests + [PreviousTrack(deviceId)];
        case StopMusic => requests := requests + [StartPlayback(deviceId, Some([]))];
        case PauseMusic => requests := requests + [PausePlayback(deviceId)];
        case ResumeMusic => requests := requests + [StartPlayback(deviceId, None)];
        case UnshuffleMusic => requests := requests + [Shuffle(false, deviceId)];
        case ShuffleMusic => requests := requests + [Shuffle(true, deviceId)];
        case UnloopMusic => requests := requests + [Repeat("off", deviceId)];
        case LoopMusic => requests := requests + [Repeat("context", deviceId)];
        case _ =>
      }
    }

    /** `_toggle_music`, given the current playback. */
    method TogglePlay(current: Value) returns (r: Outcome<PyError>)
      modifies this
      ensures var run := Toggle(old(requests), deviceId, current);
              requests == run.log && r == Done(run.error)
      ensures deviceId == old(deviceId) && broadcasts == old(broadcasts)
    {
      r := Pass;
      if Truthy(current) {
        var playing := Subscript(current, "is_playing");
        if playing.Err? {
          return Fail(playing.error);
        }
        if Truthy(playing.value) {
          Issue(PauseMusic);
          return;
        }
      }
      Issue(ResumeMusic);
    }

    /** `_play_music(entities)`, given what searches find. */
    method PlayItem(entities: Value, search: (string, string) -> seq<string>) returns (r: Outcome<PyError>)
      modifies this
      ensures var run := Play(old(requests), deviceId, entities, search, cfg.limit);
              requests == run.log && r == Done(run.error)
      ensures deviceId == old(deviceId) && broadcasts == old(broadcasts)
    {
      var item := Pick(entities, "playable_item:playable_item");
      if item.Err? {
        return Fail(item.error);
      }
      var author := Pick(entities, "playable_author:playable_author");
      if author.Err? {
        return Fail(author.error);
      }
      if !Truthy(item.value) {
        return Pass;
      }
      if !item.value.VStr? {
        return Fail(AttributeError);
      }
      var query, kind;
      if author.value == VNone {
        query := RetagItem(item.value.s, ALL_TAGS);
        kind := "artist,album,track";
      } else {
        query := RetagItem(item.value.s, AUTHOR_TAGS);
        if !author.value.VStr? {
          return Fail(TypeError);
        }
        query := query + " artist:" + author.value.s;
        kind := "album,track";
      }
      requests := requests + [Search(query, kind, cfg.limit)];
      var uris := Tracks(search(query, kind));
      if uris != [] {
        requests := requests + [StartPlayback(deviceId, Some(uris))];
      }
      r := Pass;
    }

    /** The tag loop of `_play_music`, rewriting the item in place. */
    static method RetagItem(item: string, tags: seq<string>) returns (r: string)
      ensures r == Retag(item, tags)
    {
      r := item;
      var k := 0;
      while k < |tags|
        invariant 0 <= k <= |tags|
        invariant Retag(item, tags) == Retag(r, tags[k..])
      {
        assert tags[k..][1..] == tags[k + 1..];
        if StartsWith(r, tags[k] + " ") {
          r := Replace(r, tags[k] + " ", tags[k] + ":");
        }
        k := k + 1;
      }
    }

    /** `handle_input_action(action)`, given the current playback. */
    method HandleInputAction(action: Value, current: Value) returns (r: Outcome<PyError>)
      modifies this
      ensures var c := InputControl(action);
              var run := if c.Err? then Run(old(requests), Some(c.error))
                         else if c.value == ToggleMusic then Toggle(old(requests), deviceId, current)
                         else Run(old(requests) + Effect(c.value, deviceId), None);
              requests == run.log && r == Done(run.error)
      ensures deviceId == old(deviceId) && broadcasts == old(broadcasts)
    {
      var c := InputControl(action);
      if c.Err? {
        return Fail(c.error);
      }
      if c.value == ToggleMusic {
        r := TogglePlay(current);
      } else {
        Issue(c.value);
        r := Pass;
      }
    }

    /** `handle_intent(intents, entities)`, given what searches find. */
    method HandleIntent(intents: Value, entities: Value, search: (string, string) -> seq<string>) returns (r: Outcome<PyError>)
      modifies this
      ensures var run := match Iterate(intents)
                         case Err(e) => Run(old(requests), Some(e))
                         case Ok(xs) => Intents(old(requests), deviceId, xs, entities, search, cfg.limit);
              requests == run.log && r == Done(run.error)
      ensures deviceId == old(deviceId) && broadcasts == old(broadcasts)
    {
      var xs := Iterate(intents);
      if xs.Err? {
        return Fail(xs.error);
      }
      ghost var log0 := requests;
      var i := 0;
      while i < |xs.value|
        invariant 0 <= i <= |xs.value|
        invariant Intents(log0, deviceId, xs.value, entities, search, cfg.limit)
                  == Intents(requests, deviceId, xs.value[i..], entities, search, cfg.limit)
        invariant deviceId == old(deviceId) && broadcasts == old(broadcasts)
      {
        assert xs.value[i..][1..] == xs.value[i + 1..];
        var action := Subscript(xs.value[i], "name");
        if action.Err? {
          return Fail(action.error);
        }
        var c := IntentControl(action.value);
        if c.Err? {
          return Fail(c.error);
        }
        if c.value == PlayMusic {
          r := PlayItem(entities, search);
          if r.Fail? {
            return;
          }
        } else {
          Issue(c.value);
        }
        i := i + 1;
      }
      r := Pass;
    }

    /** `notify(path, state)`, given the current playback and what searches
        find: an `INTENT` state from exactly the intent path forwards its
        intents and entities, an `ACTION` state from exactly the input path
        its action; anything else is ignored. `r` is what `notify` itself
        raises; `forwarded` what the forwarded call raises when the actor
        runs it. */
    method Notify(path: string, state: Value, current: Value, search: (string, string) -> seq<string>)
      returns (r: Outcome<PyError>, forwarded: Outcome<PyError>)
      modifies this
      ensures deviceId == old(deviceId) && broadcasts == old(broadcasts)
      ensures forwarded.Fail? ==> r.Pass?
      ensures path != INTENT && path != INPUT ==> r == Pass && forwarded == Pass && requests == old(requests)
      ensures path == INTENT || path == INPUT ==>
                var s := Subscript(state, "state");
                (s.Err? ==> r == Fail(s.error) && forwarded == Pass && requests == old(requests))
                && (s.Ok? && s.value != VStr(if path == INTENT then "INTENT" else "ACTION") ==>
                      r == Pass && forwarded == Pass && requests == old(requests))
      ensures path == INPUT && Subscript(state, "state") == Ok(VStr("ACTION")) && Subscript(state, "action").Err? ==>
                r == Fail(Subscript(state, "action").error) && forwarded == Pass && requests == old(requests)
      ensures path == INPUT && Subscript(state, "state") == Ok(VStr("ACTION")) && Subscript(state, "action").Ok? ==>
                r == Pass
                && var c := InputControl(Subscript(state, "action").value);
                   var run := if c.Err? then Run(old(requests), Some(c.error))
                              else if c.value == ToggleMusic then Toggle(old(requests), deviceId, current)
                              else Run(old(requests) + Effect(c.value, deviceId), None);
                   requests == run.log && forwarded == Done(run.error)
      ensures path == INTENT && Subscript(state, "state") == Ok(VStr("INTENT")) ==>
                var it := Subscript(state, "intent");
                (it.Err? ==> r == Fail(it.error) && forwarded == Pass && requests == old(requests))
                && (it.Ok? && !it.value.VDict? ==>
                      r == Fail(AttributeError) && forwarded == Pass && requests == old(requests))
                && (it.Ok? && it.value.VDict? ==>
                      r == Pass
                      && var intents := GetOr(it.value, "intents", VList([])).value;
                         var entities := GetOr(it.value, "entities", VDict(map[])).value;
                         var run := match Iterate(intents)
                                    case Err(e) => Run(old(requests), Some(e))
                                    case Ok(xs) => Intents(old(requests), deviceId, xs, entities, search, cfg.limit);
                         requests == run.log && forwarded == Done(run.error))
    {
      forwarded := Pass;
      r := Pass;
      if path == INTENT {
        var s := Subscript(state, "state");
        if s.Err? {
          return Fail(s.error), Pass;
        }
        if s.value == VStr("INTENT") {
          var it := Subscript(state, "intent");
          if it.Err? {
            return Fail(it.error), Pass;
          }
          var intents := GetOr(it.value, "intents", VList([]));
          if intents.Err? {
            return Fail(intents.error), Pass;
          }
          var entities := GetOr(it.value, "entities", VDict(map[]));
          forwarded := HandleIntent(intents.value, entities.value, search);
        }
      } else if path == INPUT {
        var s := Subscript(state, "state");
        if s.Err? {
          return Fail(s.error), Pass;
        }
        if s.value == VStr("ACTION") {
          var a := Subscript(state, "action");
          if a.Err? {
            return Fail(a.error), Pass;
          }
          forwarded := HandleInputAction(a.value, current);
        }
      }
    }
  }
}
