/**
 * The speech-to-intent service of witservice.py. Audio datagrams are
 * buffered; when the hotword detector under `/speech/detector` reports
 * `DETECT_STOP` the buffer, minus its tail, is posted to the recogniser and
 * the decoded intent is published, the state going `POSTING`, `INTENT`,
 * `IDLE`; `LISTENING` discards the buffer.
 *
 * The socket, the HTTP post and the JSON decoding are the outside world:
 * datagrams and the decoded answer are parameters, and the bodies posted
 * and the bytes written to the output file are logs.
 */
module WitService {
  import opened Values
  import opened Strings
  import opened Service
  import opened StateChange

  const STATES: seq<string> := ["IDLE", "POSTING", "INTENT"]

  /** The path whose state changes the service follows. */
  const DETECTOR: string := "/speech/detector"

  /** The state this resource broadcasts. */
  function Snapshot(name: string, intent: Value): Value
  {
    VDict(map["state" := VStr(name), "intent" := intent])
  }

  /** `buf[:-(2 * n)]` under Python's slicing: `n` samples of two bytes
      are discarded from the end; a negative stop counts from the end and
      is clipped at 0, and a stop of `-0` is 0. */
  function Discard(buf: seq<bv8>, n: int): (r: seq<bv8>)
    ensures r <= buf
    ensures n == 0 || 2 * n >= |buf| ==> r == []
    ensures 0 < 2 * n < |buf| ==> |r| == |buf| - 2 * n
    ensures n < 0 ==> |r| == (if -2 * n < |buf| then -2 * n else |buf|)
  {
    var stop := -(2 * n);
    var end := if stop < 0 then (if |buf| + stop < 0 then 0 else |buf| + stop)
               else (if stop > |buf| then |buf| else stop);
    buf[..end]
  }

  /** What a request or a notification changes: the buffer, the intent,
      the bodies posted and saved, and the states broadcast. */
  datatype Session = Session(buffer: seq<bv8>, intent: Value, posts: seq<seq<bv8>>,
                             saved: seq<seq<bv8>>, broadcasts: seq<Value>)

  /** `handle_request` from an idle service, given the recogniser's
      answer (`None` when the post or the decoding raised). */
  function Request(s: Session, tailDiscard: int, outputFile: string, answer: Option<Value>): (r: Session)
    ensures s.buffer == [] ==> r == s
    ensures s.buffer != [] ==>
              r.posts == s.posts + [r.buffer] && r.buffer <= s.buffer
              && r.saved == s.saved + (if outputFile != "" then [r.buffer] else [])
              && |r.broadcasts| > |s.broadcasts| + 1 && r.broadcasts[..|s.broadcasts|] == s.broadcasts
              && r.broadcasts[|s.broadcasts|] == Snapshot("POSTING", s.intent)
              && r.broadcasts[|r.broadcasts| - 1] == Snapshot("IDLE", r.intent)
    ensures r.intent != s.intent ==> answer.Some? && answer.value.VDict? && r.intent == answer.value
  {
    if s.buffer == [] then s
    else
      var body := Discard(s.buffer, tailDiscard);
      var decoded := answer.Some? && answer.value.VDict?;
      var published := if decoded && Truthy(answer.value) then answer.value else s.intent;
      Session(body, published, s.posts + [body],
              s.saved + (if outputFile != "" then [body] else []),
              s.broadcasts + [Snapshot("POSTING", s.intent)]
                + (if decoded then [Snapshot("INTENT", published)] else [])
                + [Snapshot("IDLE", published)])
  }

  /** `notify(path, state)` from an idle service: the outcome and the new
      session. */
  function React(s: Session, state: Value, tailDiscard: int, outputFile: string, answer: Option<Value>)
    : (r: (Outcome<ServiceError>, Session))
    ensures r.0.Fail? <==> Subscript(state, "state").Err?
    ensures (r.1.intent != s.intent || r.1.posts != s.posts || r.1.broadcasts != s.broadcasts) ==>
              Subscript(state, "state") == Ok(VStr("DETECT_STOP"))
    ensures r.1.buffer != s.buffer ==>
              (Subscript(state, "state").Ok?
                   && Subscript(state, "state").value in {VStr("DETECT_STOP"), VStr("LISTENING")})
  {
    var k := Subscript(state, "state");
    if k.Err? then (Fail(Python(k.error)), s)
    else if k.value == VStr("DETECT_STOP") then (Pass, Request(s, tailDiscard, outputFile, answer))
    else if k.value == VStr("LISTENING") then (Pass, s.(buffer := []))
    else (Pass, s)
  }

  /** `LISTENING` ends an episode: a `DETECT_STOP` that follows it, before
      any audio arrives, posts nothing and changes nothing. */
  lemma {:induction false} ListeningDropsRequest(s: Session, tailDiscard: int, outputFile: string, answer: Option<Value>)
    ensures var listening := VDict(map["state" := VStr("LISTENING")]);
            var stop := VDict(map["state" := VStr("DETECT_STOP")]);
            var after := React(s, listening, tailDiscard, outputFile, answer).1;
            after.buffer == [] && React(after, stop, tailDiscard, outputFile, answer) == (Pass, after)
  {
    var listening := VDict(map["state" := VStr("LISTENING")]);
    var stop := VDict(map["state" := VStr("DETECT_STOP")]);
    assert Subscript(listening, "state") == Ok(VStr("LISTENING"));
    assert Subscript(stop, "state") == Ok(VStr("DETECT_STOP"));
  }

  /** The detector's episode as the service sees it: audio arrives, the
      detector stops and returns to listening. Exactly one body is posted,
      the audio minus its tail, and the buffer ends empty. */
  lemma {:induction false} EpisodePostsOnce(s: Session, audio: seq<bv8>, tailDiscard: int, outputFile: string, answer: Option<Value>)
    requires s.buffer == [] && audio != []
    ensures var stop := VDict(map["state" := VStr("DETECT_STOP")]);
            var listening := VDict(map["state" := VStr("LISTENING")]);
            var posted := React(s.(buffer := audio), stop, tailDiscard, outputFile, answer).1;
            var done := React(posted, listening, tailDiscard, outputFile, answer).1;
            done.posts == s.posts + [Discard(audio, tailDiscard)] && done.buffer == []
  {
    var stop := VDict(map["state" := VStr("DETECT_STOP")]);
    var listening := VDict(map["state" := VStr("LISTENING")]);
    assert Subscript(stop, "state") == Ok(VStr("DETECT_STOP"));
    assert Subscript(listening, "state") == Ok(VStr("LISTENING"));
  }

  lemma StatesAreUpper()
    ensures forall s :: s in STATES ==> Upper(s) == s
  {
    forall s | s in STATES
      ensures Upper(s) == s
    {
      UpperIsCanonical(s);
    }
  }

  class Wit {
    const path: string
    /** `tail_discard_samples` and `output_file` from the configuration. */
    const tailDiscard: int
    const outputFile: string
    const machine: StateMachine
    var intent: Value
    /** `_buffered_audio`. */
    var buffer: seq<bv8>
    /** The bodies posted to the recogniser and those written to the
        output file, oldest first. */
    var posts: seq<seq<bv8>>
    var saved: seq<seq<bv8>>
    /** The states passed to `notify(path, ...)` so far, oldest first. */
    var broadcasts: seq<Value>

    ghost predicate Valid()
      reads this, machine
    {
      machine.Valid() && machine.allowed == STATES && machine.next == map[]
    }

    /** Between requests the service is idle. */
    ghost predicate Idle()
      reads this, machine
    {
      Valid() && machine.current == "IDLE"
    }

    function Current(): Session
      reads this
    {
      Session(buffer, intent, posts, saved, broadcasts)
    }

    function State(): Value
      reads this, machine
    {
      Snapshot(machine.current, intent)
    }

    /** `__init__` followed by `on_start`: `IDLE` with intent `{}` and an
        empty buffer, one forced broadcast, and a subscription of `self` to
        the detector's path. */
    constructor (path: string, self: ActorId, tailDiscard: int, outputFile: string, changes: StateChangeRegistry)
      requires changes.Valid()
      modifies changes
      ensures Idle() && fresh(machine)
      ensures this.path == path && this.tailDiscard == tailDiscard && this.outputFile == outputFile
      ensures intent == VDict(map[]) && buffer == [] && posts == [] && saved == []
      ensures broadcasts == [Snapshot("IDLE", VDict(map[]))]
      ensures changes.Valid()
      ensures changes.subs == if (self, DETECTOR) in old(changes.subs) then old(changes.subs)
                              else old(changes.subs) + [(self, DETECTOR)]
    {
      this.path := path;
      this.tailDiscard := tailDiscard;
      this.outputFile := outputFile;
      StatesAreUpper();
      machine := new StateMachine(STATES, map[], "IDLE");
      intent := VDict(map[]);
      buffer := [];
      posts := [];
      saved := [];
      broadcasts := [];
      new;
      var r := SetStateInternal(VNone, VNone, true);
      changes.Register(self, DETECTOR);
    }

    /** `_set_state_internal(state, intent, force)`: a truthy state other
        than the current one is validated and applied, and a truthy intent
        is stored and counts as a change even when it equals the stored
        one. */
    method SetStateInternal(state: Value, newIntent: Value, force: bool) returns (r: Outcome<ServiceError>)
      requires Valid()
      modifies this, machine
      ensures Valid()
      ensures buffer == old(buffer) && posts == old(posts) && saved == old(saved)
      ensures var tried := Truthy(state) && state != VStr(old(machine.current));
              r == (if tried then machine.Try(old(machine.current), state) else Pass)
              && machine.current == (if tried && r.Pass? then Upper(state.s) else old(machine.current))
              && intent == (if r.Pass? && Truthy(newIntent) then newIntent else old(intent))
              && broadcasts == old(broadcasts)
                   + (if force || (tried && r.Pass?) || (r.Pass? && Truthy(newIntent)) then [State()] else [])
    {
      var changed;
      changed, r := Transition(machine, state);
      changed := changed || force;
      if r.Pass? && Truthy(newIntent) {
        intent := newIntent;
        changed := true;
      }
      if changed {
        broadcasts := broadcasts + [State()];
      }
    }

    /** Moves to one of the service's own states. */
    method Enter(name: string, newIntent: Value)
      requires Valid() && name in STATES
      modifies this, machine
      ensures Valid()
      ensures buffer == old(buffer) && posts == old(posts) && saved == old(saved)
      ensures machine.current == name
      ensures intent == (if Truthy(newIntent) then newIntent else old(intent))
      ensures broadcasts == old(broadcasts)
                + (if name != old(machine.current) || Truthy(newIntent) then [State()] else [])
    {
      StatesAreUpper();
      var r := SetStateInternal(VStr(name), newIntent, false);
    }

    /** `io_handler`: a received datagram is appended to the buffer. */
    method IoHandler(msg: seq<bv8>) returns (again: bool)
      modifies this
      ensures buffer == old(buffer) + msg && again
      ensures intent == old(intent) && posts == old(posts) && saved == old(saved)
      ensures broadcasts == old(broadcasts)
    {
      buffer := buffer + msg;
      again := true;
    }

    /** `handle_request`, given what the recogniser answered: `None` when
        the post or the decoding raised, else the decoded JSON. An empty
        buffer is left alone. Otherwise the tail is discarded, the rest is
        posted in state `POSTING`; a dictionary answer is published in
        state `INTENT`; the request always ends in `IDLE`, and the body is
        saved when an output file is configured. */
    method HandleRequest(answer: Option<Value>)
      requires Idle()
      modifies this, machine
      ensures Idle()
      ensures old(buffer) == [] ==>
                buffer == [] && intent == old(intent) && posts == old(posts)
                && saved == old(saved) && broadcasts == old(broadcasts)
      ensures old(buffer) != [] ==>
                var body := Discard(old(buffer), tailDiscard);
                var decoded := answer.Some? && answer.value.VDict?;
                var published := if decoded && Truthy(answer.value) then answer.value else old(intent);
                buffer == body && posts == old(posts) + [body]
                && saved == old(saved) + (if outputFile != "" then [body] else [])
                && intent == published
                && broadcasts == old(broadcasts)
                     + [Snapshot("POSTING", old(intent))]
                     + (if decoded then [Snapshot("INTENT", published)] else [])
                     + [Snapshot("IDLE", published)]
      ensures Current() == Request(old(Current()), tailDiscard, outputFile, answer)
    {
      if |buffer| == 0 {
        return;
      }
      buffer := Discard(buffer, tailDiscard);
      Enter("POSTING", VNone);
      posts := posts + [buffer];
      if answer.Some? && answer.value.VDict? {
        Enter("INTENT", answer.value);
      }
      Enter("IDLE", VNone);
      if outputFile != "" {
        saved := saved + [buffer];
      }
    }

    /** `notify(path, state)`: `DETECT_STOP` triggers a request,
        `LISTENING` clears the buffer, any other state is ignored; a state
        without a `state` entry raises. */
    method Notify(state: Value, answer: Option<Value>) returns (r: Outcome<ServiceError>)
      requires Idle()
      modifies this, machine
      ensures Idle()
      ensures var s := Subscript(state, "state");
              r == (if s.Err? then Fail(Python(s.error)) else Pass)
      ensures var s := Subscript(state, "state");
              s.Err? || (s.value != VStr("DETECT_STOP") && s.value != VStr("LISTENING")) ==>
                buffer == old(buffer) && intent == old(intent) && posts == old(posts)
                && saved == old(saved) && broadcasts == old(broadcasts)
      ensures Subscript(state, "state") == Ok(VStr("LISTENING")) ==>
                buffer == [] && intent == old(intent) && posts == old(posts)
                && saved == old(saved) && broadcasts == old(broadcasts)
      ensures Subscript(state, "state") == Ok(VStr("DETECT_STOP")) ==>
                Current() == Request(old(Current()), tailDiscard, outputFile, answer)
      ensures (r, Current()) == React(old(Current()), state, tailDiscard, outputFile, answer)
    {
      var s := Subscript(state, "state");
      if s.Err? {
        return Fail(Python(s.error));
      }
      r := Pass;
      if s.value == VStr("DETECT_STOP") {
        HandleRequest(answer);
      } else if s.value == VStr("LISTENING") {
        buffer := [];
      }
    }
  }
}
