/**
 * The service framework of service.py that every resource builds on: the
 * error codes and exception classes, actor identities, and the state
 * machine that guards each resource's state name.
 */
module Service {
  import opened Values
  import opened Strings

  /** An actor proxy, compared by identity. */
  type ActorId = nat

  // Wire error codes (`ServiceErrors`).
  const SUCCESS: nat := 0
  const MESSAGE_DIRECTION_INCORRECT: nat := 1
  const RESOURCE_DOES_NOT_EXIST: nat := 2
  const CONTEXT_DOES_NOT_EXIST: nat := 3
  const JSON_ENCODING_ERROR: nat := 4
  const JSON_SCHEMA_VALIDATION_ERROR: nat := 5
  const RESOURCE_CANNOT_BE_DELETE: nat := 6
  const METHOD_NOT_IMPLEMENTED: nat := 7
  const METHOD_NOT_SUPPORTED_ON_OBJECT: nat := 8
  const ILLEGAL_STATE: nat := 9
  const UNRECOGNISED_STATE: nat := 10
  const MALFORMED_DATA_OBJECT: nat := 11
  const RESOURCE_EXCEPTION: nat := 12

  /** The exceptions a resource operation can raise: the service exception
      classes, the bare `ServiceException` of a path conflict, and Python's
      built-in exceptions. */
  datatype ServiceError =
    | MalformedDataObject
    | IllegalState
    | UnrecognisedState
    | MethodNotImplemented
    | ResourceCannotBeDeleted
    | ResourceDoesNotExist
    | ResourceException(message: string)
    | PathConflict(path: string)
    | Python(kind: PyError)

  /** The `error_code` attribute of an exception; the bare path-conflict
      exception and built-in exceptions have none. */
  function ErrorCode(e: ServiceError): (r: Option<nat>)
    ensures r.None? <==> e.PathConflict? || e.Python?
    ensures r.Some? ==> SUCCESS < r.value <= RESOURCE_EXCEPTION
  {
    match e
    case MalformedDataObject => Some(MALFORMED_DATA_OBJECT)
    case IllegalState => Some(ILLEGAL_STATE)
    case UnrecognisedState => Some(UNRECOGNISED_STATE)
    case MethodNotImplemented => Some(METHOD_NOT_IMPLEMENTED)
    case ResourceCannotBeDeleted => Some(RESOURCE_CANNOT_BE_DELETE)
    case ResourceDoesNotExist => Some(RESOURCE_DOES_NOT_EXIST)
    case ResourceException(_) => Some(RESOURCE_EXCEPTION)
    case PathConflict(_) => None
    case Python(_) => None
  }

  /** Distinct exception classes carry distinct codes, so a code names its
      class. */
  lemma ErrorCodeNamesClass(e1: ServiceError, e2: ServiceError)
    requires ErrorCode(e1).Some? && ErrorCode(e1) == ErrorCode(e2)
    ensures e1.ResourceException? <==> e2.ResourceException?
    ensures !e1.ResourceException? ==> e1 == e2
  {
  }

  /** `ServiceStateMachine`: a current state name, the recognised names and
      an optional table of allowed successors per state. */
  class StateMachine {
    const allowed: seq<string>
    const next: map<string, seq<string>>
    var current: string

    /** A state the machine can ever hold: recognised, or a successor in the
        table. */
    predicate Admissible(s: string)
    {
      s in allowed || exists p :: p in next && s in next[p]
    }

    ghost predicate Valid()
      reads this
    {
      IsUpper(current) && Admissible(current)
    }

    /** `validate(s.upper())` from state `from`: a state with an entry in
        the successor table only moves to one of its successors
        (`ServiceIllegalState` otherwise); any other state moves only to a
        recognised state (`ServiceUnrecognisedState` otherwise). */
    function Check(from: string, s: string): (r: Outcome<ServiceError>)
    {
      var u := Upper(s);
      if from in next then (if u in next[from] then Pass else Fail(IllegalState))
      else if u in allowed then Pass
      else Fail(UnrecognisedState)
    }

    /** Construction with a default state that is recognised; the state is
        kept upper-cased. */
    constructor (allowed: seq<string>, next: map<string, seq<string>>, default: string)
      requires Upper(default) in allowed
      ensures Valid()
      ensures this.allowed == allowed && this.next == next && current == Upper(default)
    {
      this.allowed := allowed;
      this.next := next;
      current := Upper(default);
      new;
      UpperIsCanonical(default);
    }

    /** Construction that reports an unrecognised default the way the
        constructor raises it. */
    static method Create(allowed: seq<string>, next: map<string, seq<string>>, default: string)
      returns (r: Result<StateMachine, ServiceError>)
      ensures r.Ok? <==> Upper(default) in allowed
      ensures r.Err? ==> r.error == UnrecognisedState
      ensures r.Ok? ==> fresh(r.value) && r.value.Valid() && r.value.current == Upper(default)
      ensures r.Ok? ==> r.value.allowed == allowed && r.value.next == next
    {
      if Upper(default) in allowed {
        var m := new StateMachine(allowed, next, default);
        r := Ok(m);
      } else {
        r := Err(UnrecognisedState);
      }
    }

    /** What the `state` setter makes of a payload: a string is checked
        with `Check`; anything else has no `upper` and raises
        `AttributeError`. */
    function Try(from: string, v: Value): (r: Outcome<ServiceError>)
      ensures r.Pass? ==> v.VStr? && Admissible(Upper(v.s))
      ensures !v.VStr? ==> r == Fail(Python(AttributeError))
    {
      if v.VStr? then Check(from, v.s) else Fail(Python(AttributeError))
    }

    /** The `state` setter applied to a payload: a string is validated and
        stored upper-cased. A rejected value leaves the state alone. */
    method Assign(v: Value) returns (r: Outcome<ServiceError>)
      requires Valid()
      modifies this
      ensures Valid()
      ensures r == Try(old(current), v)
      ensures current == (if r.Pass? then Upper(v.s) else old(current))
    {
      if !v.VStr? {
        return Fail(Python(AttributeError));
      }
      r := Check(current, v.s);
      if r.Pass? {
        CheckAdmits(current, v.s);
        UpperIsCanonical(v.s);
        current := Upper(v.s);
      }
    }

    /** An accepted transition always lands on an admissible state: the
        machine never holds a state outside its tables. */
    lemma CheckAdmits(from: string, s: string)
      requires Check(from, s).Pass?
      ensures Admissible(Upper(s))
    {
    }

    /** State names are case-insensitive: a name and its upper- and
        lower-case spellings are judged alike. */
    lemma CheckIgnoresCase(from: string, s: string)
      ensures Check(from, s) == Check(from, Upper(s)) == Check(from, Lower(s))
    {
      UpperIsCanonical(s);
      assert Upper(Lower(s)) == Upper(s);
    }

    /** Without a successor table every recognised state is reachable from
        every state, and nothing else is. */
    lemma CheckWithoutTable(from: string, s: string)
      requires next == map[]
      ensures Check(from, s).Pass? <==> Upper(s) in allowed
      ensures Check(from, s).Fail? ==> Check(from, s).error == UnrecognisedState
    {
    }
  }

  /** The guarded update every resource's `_set_state_internal` performs:
      `if state and state != machine.state: machine.state = state`.
      Reports whether the state changed. */
  method Transition(m: StateMachine, v: Value) returns (changed: bool, r: Outcome<ServiceError>)
    requires m.Valid()
    modifies m
    ensures m.Valid()
    ensures !Truthy(v) || v == VStr(old(m.current)) ==> !changed && r == Pass && m.current == old(m.current)
    ensures Truthy(v) && v != VStr(old(m.current)) ==>
              r == m.Try(old(m.current), v)
              && changed == r.Pass?
              && m.current == (if r.Pass? then Upper(v.s) else old(m.current))
  {
    changed, r := false, Pass;
    if Truthy(v) && v != VStr(m.current) {
      r := m.Assign(v);
      changed := r.Pass?;
    }
  }
}
