/**
 * The configuration reader of config.py: every field a schema declares is
 * looked up in the parsed configuration file, checked and converted from
 * text into a typed value, or given its default.
 *
 * The file itself is already parsed: sections of `field = text` entries.
 * A schema is kept in its declaration order, which decides which error
 * is raised first.
 */
module Config {
  import opened Values
  import opened Strings

  /** The `type` (or list `subtype`) a schema field declares; any other
      Python type is `OtherType`. */
  datatype Kind = BoolType | StrType | IntType | FloatType | ListType | OtherType

  /** A schema field: its type, the list element type, the default, the
      allowed values and the bounds, each when declared. */
  datatype FieldSpec = FieldSpec(
    kind: Kind,
    subtype: Option<Kind>,
    default: Option<Value>,
    allowed: Option<seq<string>>,
    min: Option<int>,
    max: Option<int>)

  /** The exceptions of config_exceptions.py, each naming the section and
      the field, and the built-in ones raised on the way (`KeyError` for a
      missing section or list subtype, `ValueError` from `int`). */
  datatype ConfigError =
    | MandatoryParameterMissing(section: string, field: string)
    | ValueTooLow(section: string, field: string)
    | ValueTooHigh(section: string, field: string)
    | ValueIsNotABoolean(section: string, field: string)
    | ValueIsNotInAllowedValues(section: string, field: string)
    | InvalidSchemaType(section: string, field: string)
    | Raised(error: PyError)

  type Section = seq<(string, FieldSpec)>
  type Schema = seq<(string, Section)>
  /** The parsed file: section, then field, then its text. */
  type Input = map<string, map<string, string>>
  type Output = map<string, map<string, Value>>

  const TRUE_WORDS: seq<string> := ["yes", "true", "high", "on"]
  const FALSE_WORDS: seq<string> := ["no", "false", "low", "off"]
  const LIST_TRUE_WORDS: seq<string> := ["yes", "true"]
  const LIST_FALSE_WORDS: seq<string> := ["no", "false"]

  // ---------------------------------------------------------------- one text

  /** A boolean word, compared lower-cased. */
  function Boolean(text: string, trues: seq<string>, falses: seq<string>): (r: Option<bool>)
    ensures r == Some(true) <==> Lower(text) in trues
    ensures r == Some(false) <==> Lower(text) !in trues && Lower(text) in falses
  {
    if Lower(text) in trues then Some(true)
    else if Lower(text) in falses then Some(false)
    else None
  }

  /** A string checked against the allowed values, if any: it must be one
      of them once lower-cased, and is then stored lower-cased; without
      allowed values it is stored verbatim. */
  function Choice(spec: FieldSpec, text: string): (r: Option<string>)
    ensures spec.allowed.None? ==> r == Some(text)
    ensures spec.allowed.Some? ==> (r.Some? <==> Lower(text) in spec.allowed.value)
    ensures spec.allowed.Some? && r.Some? ==> r.value == Lower(text) && IsLower(r.value)
  {
    LowerIsCanonical(text);
    if spec.allowed.None? then Some(text)
    else if Lower(text) in spec.allowed.value then Some(Lower(text))
    else None
  }

  /** An integer: base 16 when the text starts with `0x`, base 10
      otherwise, then the declared bounds. */
  function Integer(spec: FieldSpec, section: string, field: string, text: string): (r: Result<int, ConfigError>)
    ensures r.Ok? ==> (spec.min.None? || spec.min.value <= r.value) && (spec.max.None? || r.value <= spec.max.value)
    ensures r.Ok? ==> ParseInt(text, if StartsWith(text, "0x") then 16 else 10) == Ok(r.value)
  {
    match ParseInt(text, if StartsWith(text, "0x") then 16 else 10)
    case Err(e) => Err(Raised(e))
    case Ok(x) =>
      if spec.min.Some? && x < spec.min.value then Err(ValueTooLow(section, field))
      else if spec.max.Some? && x > spec.max.value then Err(ValueTooHigh(section, field))
      else Ok(x)
  }

  /** A scalar field's value from its text. A float is kept as its text. */
  function Scalar(spec: FieldSpec, section: string, field: string, text: string): (r: Result<Value, ConfigError>)
    ensures spec.kind == OtherType ==> r == Err(InvalidSchemaType(section, field))
    ensures spec.kind == StrType && spec.allowed.None? ==> r == Ok(VStr(text))
    ensures spec.kind == IntType && r.Ok? ==> r.value.VInt?
    ensures spec.kind == ListType && r.Ok? ==> r.value.VList? && |r.value.items| <= |Pieces(text)|
  {
    match spec.kind
    case BoolType =>
      (match Boolean(text, TRUE_WORDS, FALSE_WORDS)
       case None => Err(ValueIsNotABoolean(section, field))
       case Some(b) => Ok(VBool(b)))
    case StrType =>
      (match Choice(spec, text)
       case None => Err(ValueIsNotInAllowedValues(section, field))
       case Some(s) => Ok(VStr(s)))
    case IntType =>
      (match Integer(spec, section, field, text)
       case Err(e) => Err(e)
       case Ok(x) => Ok(VInt(x)))
    case FloatType => Ok(VStr(text))
    case ListType =>
      (match Elements(spec, section, field, Pieces(text))
       case Err(e) => Err(e)
       case Ok(xs) => Ok(VList(xs)))
    case OtherType => Err(InvalidSchemaType(section, field))
  }

  /** The pieces of a list: the stripped text split on `,`, each piece
      stripped. There is always at least one. */
  function Pieces(text: string): (r: seq<string>)
    ensures |r| == Count(Strip(text), ',') + 1
  {
    var parts := Split(Strip(text), ',');
    seq(|parts|, i requires 0 <= i < |parts| => Strip(parts[i]))
  }

  /** One list element: a boolean (only yes/true/no/false), a string as
      for a scalar, an integer as for a scalar, a float kept as its text.
      An element of any other subtype is dropped (`None`); a list without
      a subtype raises `KeyError`. */
  function Element(spec: FieldSpec, section: string, field: string, text: string): (r: Result<Option<Value>, ConfigError>)
    ensures spec.subtype.None? ==> r == Err(Raised(KeyError))
    ensures spec.subtype.Some? && spec.subtype.value in {ListType, OtherType} ==> r == Ok(None)
    ensures r.Ok? && r.value.Some? ==> spec.subtype.Some? && spec.subtype.value in {BoolType, StrType, IntType, FloatType}
  {
    match spec.subtype
    case None => Err(Raised(KeyError))
    case Some(BoolType) =>
      (match Boolean(text, LIST_TRUE_WORDS, LIST_FALSE_WORDS)
       case None => Err(ValueIsNotABoolean(section, field))
       case Some(b) => Ok(Some(VBool(b))))
    case Some(StrType) =>
      (match Choice(spec, text)
       case None => Err(ValueIsNotInAllowedValues(section, field))
       case Some(s) => Ok(Some(VStr(s))))
    case Some(IntType) =>
      (match Integer(spec, section, field, text)
       case Err(e) => Err(e)
       case Ok(x) => Ok(Some(VInt(x))))
    case Some(FloatType) => Ok(Some(VStr(text)))
    case Some(_) => Ok(None)
  }

  /** The list branch's loop: the elements converted in order, the first
      failure raising. */
  function Elements(spec: FieldSpec, section: string, field: string, items: seq<string>): (r: Result<seq<Value>, ConfigError>)
    ensures r.Ok? ==> |r.value| <= |items|
    decreases |items|
  {
    if items == [] then Ok([]) else Prepend(Element(spec, section, field, items[0]), Elements(spec, section, field, items[1..]))
  }

  /** The elements of a suffix of the pieces, one piece at a time. */
  lemma ElementsStep(spec: FieldSpec, section: string, field: string, items: seq<string>, i: nat)
    requires i < |items|
    ensures Elements(spec, section, field, items[i..])
            == Prepend(Element(spec, section, field, items[i]), Elements(spec, section, field, items[i + 1..]))
  {
    assert items[i..][1..] == items[i + 1..];
    assert items[i..][0] == items[i];
  }

  /** The elements keep the order of the pieces: each converted piece in
      its place, nothing dropped for a recognised subtype, everything
      dropped for an unrecognised one. */
  lemma {:induction false} ElementsInOrder(spec: FieldSpec, section: string, field: string, items: seq<string>)
    requires spec.subtype.Some?
    ensures spec.subtype.value in {BoolType, StrType, IntType, FloatType} ==>
              var r := Elements(spec, section, field, items);
              r.Ok? ==> |r.value| == |items|
                        && forall i :: 0 <= i < |items| ==> Element(spec, section, field, items[i]) == Ok(Some(r.value[i]))
    ensures spec.subtype.value in {ListType, OtherType} ==> Elements(spec, section, field, items) == Ok([])
    decreases |items|
  {
    if items != [] {
      ElementsInOrder(spec, section, field, items[1..]);
      var r := Elements(spec, section, field, items);
      if r.Ok? && spec.subtype.value in {BoolType, StrType, IntType, FloatType} {
        var rest := Elements(spec, section, field, items[1..]);
        forall i | 0 <= i < |items|
          ensures Element(spec, section, field, items[i]) == Ok(Some(r.value[i]))
        {
          if i > 0 {
            assert items[1..][i - 1] == items[i];
            assert r.value[i] == rest.value[i - 1];
          }
        }
      }
    }
  }

  /** Booleans and allowed strings ignore case: two texts equal once
      lower-cased convert alike. */
  lemma CaseInsensitive(spec: FieldSpec, section: string, field: string, a: string, b: string)
    requires spec.kind in {BoolType, StrType} && (spec.kind == StrType ==> spec.allowed.Some?)
    requires Lower(a) == Lower(b)
    ensures Scalar(spec, section, field, a) == Scalar(spec, section, field, b)
  {
  }

  /** Upper-casing a text keeps what it lower-cases to. */
  lemma LowerOfUpper(s: string)
    ensures Lower(Upper(s)) == Lower(s)
  {
  }

  /** The boolean words, in any case: the four true words give `True`, the
      four false words `False`, anything else raises. */
  lemma BooleanWords(spec: FieldSpec, section: string, field: string, text: string)
    requires spec.kind == BoolType
    ensures Lower(text) in TRUE_WORDS <==> Scalar(spec, section, field, text) == Ok(VBool(true))
    ensures Lower(text) in FALSE_WORDS <==> Scalar(spec, section, field, text) == Ok(VBool(false))
    ensures Lower(text) !in TRUE_WORDS + FALSE_WORDS <==> Scalar(spec, section, field, text) == Err(ValueIsNotABoolean(section, field))
    ensures Scalar(spec, section, field, Upper(text)) == Scalar(spec, section, field, text)
  {
    LowerOfUpper(text);
    CaseInsensitive(spec, section, field, Upper(text), text);
  }

  /** A decimal rendering of any integer reads back as that integer when
      the bounds allow it, and raises the bound it breaks otherwise. */
  lemma IntegerRoundTrip(spec: FieldSpec, section: string, field: string, n: int)
    requires spec.kind == IntType
    ensures var r := Scalar(spec, section, field, IntToString(n));
            (spec.min.Some? && n < spec.min.value ==> r == Err(ValueTooLow(section, field)))
            && (!(spec.min.Some? && n < spec.min.value) && spec.max.Some? && n > spec.max.value ==> r == Err(ValueTooHigh(section, field)))
            && ((spec.min.None? || spec.min.value <= n) && (spec.max.None? || n <= spec.max.value) ==> r == Ok(VInt(n)))
  {
    NoHexPrefix(n);
    ParseIntToString(n);
  }

  /** A decimal rendering never looks hexadecimal. */
  lemma NoHexPrefix(n: int)
    ensures !StartsWith(IntToString(n), "0x")
  {
    if n >= 0 {
      assert IntToString(n) == NatToString(n);
    }
  }

  // ---------------------------------------------------------------- a field

  /** `validate_and_convert_types` for one field: a missing section raises
      `KeyError`; an absent field is mandatory without a default and takes
      the default verbatim otherwise; a present field is converted. */
  function Validate(spec: FieldSpec, section: string, field: string, input: Input): (r: Result<Value, ConfigError>)
    ensures section !in input ==> r == Err(Raised(KeyError))
    ensures section in input && field !in input[section] ==>
              (r.Ok? <==> spec.default.Some?)
              && (r.Ok? ==> r.value == spec.default.value)
              && (r.Err? ==> r.error == MandatoryParameterMissing(section, field))
    ensures section in input && field in input[section] ==> r == Scalar(spec, section, field, input[section][field])
  {
    if section !in input then Err(Raised(KeyError))
    else if field !in input[section] then
      if spec.default.None? then Err(MandatoryParameterMissing(section, field)) else Ok(spec.default.value)
    else Scalar(spec, section, field, input[section][field])
  }

  /** `output_dict[section][field] = value`. */
  function Store(output: Output, section: string, field: string, v: Value): (r: Result<Output, ConfigError>)
    ensures section in output ==> r.Ok? && r.value.Keys == output.Keys && r.value[section] == output[section][field := v]
    ensures section in output ==> forall s :: s in output && s != section ==> r.value[s] == output[s]
    ensures section !in output ==> r == Err(Raised(KeyError))
  {
    if section in output then Ok(output[section := output[section][field := v]]) else Err(Raised(KeyError))
  }

  // ---------------------------------------------------------------- parse_config

  /** The inner loop of `parse_config`: each field of a section, in
      order. */
  function Fields(fields: Section, section: string, input: Input, output: Output): (r: Result<Output, ConfigError>)
    requires section in output
    decreases |fields|
  {
    if fields == [] then Ok(output)
    else
      match Validate(fields[0].1, section, fields[0].0, input)
      case Err(e) => Err(e)
      case Ok(v) => Fields(fields[1..], section, input, output[section := output[section][fields[0].0 := v]])
  }

  /** The outer loop of `parse_config`: each section starts empty. */
  function Sections(schema: Schema, input: Input, output: Output): (r: Result<Output, ConfigError>)
    decreases |schema|
  {
    if schema == [] then Ok(output)
    else
      var section := schema[0].0;
      match Fields(schema[0].1, section, input, output[section := map[]])
      case Err(e) => Err(e)
      case Ok(o) => Sections(schema[1..], input, o)
  }

  function Parse(schema: Schema, input: Input): Result<Output, ConfigError>
  {
    Sections(schema, input, map[])
  }

  function FieldNames(fields: Section): (r: set<string>)
    ensures forall j :: 0 <= j < |fields| ==> fields[j].0 in r
  {
    set j | 0 <= j < |fields| :: fields[j].0
  }

  function SectionNames(schema: Schema): (r: set<string>)
    ensures forall i :: 0 <= i < |schema| ==> schema[i].0 in r
  {
    set i | 0 <= i < |schema| :: schema[i].0
  }

  /** Names declared once each, as the keys of a Python dictionary are. */
  predicate Distinct<T>(xs: seq<(string, T)>)
  {
    forall i, j :: 0 <= i < j < |xs| ==> xs[i].0 != xs[j].0
  }

  /** Every field of a section validates. */
  predicate AllValid(fields: Section, section: string, input: Input)
  {
    forall j :: 0 <= j < |fields| ==> Validate(fields[j].1, section, fields[j].0, input).Ok?
  }

  /** An output section holds each field's validated value. */
  predicate Holds(out: map<string, Value>, fields: Section, section: string, input: Input)
  {
    forall j :: 0 <= j < |fields| ==> fields[j].0 in out && Validate(fields[j].1, section, fields[j].0, input) == Ok(out[fields[j].0])
  }

  /** The names of a non-empty sequence: the first and the rest's; the
      first is not among the rest's when the names are distinct. */
  lemma NamesStep<T>(xs: seq<(string, T)>)
    requires xs != []
    ensures (set j | 0 <= j < |xs| :: xs[j].0) == {xs[0].0} + (set j | 0 <= j < |xs[1..]| :: xs[1..][j].0)
    ensures Distinct(xs) ==> Distinct(xs[1..]) && xs[0].0 !in (set j | 0 <= j < |xs[1..]| :: xs[1..][j].0)
  {
    assert forall j :: 0 < j < |xs| ==> xs[1..][j - 1] == xs[j];
    assert forall j :: 0 <= j < |xs[1..]| ==> xs[1..][j] == xs[j + 1];
  }

  /** A section's fields succeed exactly when each field validates. */
  lemma {:induction false} FieldsOk(fields: Section, section: string, input: Input, output: Output)
    requires section in output
    ensures Fields(fields, section, input, output).Ok? <==> AllValid(fields, section, input)
    decreases |fields|
  {
    if fields != [] {
      var v := Validate(fields[0].1, section, fields[0].0, input);
      if v.Ok? {
        FieldsOk(fields[1..], section, input, output[section := output[section][fields[0].0 := v.value]]);
      }
      assert forall j :: 0 < j < |fields| ==> fields[1..][j - 1] == fields[j];
    }
  }

  /** A section's fields fill exactly that section, with its fields, and
      leave everything else alone. */
  lemma {:induction false} FieldsKeys(fields: Section, section: string, input: Input, output: Output)
    requires section in output
    ensures var r := Fields(fields, section, input, output);
            r.Ok? ==>
              r.value.Keys == output.Keys
              && (forall s :: s in output && s != section ==> r.value[s] == output[s])
              && r.value[section].Keys == output[section].Keys + FieldNames(fields)
              && forall f :: f in output[section] && f !in FieldNames(fields) ==> r.value[section][f] == output[section][f]
    decreases |fields|
  {
    if fields != [] {
      var v := Validate(fields[0].1, section, fields[0].0, input);
      if v.Ok? {
        FieldsKeys(fields[1..], section, input, output[section := output[section][fields[0].0 := v.value]]);
        NamesStep(fields);
      }
    }
  }

  /** With distinct field names, each field ends up with its validated
      value. */
  lemma {:induction false} FieldsValues(fields: Section, section: string, input: Input, output: Output)
    requires section in output && Distinct(fields)
    ensures var r := Fields(fields, section, input, output);
            r.Ok? ==> section in r.value && Holds(r.value[section], fields, section, input)
    decreases |fields|
  {
    FieldsKeys(fields, section, input, output);
    if fields != [] {
      var v := Validate(fields[0].1, section, fields[0].0, input);
      if v.Ok? {
        var next := output[section := output[section][fields[0].0 := v.value]];
        NamesStep(fields);
        FieldsValues(fields[1..], section, input, next);
        FieldsKeys(fields[1..], section, input, next);
        assert forall j :: 0 < j < |fields| ==> fields[1..][j - 1] == fields[j];
      }
    }
  }

  /** The sections succeed exactly when every field of every section
      validates. */
  lemma {:induction false} SectionsOk(schema: Schema, input: Input, output: Output)
    ensures Sections(schema, input, output).Ok? <==>
              forall i :: 0 <= i < |schema| ==> AllValid(schema[i].1, schema[i].0, input)
    decreases |schema|
  {
    if schema != [] {
      var section := schema[0].0;
      var start := output[section := map[]];
      FieldsOk(schema[0].1, section, input, start);
      var first := Fields(schema[0].1, section, input, start);
      if first.Ok? {
        SectionsOk(schema[1..], input, first.value);
      }
      assert forall i :: 0 < i < |schema| ==> schema[1..][i - 1] == schema[i];
    }
  }

  /** The sections yield exactly the schema's sections besides what was
      there. */
  lemma {:induction false} SectionsKeys(schema: Schema, input: Input, output: Output)
    ensures var r := Sections(schema, input, output);
            r.Ok? ==>
              r.value.Keys == output.Keys + SectionNames(schema)
              && forall s :: s in output && s !in SectionNames(schema) ==> r.value[s] == output[s]
    decreases |schema|
  {
    if schema != [] {
      var section := schema[0].0;
      var start := output[section := map[]];
      FieldsKeys(schema[0].1, section, input, start);
      var first := Fields(schema[0].1, section, input, start);
      if first.Ok? {
        SectionsKeys(schema[1..], input, first.value);
        NamesStep(schema);
      }
    }
  }

  /** With distinct names, each section holds exactly its fields, each
      with its validated value. */
  lemma {:induction false} SectionsValues(schema: Schema, input: Input, output: Output)
    requires Distinct(schema)
    requires forall i :: 0 <= i < |schema| ==> Distinct(schema[i].1)
    ensures var r := Sections(schema, input, output);
            r.Ok? ==> forall i :: 0 <= i < |schema| ==>
                        schema[i].0 in r.value
                        && r.value[schema[i].0].Keys == FieldNames(schema[i].1)
                        && Holds(r.value[schema[i].0], schema[i].1, schema[i].0, input)
    decreases |schema|
  {
    SectionsKeys(schema, input, output);
    if schema != [] {
      var section := schema[0].0;
      var start := output[section := map[]];
      FieldsKeys(schema[0].1, section, input, start);
      FieldsValues(schema[0].1, section, input, start);
      var first := Fields(schema[0].1, section, input, start);
      if first.Ok? {
        NamesStep(schema);
        assert forall i :: 0 < i < |schema| ==> schema[1..][i - 1] == schema[i];
        SectionsValues(schema[1..], input, first.value);
        SectionsKeys(schema[1..], input, first.value);
      }
    }
  }

  /** `parse_config`'s result has exactly the schema's sections and, in
      each, exactly its fields with their validated values; it fails
      exactly when some field fails. */
  lemma ParseShape(schema: Schema, input: Input)
    requires Distinct(schema)
    requires forall i :: 0 <= i < |schema| ==> Distinct(schema[i].1)
    ensures var r := Parse(schema, input);
            (r.Ok? <==> forall i :: 0 <= i < |schema| ==> AllValid(schema[i].1, schema[i].0, input))
            && (r.Ok? ==>
                  r.value.Keys == SectionNames(schema)
                  && forall i :: 0 <= i < |schema| ==>
                       schema[i].0 in r.value
                       && r.value[schema[i].0].Keys == FieldNames(schema[i].1)
                       && Holds(r.value[schema[i].0], schema[i].1, schema[i].0, input))
  {
    SectionsOk(schema, input, map[]);
    SectionsKeys(schema, input, map[]);
    SectionsValues(schema, input, map[]);
  }

  // ---------------------------------------------------------------- the loops

  /** The list branch's loop: the pieces converted and appended in
      order. */
  method ConvertList(spec: FieldSpec, section: string, field: string, items: seq<string>) returns (r: Result<seq<Value>, ConfigError>)
    ensures r == Elements(spec, section, field, items)
  {
    var values: seq<Value> := [];
    var i := 0;
    while i < |items|
      invariant 0 <= i <= |items|
      invariant Elements(spec, section, field, items).Ok? ==>
                  Elements(spec, section, field, items[i..]).Ok?
                  && values + Elements(spec, section, field, items[i..]).value == Elements(spec, section, field, items).value
      invariant Elements(spec, section, field, items).Err? ==> Elements(spec, section, field, items[i..]) == Elements(spec, section, field, items)
    {
      ElementsStep(spec, section, field, items, i);
      var x := Element(spec, section, field, items[i]);
      if x.Err? {
        return Err(x.error);
      }
      if x.value.Some? {
        values := values + [x.value.value];
      }
      i := i + 1;
    }
    assert items[i..] == [];
    assert Elements(spec, section, field, items[i..]) == Ok([]);
    assert values + [] == values;
    r := Ok(values);
  }

  /** `validate_and_convert_types(schema, value, section, field,
      output_dict)`: the field's value written into the output. */
  method ValidateAndConvertTypes(spec: FieldSpec, input: Input, section: string, field: string, output: Output)
    returns (r: Result<Output, ConfigError>)
    ensures r == match Validate(spec, section, field, input)
                 case Err(e) => Err(e)
                 case Ok(v) => Store(output, section, field, v)
  {
    if section !in input {
      return Err(Raised(KeyError));
    }
    var v: Value;
    if field !in input[section] {
      if spec.default.None? {
        return Err(MandatoryParameterMissing(section, field));
      }
      v := spec.default.value;
    } else if spec.kind == ListType {
      var xs := ConvertList(spec, section, field, Pieces(input[section][field]));
      assert Scalar(spec, section, field, input[section][field]) ==
             match xs case Err(e) => Err(e) case Ok(ys) => Ok(VList(ys));
      if xs.Err? {
        return Err(xs.error);
      }
      v := VList(xs.value);
    } else {
      var x := Scalar(spec, section, field, input[section][field]);
      if x.Err? {
        return Err(x.error);
      }
      v := x.value;
    }
    r := Store(output, section, field, v);
  }

  /** `parse_config(file, schema)` over the parsed file: for each section
      of the schema an empty output section, then each of its fields. */
  method ParseConfig(schema: Schema, input: Input) returns (r: Result<Output, ConfigError>)
    ensures r == Parse(schema, input)
  {
    var output: Output := map[];
    var i := 0;
    while i < |schema|
      invariant 0 <= i <= |schema|
      invariant Parse(schema, input) == Sections(schema[i..], input, output)
    {
      assert schema[i..][1..] == schema[i + 1..];
      var section := schema[i].0;
      var fields := schema[i].1;
      output := output[section := map[]];
      ghost var start := output;
      var j := 0;
      while j < |fields|
        invariant 0 <= j <= |fields| && section in output
        invariant Fields(fields, section, input, start) == Fields(fields[j..], section, input, output)
      {
        assert fields[j..][1..] == fields[j + 1..];
        var next := ValidateAndConvertTypes(fields[j].1, input, section, fields[j].0, output);
        if next.Err? {
          return Err(next.error);
        }
        output := next.value;
        j := j + 1;
      }
      i := i + 1;
    }
    r := Ok(output);
  }
}
