/** The payload built from a tool's argument schema, and the input model built from the same schema. */
module ToolPayload {
  import opened Wrappers
  import opened Json
  import opened Picking
  import opened Text
  import KeyNormaliser

  /** An argument schema. `properties` is empty when it is missing or not a dictionary, `required`
      when it is not a list; a property spec is any JSON value. */
  datatype Schema = Schema(properties: seq<Entry>, required: seq<string>)

  /** What a payload is built from; `phrase` is the query as simplified for on-wiki search. */
  datatype Inputs = Inputs(query: string, phrase: string, constraints: seq<Entry>, gaps: seq<string>)

  type Payload = map<string, Json>

  const SEARCH_NAMES: set<string> := {"gsrsearch", "srsearch"}
  const QUERY_NAMES: set<string> := {"query", "q", "question", "prompt", "search_query", "search_term", "text"}
  const CONSTRAINT_NAMES: set<string> := {"constraints", "filters"}
  const GAP_NAMES: set<string> := {"gaps", "missing_topics", "follow_up_topics"}

  function Texts(gaps: seq<string>): Json { Arr(seq(|gaps|, i requires 0 <= i < |gaps| => Str(gaps[i]))) }

  /** Constraints by lower-cased key; the last of colliding keys wins. */
  function Lowered(constraints: seq<Entry>): Payload {
    if constraints == [] then map[]
    else
      var e := constraints[|constraints| - 1];
      Lowered(constraints[..|constraints| - 1])[Lower(e.key) := e.value]
  }

  function Default(spec: Json): Option<Json> {
    if spec.Obj? then KeyNormaliser.Lookup(spec.entries, "default") else None
  }

  /** The value of one property, if anything determines it. */
  function ValueFor(x: Inputs, lowered: Payload, key: string, spec: Json): Option<Json> {
    var k := Lower(key);
    if k in SEARCH_NAMES then Some(Str(x.phrase))
    else if k in QUERY_NAMES then Some(Str(x.query))
    else if k in CONSTRAINT_NAMES then Some(Obj(x.constraints))
    else if k in GAP_NAMES then Some(Texts(x.gaps))
    else if k in lowered then Some(lowered[k])
    else if KeyNormaliser.Lookup(x.constraints, key).Some? then KeyNormaliser.Lookup(x.constraints, key)
    else Default(spec)
  }

  /** The type named by a spec; None when it has none or it is not a string. */
  function TypeOf(spec: Json): Option<string> {
    if spec.Obj? then
      match KeyNormaliser.Lookup(spec.entries, "type")
      case Some(Str(t)) => Some(t)
      case _ => None
    else None
  }

  function Fallback(type_: Option<string>, x: Inputs): Json {
    match type_
    case None => Str(x.query)
    case Some(t) =>
      if t == "string" then Str(x.query)
      else if t == "integer" || t == "number" then Num(0.0)
      else if t == "boolean" then Bool(false)
      else if t == "array" then Arr([])
      else if t == "object" then Obj(x.constraints)
      else Str(x.query)
  }

  function SpecOf(properties: seq<Entry>, name: string): Json {
    KeyNormaliser.Lookup(properties, name).GetOr(Obj([]))
  }

  function FillProperties(x: Inputs, properties: seq<Entry>): Payload {
    if properties == [] then map[]
    else
      var before := FillProperties(x, properties[..|properties| - 1]);
      var e := properties[|properties| - 1];
      match ValueFor(x, Lowered(x.constraints), e.key, e.value)
      case None => before
      case Some(v) => before[e.key := v]
  }

  function FillRequired(x: Inputs, properties: seq<Entry>, required: seq<string>, payload: Payload): Payload {
    if required == [] then payload
    else
      var before := FillRequired(x, properties, required[..|required| - 1], payload);
      var name := required[|required| - 1];
      if name in before then before
      else before[name := Fallback(TypeOf(SpecOf(properties, name)), x)]
  }

  function PlainPayload(x: Inputs): Payload {
    map["query" := Str(x.query)] +
    (if x.constraints != [] then map["constraints" := Obj(x.constraints)] else map[]) +
    (if x.gaps != [] then map["gaps" := Texts(x.gaps)] else map[])
  }

  function PayloadFor(x: Inputs, s: Schema): Payload {
    if s.properties == [] then PlainPayload(x)
    else FillRequired(x, s.properties, s.required, FillProperties(x, s.properties))
  }

  method BuildToolPayload(x: Inputs, s: Schema) returns (payload: Payload)
    ensures payload == PayloadFor(x, s)
  {
    if s.properties == [] {
      payload := map["query" := Str(x.query)];
      if x.constraints != [] { payload := payload["constraints" := Obj(x.constraints)]; }
      if x.gaps != [] { payload := payload["gaps" := Texts(x.gaps)]; }
      return;
    }
    payload := map[];
    var lowered := Lowered(x.constraints);
    for i := 0 to |s.properties|
      invariant payload == FillProperties(x, s.properties[..i])
    {
      assert s.properties[..i + 1][..i] == s.properties[..i];
      var value := ValueFor(x, lowered, s.properties[i].key, s.properties[i].value);
      if value.Some? { payload := payload[s.properties[i].key := value.value]; }
    }
    assert s.properties[..|s.properties|] == s.properties;
    ghost var filled := payload;
    for i := 0 to |s.required|
      invariant payload == FillRequired(x, s.properties, s.required[..i], filled)
    {
      assert s.required[..i + 1][..i] == s.required[..i];
      var name := s.required[i];
      if name !in payload {
        payload := payload[name := Fallback(TypeOf(SpecOf(s.properties, name)), x)];
      }
    }
    assert s.required[..|s.required|] == s.required;
  }

  // ---- The input model -------------------------------------------------------------------------

  datatype FieldType = TString | TInteger | TNumber | TBoolean | TArray | TObject

  datatype FieldDef = FieldDef(name: string, type_: FieldType, required: bool)

  function FieldTypeOf(spec: Json): FieldType {
    match TypeOf(spec)
    case None => TString
    case Some(t) =>
      if t == "integer" then TInteger
      else if t == "number" then TNumber
      else if t == "boolean" then TBoolean
      else if t == "array" then TArray
      else if t == "object" then TObject
      else TString
  }

  const GENERIC_INPUT: seq<FieldDef> :=
    [FieldDef("query", TString, true), FieldDef("constraints", TObject, false), FieldDef("gaps", TArray, false)]

  /** One field per property whose spec is a dictionary. */
  function FieldDefs(properties: seq<Entry>, required: seq<string>): seq<FieldDef> {
    if properties == [] then []
    else
      var e := properties[|properties| - 1];
      FieldDefs(properties[..|properties| - 1], required) +
        (if e.value.Obj? then [FieldDef(e.key, FieldTypeOf(e.value), e.key in required)] else [])
  }

  function ModelFor(s: Schema): seq<FieldDef> {
    var defs := FieldDefs(s.properties, s.required);
    if defs == [] then GENERIC_INPUT else defs
  }

  method ArgsSchemaToModel(s: Schema) returns (fields: seq<FieldDef>)
    ensures fields == ModelFor(s)
  {
    if s.properties == [] { return GENERIC_INPUT; }
    fields := [];
    for i := 0 to |s.properties|
      invariant fields == FieldDefs(s.properties[..i], s.required)
    {
      assert s.properties[..i + 1][..i] == s.properties[..i];
      var e := s.properties[i];
      if !e.value.Obj? { continue; }
      fields := fields + [FieldDef(e.key, FieldTypeOf(e.value), e.key in s.required)];
    }
    assert s.properties[..|s.properties|] == s.properties;
    if fields == [] { fields := GENERIC_INPUT; }
  }

  /** Some property spec is a dictionary. */
  predicate HasSpec(properties: seq<Entry>) {
    exists i :: 0 <= i < |properties| && properties[i].value.Obj?
  }

  predicate Names(properties: seq<Entry>, name: string) {
    exists i :: 0 <= i < |properties| && properties[i].key == name
  }

  /** The payload gives every field that the model requires. */
  predicate Covers(payload: Payload, fields: seq<FieldDef>) {
    forall i | 0 <= i < |fields| && fields[i].required :: fields[i].name in payload
  }

  lemma {:induction false} RequiredFilled(x: Inputs, properties: seq<Entry>, required: seq<string>, payload: Payload)
    ensures FillRequired(x, properties, required, payload).Keys == payload.Keys + (set name | name in required)
    decreases |required|
  {
    if required == [] {
    } else {
      var front, name := required[..|required| - 1], required[|required| - 1];
      RequiredFilled(x, properties, front, payload);
      assert required == front + [name];
    }
  }

  lemma {:induction false} PropertiesFilled(x: Inputs, properties: seq<Entry>)
    ensures forall key | key in FillProperties(x, properties) :: Names(properties, key)
    ensures Names(properties, "query") ==> "query" in FillProperties(x, properties)
    decreases |properties|
  {
    if properties == [] {
    } else {
      var front, e := properties[..|properties| - 1], properties[|properties| - 1];
      PropertiesFilled(x, front);
      assert properties == front + [e];
      forall key | key in FillProperties(x, properties)
        ensures Names(properties, key)
      {
        if key in FillProperties(x, front) {
          var i :| 0 <= i < |front| && front[i].key == key;
          assert properties[i].key == key;
        } else {
          assert properties[|front|].key == key;
        }
      }
      if Names(properties, "query") {
        assert Lower("query") == "query";
        assert e.key == "query" || Names(front, "query") by {
          var i :| 0 <= i < |properties| && properties[i].key == "query";
          assert i < |front| ==> front[i].key == "query";
        }
      }
    }
  }

  lemma {:induction false} FieldsAreRequired(properties: seq<Entry>, required: seq<string>)
    ensures forall i | 0 <= i < |FieldDefs(properties, required)| :: FieldDefs(properties, required)[i].required ==>
        FieldDefs(properties, required)[i].name in required
    ensures FieldDefs(properties, required) == [] <==> !HasSpec(properties)
    decreases |properties|
  {
    if properties == [] {
    } else {
      var front, e := properties[..|properties| - 1], properties[|properties| - 1];
      FieldsAreRequired(front, required);
      assert properties == front + [e];
      if HasSpec(front) {
        var i :| 0 <= i < |front| && front[i].value.Obj?;
        assert properties[i].value.Obj?;
      }
      if e.value.Obj? { assert properties[|front|].value.Obj?; }
    }
  }

  /** The payload satisfies the model built from the same schema exactly when the schema has no
      properties, or has a property whose spec is a dictionary, or names `query` itself. */
  lemma PayloadCoversModel(x: Inputs, s: Schema)
    ensures Covers(PayloadFor(x, s), ModelFor(s)) <==>
      s.properties == [] || HasSpec(s.properties) || Names(s.properties, "query") || "query" in s.required
    ensures s.properties != [] ==> forall name | name in s.required :: name in PayloadFor(x, s)
  {
    FieldsAreRequired(s.properties, s.required);
    if s.properties == [] {
      assert "query" in PlainPayload(x);
    } else {
      PropertiesFilled(x, s.properties);
      RequiredFilled(x, s.properties, s.required, FillProperties(x, s.properties));
      if !HasSpec(s.properties) {
        assert GENERIC_INPUT[0].name == "query" && GENERIC_INPUT[0].required;
      }
    }
  }

  // ---- What the payload holds --------------------------------------------------------------------

  lemma {:induction false} FilledValue(x: Inputs, properties: seq<Entry>, i: nat)
    requires DistinctKeys(properties) && i < |properties|
    ensures var e, filled := properties[i], FillProperties(x, properties);
      var v := ValueFor(x, Lowered(x.constraints), e.key, e.value);
      if v == None then e.key !in filled else e.key in filled && filled[e.key] == v.value
    decreases |properties|
  {
    var n := |properties| - 1;
    PropertiesFilled(x, properties[..n]);
    if i < n {
      assert properties[..n][i] == properties[i];
      FilledValue(x, properties[..n], i);
    }
  }

  lemma {:induction false} RequiredKeeps(x: Inputs, properties: seq<Entry>, required: seq<string>, payload: Payload,
          key: string)
    ensures var p := FillRequired(x, properties, required, payload);
      && (key in p <==> key in payload || key in required)
      && (key in payload ==> p[key] == payload[key])
      && (key !in payload && key in required ==> p[key] == Fallback(TypeOf(SpecOf(properties, key)), x))
    decreases |required|
  {
    if required == [] {
    } else {
      var front, name := required[..|required| - 1], required[|required| - 1];
      RequiredKeeps(x, properties, front, payload, key);
      assert required == front + [name];
    }
  }

  /** The last constraint whose key lower-cases to `k` gives the value. */
  lemma {:induction false} LoweredLast(constraints: seq<Entry>, k: string, j: nat)
    requires j < |constraints| && Lower(constraints[j].key) == k
    requires forall i | j < i < |constraints| :: Lower(constraints[i].key) != k
    ensures k in Lowered(constraints) && Lowered(constraints)[k] == constraints[j].value
    decreases |constraints|
  {
    var n := |constraints| - 1;
    if j < n {
      var front := constraints[..n];
      assert front[j] == constraints[j] && forall i | j < i < n :: front[i] == constraints[i];
      LoweredLast(front, k, j);
    }
  }

  lemma {:induction false} LoweredNone(constraints: seq<Entry>, k: string)
    requires forall i | 0 <= i < |constraints| :: Lower(constraints[i].key) != k
    ensures k !in Lowered(constraints)
    decreases |constraints|
  {
    if constraints == [] {
    } else {
      var front := constraints[..|constraints| - 1];
      assert forall i | 0 <= i < |front| :: front[i] == constraints[i];
      LoweredNone(front, k);
    }
  }

  /** The list of gaps. */
  predicate ListsGaps(value: Json, gaps: seq<string>) {
    value.Arr? && |value.items| == |gaps| && forall i | 0 <= i < |gaps| :: value.items[i] == Str(gaps[i])
  }

  /** The names a payload fills from the inputs of the turn. */
  predicate Reserved(k: string) {
    || k in {"gsrsearch", "srsearch"}
    || k in {"query", "q", "question", "prompt", "search_query", "search_term", "text"}
    || k in {"constraints", "filters"}
    || k in {"gaps", "missing_topics", "follow_up_topics"}
  }

  predicate Constrained(x: Inputs, k: string) {
    exists j :: 0 <= j < |x.constraints| && Lower(x.constraints[j].key) == k
  }

  /** A property with a reserved name, in any case, holds the input it stands for. */
  lemma ReservedProperty(x: Inputs, s: Schema, i: nat)
    requires DistinctKeys(s.properties) && i < |s.properties| && Reserved(Lower(s.properties[i].key))
    ensures var key, p := s.properties[i].key, PayloadFor(x, s); var k := Lower(key);
      && key in p
      && (k in {"gsrsearch", "srsearch"} ==> p[key] == Str(x.phrase))
      && (k in {"query", "q", "question", "prompt", "search_query", "search_term", "text"} ==> p[key] == Str(x.query))
      && (k in {"constraints", "filters"} ==> p[key] == Obj(x.constraints))
      && (k in {"gaps", "missing_topics", "follow_up_topics"} ==> ListsGaps(p[key], x.gaps))
  {
    var e := s.properties[i];
    FilledValue(x, s.properties, i);
    RequiredKeeps(x, s.properties, s.required, FillProperties(x, s.properties), e.key);
  }

  /** Any other property that names a constraint, in any case, holds the last constraint of that name. */
  lemma ConstrainedProperty(x: Inputs, s: Schema, i: nat, j: nat)
    requires DistinctKeys(s.properties) && i < |s.properties| && !Reserved(Lower(s.properties[i].key))
    requires j < |x.constraints| && Lower(x.constraints[j].key) == Lower(s.properties[i].key)
    requires forall l | j < l < |x.constraints| :: Lower(x.constraints[l].key) != Lower(s.properties[i].key)
    ensures var key, p := s.properties[i].key, PayloadFor(x, s);
      key in p && p[key] == x.constraints[j].value
  {
    var e := s.properties[i];
    LoweredLast(x.constraints, Lower(e.key), j);
    FilledValue(x, s.properties, i);
    RequiredKeeps(x, s.properties, s.required, FillProperties(x, s.properties), e.key);
  }

  predicate First(entries: seq<Entry>, d: nat)
    requires d < |entries|
  {
    forall l | 0 <= l < d :: entries[l].key != entries[d].key
  }

  /** The object holds this value under the key. */
  predicate Gives(spec: Json, key: string, value: Json) {
    spec.Obj? &&
    exists d :: 0 <= d < |spec.entries| && spec.entries[d] == Entry(key, value) && First(spec.entries, d)
  }

  predicate GivesNone(spec: Json, key: string) {
    spec.Obj? ==> forall l | 0 <= l < |spec.entries| :: spec.entries[l].key != key
  }

  lemma LooksUp(spec: Json, key: string, value: Json)
    requires Gives(spec, key, value)
    ensures KeyNormaliser.Lookup(spec.entries, key) == Some(value)
  {
  }

  lemma NotConstrained(x: Inputs, key: string)
    requires !Constrained(x, Lower(key))
    ensures Lower(key) !in Lowered(x.constraints) && KeyNormaliser.Lookup(x.constraints, key) == None
  {
    LoweredNone(x.constraints, Lower(key));
  }

  /** A property that nothing else fills holds its default if it has one. Without one it is left out,
      unless it is required; then a value of its type is invented. */
  lemma OtherProperty(x: Inputs, s: Schema, i: nat, default: Json)
    requires DistinctKeys(s.properties) && i < |s.properties| && !Reserved(Lower(s.properties[i].key))
    requires !Constrained(x, Lower(s.properties[i].key))
    ensures var e, p := s.properties[i], PayloadFor(x, s);
      && (Gives(e.value, "default", default) ==> e.key in p && p[e.key] == default)
      && (GivesNone(e.value, "default") ==> (e.key in p <==> e.key in s.required))
      && (GivesNone(e.value, "default") && e.key in s.required ==> Invented(p[e.key], e.value, x))
  {
    var e := s.properties[i];
    DefaultOrFallback(x, s, i);
    if Gives(e.value, "default", default) { LooksUp(e.value, "default", default); }
    FallbackIsInvented(x, e.value);
  }

  lemma DefaultOrFallback(x: Inputs, s: Schema, i: nat)
    requires DistinctKeys(s.properties) && i < |s.properties| && !Reserved(Lower(s.properties[i].key))
    requires !Constrained(x, Lower(s.properties[i].key))
    ensures var e, p := s.properties[i], PayloadFor(x, s); var d := Default(e.value);
      if d.Some? then e.key in p && p[e.key] == d.value
      else (e.key in p <==> e.key in s.required) && (e.key in s.required ==> p[e.key] == Fallback(TypeOf(e.value), x))
  {
    var e := s.properties[i];
    NotConstrained(x, e.key);
    FilledValue(x, s.properties, i);
    RequiredKeeps(x, s.properties, s.required, FillProperties(x, s.properties), e.key);
    SpecOfProperty(s.properties, i);
  }

  lemma SpecOfProperty(properties: seq<Entry>, i: nat)
    requires DistinctKeys(properties) && i < |properties|
    ensures SpecOf(properties, properties[i].key) == properties[i].value
  {
    assert IndexOf(properties, properties[i].key) == i;
  }

  /** The value invented for a spec: zero, false, the empty list or the constraints by its declared type,
      and the query for strings and for every other type, named or not. */
  predicate Invented(value: Json, spec: Json, x: Inputs) {
    && (Gives(spec, "type", Str("integer")) || Gives(spec, "type", Str("number")) ==> value == Num(0.0))
    && (Gives(spec, "type", Str("boolean")) ==> value == Bool(false))
    && (Gives(spec, "type", Str("array")) ==> value == Arr([]))
    && (Gives(spec, "type", Str("object")) ==> value == Obj(x.constraints))
    && ((forall t | t in {"integer", "number", "boolean", "array", "object"} :: !Gives(spec, "type", Str(t))) ==>
          value == Str(x.query))
  }

  lemma TypeIsDeclared(spec: Json, t: string)
    ensures TypeOf(spec) == Some(t) <==> Gives(spec, "type", Str(t))
  {
    if Gives(spec, "type", Str(t)) { LooksUp(spec, "type", Str(t)); }
    if TypeOf(spec) == Some(t) {
      assert spec.entries[IndexOf(spec.entries, "type")] == Entry("type", Str(t));
    }
  }

  lemma FallbackIsInvented(x: Inputs, spec: Json)
    ensures Invented(Fallback(TypeOf(spec), x), spec, x)
  {
    TypeIsDeclared(spec, "integer");
    TypeIsDeclared(spec, "number");
    TypeIsDeclared(spec, "boolean");
    TypeIsDeclared(spec, "array");
    TypeIsDeclared(spec, "object");
  }

  /** A required name that is no property holds the query, and there are no keys but properties and
      required names. */
  lemma OtherKeys(x: Inputs, s: Schema, key: string)
    requires s.properties != [] && !Names(s.properties, key)
    ensures var p := PayloadFor(x, s);
      (key in p <==> key in s.required) && (key in s.required ==> p[key] == Str(x.query))
  {
    PropertiesFilled(x, s.properties);
    RequiredKeeps(x, s.properties, s.required, FillProperties(x, s.properties), key);
  }

  /** Without properties the payload is the query, with the constraints and the gaps if there are any. */
  lemma PlainPayloadHolds(x: Inputs, required: seq<string>)
    ensures var p := PayloadFor(x, Schema([], required));
      && "query" in p && p["query"] == Str(x.query)
      && ("constraints" in p <==> x.constraints != [])
      && ("constraints" in p ==> p["constraints"] == Obj(x.constraints))
      && ("gaps" in p <==> x.gaps != []) && ("gaps" in p ==> ListsGaps(p["gaps"], x.gaps))
      && p.Keys <= {"query", "constraints", "gaps"}
  {
  }

  /** The model has one field for every property whose spec is a dictionary, in order. */
  lemma {:induction false} FieldsInOrder(properties: seq<Entry>, required: seq<string>) returns (at: seq<nat>)
    ensures Picks(Keys(properties), Dictionaries(properties), FieldNames(FieldDefs(properties, required)), at)
    decreases |properties|
  {
    if properties == [] {
      at := [];
    } else {
      var n := |properties| - 1;
      var front, e := properties[..n], properties[n];
      at := FieldsInOrder(front, required);
      at := PicksSnoc(Keys(front), Dictionaries(front), FieldNames(FieldDefs(front, required)), at, e.key,
        e.value.Obj?);
      FieldsSnoc(properties, required, n);
    }
  }

  /** Each field has the declared type of its property and is required exactly when the schema says so. */
  lemma {:induction false} FieldsFit(properties: seq<Entry>, required: seq<string>, f: FieldDef)
    requires f in FieldDefs(properties, required)
    ensures exists i :: 0 <= i < |properties| && Fits(f, properties[i], required)
    decreases |properties|
  {
    var n := |properties| - 1;
    if f in FieldDefs(properties[..n], required) {
      FieldsFit(properties[..n], required, f);
      var i :| 0 <= i < n && Fits(f, properties[..n][i], required);
      assert properties[i] == properties[..n][i];
    } else {
      FieldFits(properties[n], required);
    }
  }

  function Keys(properties: seq<Entry>): seq<string> {
    seq(|properties|, i requires 0 <= i < |properties| => properties[i].key)
  }

  function Dictionaries(properties: seq<Entry>): seq<bool> {
    seq(|properties|, i requires 0 <= i < |properties| => properties[i].value.Obj?)
  }

  function FieldNames(fields: seq<FieldDef>): seq<string> {
    seq(|fields|, i requires 0 <= i < |fields| => fields[i].name)
  }

  lemma FieldsSnoc(properties: seq<Entry>, required: seq<string>, n: nat)
    requires |properties| == n + 1
    ensures Keys(properties) == Keys(properties[..n]) + [properties[n].key]
    ensures Dictionaries(properties) == Dictionaries(properties[..n]) + [properties[n].value.Obj?]
    ensures FieldNames(FieldDefs(properties, required)) ==
      if properties[n].value.Obj? then FieldNames(FieldDefs(properties[..n], required)) + [properties[n].key]
      else FieldNames(FieldDefs(properties[..n], required))
  {
  }

  predicate Fits(f: FieldDef, e: Entry, required: seq<string>) {
    && f.name == e.key && (f.required <==> e.key in required)
    && (Gives(e.value, "type", Str("integer")) ==> f.type_ == TInteger)
    && (Gives(e.value, "type", Str("number")) ==> f.type_ == TNumber)
    && (Gives(e.value, "type", Str("boolean")) ==> f.type_ == TBoolean)
    && (Gives(e.value, "type", Str("array")) ==> f.type_ == TArray)
    && (Gives(e.value, "type", Str("object")) ==> f.type_ == TObject)
    && ((forall t | t in {"integer", "number", "boolean", "array", "object"} :: !Gives(e.value, "type", Str(t))) ==>
          f.type_ == TString)
  }

  lemma FieldFits(e: Entry, required: seq<string>)
    ensures Fits(FieldDef(e.key, FieldTypeOf(e.value), e.key in required), e, required)
  {
    TypeIsDeclared(e.value, "integer");
    TypeIsDeclared(e.value, "number");
    TypeIsDeclared(e.value, "boolean");
    TypeIsDeclared(e.value, "array");
    TypeIsDeclared(e.value, "object");
  }

  predicate HasType(value: Json, t: FieldType) {
    match t
    case TString => value.Str?
    case TInteger => value.Num? && value.number.Floor as real == value.number
    case TNumber => value.Num?
    case TBoolean => value.Bool?
    case TArray => value.Arr?
    case TObject => value.Obj?
  }

  /** What a payload built without properties holds has the type the generic model gives it, and the
      generic model has no other fields and requires the query alone. */
  lemma PlainPayloadFitsModel(x: Inputs, required: seq<string>, f: FieldDef)
    requires f in ModelFor(Schema([], required))
    ensures f.name in {"query", "constraints", "gaps"} && (f.required <==> f.name == "query")
    ensures var p := PayloadFor(x, Schema([], required)); f.name in p ==> HasType(p[f.name], f.type_)
  {
  }

  /** A value invented for a required property has the type the model gives the field. */
  lemma FallbackFitsModel(x: Inputs, spec: Json)
    ensures HasType(Fallback(TypeOf(spec), x), FieldTypeOf(spec))
  {
    assert 0.0.Floor == 0;
  }
}

/** Searching, ordering and trying tools until one of them answers. */
module ToolDiscovery {
  import opened Wrappers
  import opened Json
  import opened Text
  import opened ResearchState
  import opened ResearchNodes
  import opened Picking

  datatype Tool = Tool(toolId: string, name: string, description: string, capabilities: seq<string>,
    avgLatency: Option<real>)

  // ---- Filtering by the constraint `sources` ---------------------------------------------------

  /** `needle in text` on strings. */
  predicate Occurs(needle: string, text: string) {
    needle <= text || (text != "" && Occurs(needle, text[1..]))
  }

  /** Exactly the texts that contain the needle somewhere. */
  lemma {:induction false} OccursSomewhere(needle: string, text: string)
    ensures Occurs(needle, text) <==> exists a: string, b: string :: text == a + needle + b
    decreases |text|
  {
    if needle <= text {
      assert text == "" + needle + text[|needle|..];
    } else {
      if text != "" { OccursSomewhere(needle, text[1..]); }
      if Occurs(needle, text) {
        var a: string, b: string :| text[1..] == a + needle + b;
        assert text == (text[..1] + a) + needle + b;
      }
      if a: string, b: string :| text == a + needle + b {
        assert a != "";
        assert text[1..] == a[1..] + needle + b;
      }
    }
  }

  predicate Matches(tool: Tool, want: seq<string>) {
    exists k :: 0 <= k < |want| &&
      var w := Lower(want[k]);
      || (exists i :: 0 <= i < |tool.capabilities| && Lower(tool.capabilities[i]) == w)
      || Occurs(w, Lower(tool.name))
      || Occurs(w, Lower(tool.description))
  }

  /** Letter case never matters, and a wanted source must be a whole capability but only part of a name
      or a description. */
  lemma MatchesExactly(tool: Tool, want: seq<string>)
    ensures Matches(tool, want) <==> exists k :: 0 <= k < |want| && Meets(tool, want[k])
  {
    forall k | 0 <= k < |want| ensures Meets(tool, want[k]) <==>
      || (exists i :: 0 <= i < |tool.capabilities| && Lower(tool.capabilities[i]) == Lower(want[k]))
      || Occurs(Lower(want[k]), Lower(tool.name)) || Occurs(Lower(want[k]), Lower(tool.description))
    {
      OccursSomewhere(Lower(want[k]), Lower(tool.name));
      OccursSomewhere(Lower(want[k]), Lower(tool.description));
    }
  }

  ghost predicate Meets(tool: Tool, source: string) {
    || (exists c :: c in tool.capabilities && Lower(c) == Lower(source))
    || (exists a: string, b: string :: Lower(tool.name) == a + Lower(source) + b)
    || (exists a: string, b: string :: Lower(tool.description) == a + Lower(source) + b)
  }

  function Matching(tools: seq<Tool>, want: seq<string>): (out: seq<Tool>)
    ensures forall t | t in out :: t in tools && Matches(t, want)
    ensures forall t | t in tools && Matches(t, want) :: t in out
  {
    if tools == [] then []
    else
      assert tools == tools[..|tools| - 1] + [tools[|tools| - 1]];
      Matching(tools[..|tools| - 1], want) +
        (if Matches(tools[|tools| - 1], want) then [tools[|tools| - 1]] else [])
  }

  function Marks(tools: seq<Tool>, want: seq<string>): seq<bool> {
    seq(|tools|, i requires 0 <= i < |tools| => Matches(tools[i], want))
  }

  /** Matching picks the tools that match, in order. */
  lemma {:induction false} MatchingInOrder(tools: seq<Tool>, want: seq<string>) returns (at: seq<nat>)
    ensures Picks(tools, Marks(tools, want), Matching(tools, want), at)
  {
    if tools == [] {
      at := [];
    } else {
      var n := |tools| - 1;
      var front, keep := tools[..n], Matches(tools[n], want);
      at := MatchingInOrder(front, want);
      at := PicksSnoc(front, Marks(front, want), Matching(front, want), at, tools[n], keep);
      FrontAndLast(tools);
      MatchingSnoc(tools, want, n);
      MarksSnoc(tools, want, n);
    }
  }

  lemma MatchingSnoc(tools: seq<Tool>, want: seq<string>, n: nat)
    requires |tools| == n + 1
    ensures Matching(tools, want) ==
      if Matches(tools[n], want) then Matching(tools[..n], want) + [tools[n]] else Matching(tools[..n], want)
  {
  }

  lemma MarksSnoc(tools: seq<Tool>, want: seq<string>, n: nat)
    requires |tools| == n + 1
    ensures Marks(tools, want) == Marks(tools[..n], want) + [Matches(tools[n], want)]
  {
  }

  /** The tools that match a wanted source; all of them when none is wanted or none matches. */
  function Kept(tools: seq<Tool>, want: seq<string>): (out: seq<Tool>)
    ensures tools != [] ==> out != []
  {
    if want == [] || Matching(tools, want) == [] then tools else Matching(tools, want)
  }

  /** No tool matches a wanted source. */
  predicate Unwanted(tools: seq<Tool>, want: seq<string>) {
    forall i | 0 <= i < |tools| :: !Matches(tools[i], want)
  }

  lemma {:induction false} MatchingIsEmpty(tools: seq<Tool>, want: seq<string>)
    ensures Matching(tools, want) == [] <==> Unwanted(tools, want)
  {
    if Matching(tools, want) != [] {
      var t := Matching(tools, want)[0];
      assert t in Matching(tools, want);
    }
  }

  method FilterResults(tools: seq<Tool>, want: seq<string>) returns (out: seq<Tool>)
    ensures out == Kept(tools, want)
    ensures out == if want == [] || Unwanted(tools, want) then tools else Matching(tools, want)
  {
    MatchingIsEmpty(tools, want);
    if want == [] { return tools; }
    out := [];
    for i := 0 to |tools|
      invariant out == Matching(tools[..i], want)
    {
      assert tools[..i + 1][..i] == tools[..i];
      if Matches(tools[i], want) { out := out + [tools[i]]; }
    }
    assert tools[..|tools|] == tools;
    if out == [] { out := tools; }
  }

  // ---- Candidates ------------------------------------------------------------------------------

  /** `float(r.get("avg_latency_ms") or 1e9)`: zero and missing count as 1e9. */
  function Latency(t: Tool): real {
    match t.avgLatency
    case None => 1000000000.0
    case Some(ms) => if ms == 0.0 then 1000000000.0 else ms
  }

  /** A tool without a known latency never beats one whose latency is known and below a million seconds. */
  lemma UnknownIsSlow(tools: seq<Tool>, k: nat)
    requires k < |tools| && tools[k].avgLatency.Some? && 0.0 < tools[k].avgLatency.value < 1000000000.0
    ensures tools[Fastest(tools)].avgLatency.Some? && tools[Fastest(tools)].avgLatency.value != 0.0
    ensures tools[Fastest(tools)].avgLatency.value <= tools[k].avgLatency.value
  {
    assert Latency(tools[Fastest(tools)]) <= Latency(tools[k]);
  }

  /** The head of the stable sort by latency: the first tool of least latency. */
  function Fastest(tools: seq<Tool>): (i: nat)
    requires tools != []
    ensures i < |tools|
    ensures forall k | 0 <= k < |tools| :: Latency(tools[i]) <= Latency(tools[k])
    ensures forall k | 0 <= k < i :: Latency(tools[i]) < Latency(tools[k])
  {
    if |tools| == 1 then 0
    else
      var last := |tools| - 1;
      var i := Fastest(tools[..last]);
      assert forall k | 0 <= k < last :: tools[..last][k] == tools[k];
      if Latency(tools[last]) < Latency(tools[i]) then last else i
  }

  /** One more selected id: blanks and ids already chosen are dropped. */
  function Choose(before: seq<string>, id: string): seq<string> {
    if id != "" && id !in before then before + [id] else before
  }

  /** The ids that are not blank, each at its first occurrence. */
  function Usable(ids: seq<string>): seq<string> {
    if ids == [] then [] else Choose(Usable(ids[..|ids| - 1]), ids[|ids| - 1])
  }

  function Stripped(ids: seq<string>): (out: seq<string>)
    ensures |out| == |ids|
  {
    seq(|ids|, i requires 0 <= i < |ids| => Strip(ids[i]))
  }

  /** What a selection amounts to. */
  function Chosen(selection: seq<string>): seq<string> {
    Usable(Stripped(selection))
  }

  function Min(a: nat, b: nat): nat { if a <= b then a else b }

  /** `selection` holds the selected ids; it is empty when there is no usable selection. */
  function Candidates(tools: seq<Tool>, selection: seq<string>, maxAttempts: nat): seq<string> {
    var chosen := Chosen(selection);
    var ordered := if chosen == [] && tools != [] then [tools[Fastest(tools)].toolId] else chosen;
    ordered[..Min(maxAttempts, |ordered|)]
  }

  method OrderedCandidates(tools: seq<Tool>, selection: seq<string>, maxAttempts: nat) returns (ids: seq<string>)
    ensures ids == Candidates(tools, selection, maxAttempts)
  {
    ids := [];
    for i := 0 to |selection|
      invariant ids == Chosen(selection[..i])
    {
      ChosenSnoc(selection, i);
      var tid := Strip(selection[i]);
      if tid != "" && tid !in ids { ids := ids + [tid]; }
    }
    assert selection[..|selection|] == selection;
    if ids == [] && tools != [] { ids := [tools[Fastest(tools)].toolId]; }
    ids := ids[..Min(maxAttempts, |ids|)];
  }

  lemma ChosenSnoc(selection: seq<string>, i: nat)
    requires i < |selection|
    ensures Chosen(selection[..i + 1]) == Choose(Chosen(selection[..i]), Strip(selection[i]))
  {
    assert Stripped(selection[..i + 1])[..i] == Stripped(selection[..i]);
  }

  lemma {:induction false} UsableIsDistinct(ids: seq<string>)
    ensures Distinct(Usable(ids))
    ensures "" !in Usable(ids)
  {
    if ids == [] {
    } else {
      UsableIsDistinct(ids[..|ids| - 1]);
    }
  }

  /** Exactly the ids that are not blank are usable. */
  lemma {:induction false} UsableHasAll(ids: seq<string>, id: string)
    ensures id in Usable(ids) <==> id != "" && id in ids
  {
    if ids == [] {
    } else {
      UsableHasAll(ids[..|ids| - 1], id);
      assert ids == ids[..|ids| - 1] + [ids[|ids| - 1]];
    }
  }

  function FirstUses(ids: seq<string>): seq<bool> {
    seq(|ids|, i requires 0 <= i < |ids| => ids[i] != "" && ids[i] !in ids[..i])
  }

  /** The usable ids are picked in the order of selection, each where it is first used. */
  lemma {:induction false} UsableInOrder(ids: seq<string>) returns (at: seq<nat>)
    ensures Picks(ids, FirstUses(ids), Usable(ids), at)
  {
    if ids == [] {
      at := [];
    } else {
      var n := |ids| - 1;
      var front, keep := ids[..n], ids[n] != "" && ids[n] !in ids[..n];
      at := UsableInOrder(front);
      at := PicksSnoc(front, FirstUses(front), Usable(front), at, ids[n], keep);
      UsableHasAll(front, ids[n]);
      FirstUsesSnoc(ids, n);
      FrontAndLast(ids);
    }
  }

  lemma FirstUsesSnoc(ids: seq<string>, n: nat)
    requires |ids| == n + 1
    ensures FirstUses(ids) == FirstUses(ids[..n]) + [ids[n] != "" && ids[n] !in ids[..n]]
  {
    assert forall i | 0 <= i < n :: ids[..n][..i] == ids[..i];
  }

  predicate AllBlank(ids: seq<string>) {
    forall k | 0 <= k < |ids| :: Strip(ids[k]) == ""
  }

  lemma DistinctPrefix(ids: seq<string>, n: nat)
    requires Distinct(ids) && n <= |ids|
    ensures Distinct(ids[..n])
  {
    forall i, j | 0 <= i < j < n ensures ids[..n][i] != ids[..n][j] {
      assert ids[..n][i] == ids[i] && ids[..n][j] == ids[j];
    }
  }

  /** Candidates are distinct and no more than the limit allows. */
  lemma CandidatesAreDistinct(tools: seq<Tool>, selection: seq<string>, maxAttempts: nat)
    ensures Distinct(Candidates(tools, selection, maxAttempts))
    ensures |Candidates(tools, selection, maxAttempts)| <= maxAttempts
  {
    var chosen := Chosen(selection);
    UsableIsDistinct(Stripped(selection));
    if chosen != [] { DistinctPrefix(chosen, Min(maxAttempts, |chosen|)); }
  }

  /** A prefix of the selected ids in the order of selection. */
  lemma CandidatesAreSelected(tools: seq<Tool>, selection: seq<string>, maxAttempts: nat)
    requires !AllBlank(selection)
    ensures Candidates(tools, selection, maxAttempts) <= Chosen(selection)
  {
    SomethingChosen(selection);
  }

  lemma SomethingChosen(selection: seq<string>)
    requires !AllBlank(selection)
    ensures Chosen(selection) != []
  {
    var k :| 0 <= k < |selection| && Strip(selection[k]) != "";
    UsableHasAll(Stripped(selection), Stripped(selection)[k]);
  }

  /** With nothing usable selected, the first tool of least latency alone. */
  lemma SoleCandidate(tools: seq<Tool>, selection: seq<string>, maxAttempts: nat)
    requires AllBlank(selection) && tools != [] && maxAttempts > 0
    ensures Candidates(tools, selection, maxAttempts) == [tools[Fastest(tools)].toolId]
  {
    var stripped := Stripped(selection);
    assert forall k | 0 <= k < |stripped| :: stripped[k] == "";
    if Usable(stripped) != [] {
      UsableHasAll(stripped, Usable(stripped)[0]);
    }
  }

  // ---- The fallback loop -------------------------------------------------------------------------

  /** What the registry and the tool answer for one candidate. An answer has the link and title chosen
      as its source, and those found in the data itself; any of them may be empty. */
  datatype TryOutcome =
    | BindFails
    | InvokeFails(message: string, ms: real)
    | Answers(data: Json, url: string, title: string, dataUrl: string, dataTitle: string, ms: real)

  datatype UsageLog = UsageLog(toolId: string, latencyMs: real, success: bool, errorMessage: Option<string>)

  function AttemptOf(id: string, o: TryOutcome): InvocationAttempt
    requires !o.BindFails?
  {
    match o
    case InvokeFails(message, ms) => InvocationAttempt(id, false, ms, Some(message))
    case Answers(_, _, _, _, _, ms) => InvocationAttempt(id, true, ms, None)
  }

  function LogOf(a: InvocationAttempt): UsageLog { UsageLog(a.toolId, a.latencyMs, a.success, a.errorMessage) }

  /** Attempts on these candidates, failed binds left out. */
  function AttemptsOn(ids: seq<string>, world: string -> TryOutcome): seq<InvocationAttempt> {
    if ids == [] then []
    else
      var id := ids[|ids| - 1];
      AttemptsOn(ids[..|ids| - 1], world) + (if world(id).BindFails? then [] else [AttemptOf(id, world(id))])
  }

  function Logs(attempts: seq<InvocationAttempt>): seq<UsageLog> {
    seq(|attempts|, i requires 0 <= i < |attempts| => LogOf(attempts[i]))
  }

  /** Number of candidates tried: up to and with the first that answers. */
  function Tried(ids: seq<string>, world: string -> TryOutcome): (n: nat)
    ensures n <= |ids|
    ensures forall k | 0 <= k < n - 1 :: !world(ids[k]).Answers?
    ensures n < |ids| ==> n > 0 && world(ids[n - 1]).Answers?
  {
    if ids == [] then 0
    else if world(ids[0]).Answers? then 1
    else 1 + Tried(ids[1..], world)
  }

  function ResultOf(ids: seq<string>, world: string -> TryOutcome): DiscoveryResult {
    var n := Tried(ids, world);
    var attempts := AttemptsOn(ids[..n], world);
    if n > 0 && world(ids[n - 1]).Answers? then
      var o := world(ids[n - 1]);
      DiscoveryResult(true, Some(ids[n - 1]), o.data, o.url, o.title, o.dataUrl, o.dataTitle, attempts, None)
    else
      DiscoveryResult(false, None, Obj([]), "", "", "", "", attempts, Some("all tool attempts failed"))
  }

  /** Usage logging is best effort: its own failures are swallowed, so every attempt posts one. */
  method TryCandidates(ids: seq<string>, world: string -> TryOutcome)
    returns (result: DiscoveryResult, logs: seq<UsageLog>)
    ensures result == ResultOf(ids, world)
    ensures logs == Logs(result.attempts)
  {
    var attempts: seq<InvocationAttempt> := [];
    logs := [];
    for i := 0 to |ids|
      invariant forall k | 0 <= k < i :: !world(ids[k]).Answers?
      invariant attempts == AttemptsOn(ids[..i], world)
      invariant logs == Logs(attempts)
    {
      assert ids[..i + 1][..i] == ids[..i];
      var o := world(ids[i]);
      if o.BindFails? { continue; }
      var a := AttemptOf(ids[i], o);
      attempts := attempts + [a];
      logs := logs + [UsageLog(a.toolId, a.latencyMs, a.success, a.errorMessage)];
      if o.Answers? {
        TriedUpTo(ids, world, i + 1);
        result := DiscoveryResult(true, Some(ids[i]), o.data, o.url, o.title, o.dataUrl, o.dataTitle, attempts, None);
        return;
      }
    }
    TriedAll(ids, world);
    assert ids[..|ids|] == ids;
    result := DiscoveryResult(false, None, Obj([]), "", "", "", "", attempts, Some("all tool attempts failed"));
  }

  lemma {:induction false} TriedUpTo(ids: seq<string>, world: string -> TryOutcome, n: nat)
    requires 0 < n <= |ids| && world(ids[n - 1]).Answers?
    requires forall k | 0 <= k < n - 1 :: !world(ids[k]).Answers?
    ensures Tried(ids, world) == n
  {
    if n > 1 {
      assert !world(ids[0]).Answers?;
      TriedUpTo(ids[1..], world, n - 1);
    }
  }

  lemma {:induction false} TriedAll(ids: seq<string>, world: string -> TryOutcome)
    requires forall k | 0 <= k < |ids| :: !world(ids[k]).Answers?
    ensures Tried(ids, world) == |ids|
  {
    if ids == [] {
    } else {
      TriedAll(ids[1..], world);
    }
  }

  lemma {:induction false} AttemptsFollowCandidates(ids: seq<string>, world: string -> TryOutcome)
    requires Distinct(ids)
    ensures var attempts := AttemptsOn(ids, world);
      && |attempts| <= |ids|
      && (forall k | 0 <= k < |attempts| ::
          attempts[k].toolId in ids && (attempts[k].success <==> world(attempts[k].toolId).Answers?))
      && (forall i, j | 0 <= i < j < |attempts| :: attempts[i].toolId != attempts[j].toolId)
      && (forall id | id in ids && !world(id).BindFails? :: AttemptOf(id, world(id)) in attempts)
  {
    if ids == [] {
    } else {
      var front, id := ids[..|ids| - 1], ids[|ids| - 1];
      AttemptsFollowCandidates(front, world);
      assert ids == front + [id];
      assert id !in front;
    }
  }

  function Bound(ids: seq<string>, world: string -> TryOutcome): seq<bool> {
    seq(|ids|, i requires 0 <= i < |ids| => !world(ids[i]).BindFails?)
  }

  function ToolIds(attempts: seq<InvocationAttempt>): seq<string> {
    seq(|attempts|, i requires 0 <= i < |attempts| => attempts[i].toolId)
  }

  /** Attempts are made on the candidates with failed binds removed, in order. */
  lemma {:induction false} AttemptsInOrder(ids: seq<string>, world: string -> TryOutcome) returns (at: seq<nat>)
    ensures Picks(ids, Bound(ids, world), ToolIds(AttemptsOn(ids, world)), at)
  {
    if ids == [] {
      at := [];
    } else {
      var n := |ids| - 1;
      var front, keep := ids[..n], !world(ids[n]).BindFails?;
      at := AttemptsInOrder(front, world);
      at := PicksSnoc(front, Bound(front, world), ToolIds(AttemptsOn(front, world)), at, ids[n], keep);
      FrontAndLast(ids);
      AttemptsSnoc(ids, world, n);
      BoundSnoc(ids, world, n);
    }
  }

  lemma BoundSnoc(ids: seq<string>, world: string -> TryOutcome, n: nat)
    requires |ids| == n + 1
    ensures Bound(ids, world) == Bound(ids[..n], world) + [!world(ids[n]).BindFails?]
  {
  }

  lemma AttemptsSnoc(ids: seq<string>, world: string -> TryOutcome, n: nat)
    requires |ids| == n + 1
    ensures ToolIds(AttemptsOn(ids, world)) ==
      if world(ids[n]).BindFails? then ToolIds(AttemptsOn(ids[..n], world))
          else ToolIds(AttemptsOn(ids[..n], world)) + [ids[n]]
  {
    var before := AttemptsOn(ids[..n], world);
    if !world(ids[n]).BindFails? {
      assert AttemptsOn(ids, world) == before + [AttemptOf(ids[n], world(ids[n]))];
    }
  }

  /** The attempt records what its tool did: success, duration, and the message of a failure. */
  predicate Records(a: InvocationAttempt, o: TryOutcome) {
    && !o.BindFails? && (a.success <==> o.Answers?)
    && a.latencyMs == o.ms && a.errorMessage == if o.InvokeFails? then Some(o.message) else None
  }

  lemma {:induction false} AttemptsRecord(ids: seq<string>, world: string -> TryOutcome)
    ensures forall a | a in AttemptsOn(ids, world) :: Records(a, world(a.toolId))
  {
    if ids == [] {
    } else {
      AttemptsRecord(ids[..|ids| - 1], world);
    }
  }

  /** One log per attempt, in order and with the same contents. */
  predicate Mirrors(logs: seq<UsageLog>, attempts: seq<InvocationAttempt>) {
    && |logs| == |attempts|
    && forall k | 0 <= k < |logs| ::
      && logs[k].toolId == attempts[k].toolId && logs[k].latencyMs == attempts[k].latencyMs
      && logs[k].success == attempts[k].success && logs[k].errorMessage == attempts[k].errorMessage
  }

  /** The result passes on what this tool answered. */
  predicate Carries(r: DiscoveryResult, id: string, o: TryOutcome) {
    && o.Answers? && r.success && r.toolId == Some(id) && r.practical == o.data
    && r.sourceUrl == o.url && r.sourceTitle == o.title && r.dataUrl == o.dataUrl && r.dataTitle == o.dataTitle
  }

  /** What a run passes on is the answer of the tool it names; a run without an answer passes on nothing. */
  predicate Honest(r: DiscoveryResult, world: string -> TryOutcome) {
    && (forall a | a in r.attempts :: Records(a, world(a.toolId)))
    && (r.success ==> r.toolId.Some? && Carries(r, r.toolId.value, world(r.toolId.value)))
    && (!r.success ==> r.toolId == None && r.practical == Obj([]) && r.sourceUrl == "" && r.sourceTitle == "")
  }

  lemma RunIsHonest(ids: seq<string>, world: string -> TryOutcome)
    ensures Honest(ResultOf(ids, world), world)
  {
    AttemptsRecord(ids[..Tried(ids, world)], world);
  }

  /** A run passes on the answer of the first candidate that has one. */
  lemma FirstAnswerCounts(ids: seq<string>, world: string -> TryOutcome, k: nat)
    requires k < |ids| && world(ids[k]).Answers? && forall j | 0 <= j < k :: !world(ids[j]).Answers?
    ensures Carries(ResultOf(ids, world), ids[k], world(ids[k]))
    ensures ResultOf(ids, world).attempts == AttemptsOn(ids[..k + 1], world)
  {
    TriedUpTo(ids, world, k + 1);
  }

  /** No attempt succeeds on candidates none of which answers. */
  lemma FailuresOnly(ids: seq<string>, world: string -> TryOutcome)
    requires Distinct(ids)
    requires forall k | 0 <= k < |ids| :: !world(ids[k]).Answers?
    ensures forall k | 0 <= k < |AttemptsOn(ids, world)| :: !AttemptsOn(ids, world)[k].success
  {
    AttemptsFollowCandidates(ids, world);
  }

  predicate AttemptsDistinct(attempts: seq<InvocationAttempt>) {
    forall i, j | 0 <= i < j < |attempts| :: attempts[i].toolId != attempts[j].toolId
  }

  /** Only the last attempt may succeed, and the run succeeds exactly when it does. */
  predicate OnlyLastSucceeds(r: DiscoveryResult) {
    var n := |r.attempts|;
    && (forall i | 0 <= i < n - 1 :: !r.attempts[i].success)
    && (r.success <==> n > 0 && r.attempts[n - 1].success)
    && (r.success ==> r.toolId == Some(r.attempts[n - 1].toolId) && r.error == None)
    && (!r.success ==> r.error.Some?)
  }

  lemma RunThatAnswers(ids: seq<string>, world: string -> TryOutcome)
    requires Distinct(ids)
    requires var n := Tried(ids, world); n > 0 && world(ids[n - 1]).Answers?
    ensures OnlyLastSucceeds(ResultOf(ids, world))
    ensures ResultOf(ids, world).success
  {
    var n := Tried(ids, world);
    var tried, front := ids[..n], ids[..n - 1];
    assert tried[..|tried| - 1] == front && tried[n - 1] == ids[n - 1];
    FailuresOnly(front, world);
    assert AttemptsOn(tried, world) == AttemptsOn(front, world) + [AttemptOf(ids[n - 1], world(ids[n - 1]))];
  }

  lemma RunThatFails(ids: seq<string>, world: string -> TryOutcome)
    requires Distinct(ids)
    requires forall k | 0 <= k < |ids| :: !world(ids[k]).Answers?
    ensures OnlyLastSucceeds(ResultOf(ids, world))
    ensures !ResultOf(ids, world).success
    ensures ResultOf(ids, world).attempts == AttemptsOn(ids, world)
  {
    TriedAll(ids, world);
    assert ids[..|ids|] == ids;
    FailuresOnly(ids, world);
  }

  /** Attempts are distinct and at most as many as the candidates; only the last may succeed, the
      run succeeds exactly when some candidate answers, and then it reports that tool. */
  lemma RunIsTriedPrefix(ids: seq<string>, world: string -> TryOutcome)
    requires Distinct(ids)
    ensures |ResultOf(ids, world).attempts| <= |ids|
    ensures AttemptsDistinct(ResultOf(ids, world).attempts)
    ensures OnlyLastSucceeds(ResultOf(ids, world))
    ensures ResultOf(ids, world).success <==> exists k :: 0 <= k < |ids| && world(ids[k]).Answers?
  {
    var n := Tried(ids, world);
    AttemptsFollowCandidates(ids[..n], world);
    if n > 0 && world(ids[n - 1]).Answers? {
      RunThatAnswers(ids, world);
    } else {
      RunThatFails(ids, world);
    }
  }

  // ---- One discovery run -------------------------------------------------------------------------

  function NoTool(error: string): DiscoveryResult {
    DiscoveryResult(false, None, Obj([]), "", "", "", "", [], Some(error))
  }

  /** The whole run: search, filter, let the model select, order, try. */
  method Discover(search: Option<seq<Tool>>, want: seq<string>, selection: seq<string>, maxAttempts: nat,
          world: string -> TryOutcome)
    returns (result: DiscoveryResult, logs: seq<UsageLog>)
    ensures Mirrors(logs, result.attempts) && |logs| <= maxAttempts && Honest(result, world)
    ensures AttemptsDistinct(result.attempts) && OnlyLastSucceeds(result)
    ensures search == None ==> (!result.success && logs == [])
    ensures (search.Some? && search.value != [] && maxAttempts > 0) ==>
      result == ResultOf(Candidates(Kept(search.value, want), selection, maxAttempts), world)
  {
    if search == None { return NoTool("registry search failed"), []; }
    var results := FilterResults(search.value, want);
    if results == [] { return NoTool("no tools found"), []; }
    var candidates := OrderedCandidates(results, selection, maxAttempts);
    CandidatesAreDistinct(results, selection, maxAttempts);
    if candidates == [] { return NoTool("could not determine a tool candidate"), []; }
    result, logs := TryCandidates(candidates, world);
    RunIsTriedPrefix(candidates, world);
    RunIsHonest(candidates, world);
  }

  function Or(a: string, b: string): string { if a != "" then a else b }

  /** What the researcher makes of a discovery run: one finding with the data of the tool that answered
      first, and one source with its link and title, or none and at least one error. */
  lemma DiscoveryFeedsResearch(st: State, ids: seq<string>, world: string -> TryOutcome, prompt: string, raw: string,
          timestamp: string)
    requires Distinct(ids) && "" !in ids
    ensures var r := ResultOf(ids, world);
      var d := ResearcherDelta(st, Discovered(prompt, raw, r, timestamp));
      && d.iterationCount == Some(st.iterationCount + 1)
      && (!r.success ==> (d.rawFindings == [] && d.sources == [] && d.errors != []))
      && (r.success ==>
            var id := r.toolId.GetOr(""); var o := world(id);
            && id in ids && o.Answers?
            && d.rawFindings == [Finding(id, o.data, timestamp)]
            && d.sources == [Source(Or(o.url, o.dataUrl), Or(o.title, Or(o.dataTitle, id)), id)])
  {
    RunIsTriedPrefix(ids, world);
    RunIsHonest(ids, world);
    var n := Tried(ids, world);
    assert n > 0 ==> ids[n - 1] in ids;
  }
}
