/** The part of zod's object validation that the storefront schemas use.

    A request body is a JavaScript object: a map from keys to JavaScript values,
    where a missing key reads as `undefined`. An object schema is an ordered list
    of (key, field schema) pairs; `safeParse` checks every field in that order and
    collects one issue per failing field, tagged with the field's path. */
module Zod {
  import opened Wrappers

  /** JavaScript values as zod classifies them. Numbers are finite reals; `NaN`
      is its own case because zod reports it as a distinct received type. */
  datatype JsValue =
    | Undefined
    | Null
    | Bool(b: bool)
    | Num(x: real)
    | NaN
    | Str(s: string)
    | Composite   // any non-primitive value (array, plain object, function, date, ...)

  /** The received types an `invalid_type` issue can carry here. zod names
      non-primitive values more finely (array, function, date, ...); the model
      reports every one of them as `ObjectType`. */
  datatype JsType = UndefinedType | NullType | BooleanType | NumberType | NaNType | StringType | ObjectType

  function TypeOf(v: JsValue): JsType {
    match v
    case Undefined => UndefinedType
    case Null => NullType
    case Bool(_) => BooleanType
    case Num(_) => NumberType
    case NaN => NaNType
    case Str(_) => StringType
    case Composite => ObjectType
  }

  /** A request body. */
  type JsObject = map<string, JsValue>

  /** Property access: a key that is not present reads as `undefined`. */
  function Get(obj: JsObject, key: string): JsValue {
    if key in obj then obj[key] else Undefined
  }

  /** Why a field was refused. `InvalidType` carries no text: its wording comes
      from zod's default error map, which is not modelled. */
  datatype Problem =
    | InvalidType(expected: JsType, received: JsType)
    | TooSmall(minimum: real, message: string)
    | Custom(message: string)

  datatype Issue = Issue(path: seq<string>, problem: Problem)

  /** The three field schemas the storefront uses:
      `z.string().min(n, msg)`, `z.string().refine(check, msg)` and
      `z.number().min(m, msg)`. */
  datatype FieldSchema =
    | StringMin(minLength: nat, message: string)
    | StringRefine(check: string -> bool, message: string)
    | NumberMin(minimum: real, message: string)

  type Shape = seq<(string, FieldSchema)>

  function ExpectedType(schema: FieldSchema): JsType {
    match schema
    case StringMin(_, _) => StringType
    case StringRefine(_, _) => StringType
    case NumberMin(_, _) => NumberType
  }

  /** The problem a field schema reports when the value has the right type but fails its check. */
  function CheckProblem(schema: FieldSchema): Problem {
    match schema
    case StringMin(n, msg) => TooSmall(n as real, msg)
    case StringRefine(_, msg) => Custom(msg)
    case NumberMin(m, msg) => TooSmall(m, msg)
  }

  /** Reference definition of what a field schema accepts. */
  predicate Accepts(schema: FieldSchema, v: JsValue) {
    match schema
    case StringMin(n, _) => v.Str? && |v.s| >= n
    case StringRefine(check, _) => v.Str? && check(v.s)
    case NumberMin(m, _) => v.Num? && v.x >= m
  }

  /** The issues one field contributes. A value of the wrong type stops at the
      type check, so its refinement never runs. */
  function FieldIssues(key: string, schema: FieldSchema, v: JsValue): (r: seq<Issue>)
    ensures r == [] <==> Accepts(schema, v)
    ensures |r| <= 1
    ensures forall iss :: iss in r ==> iss.path == [key]
    ensures TypeOf(v) != ExpectedType(schema) ==> r == [Issue([key], InvalidType(ExpectedType(schema), TypeOf(v)))]
    ensures TypeOf(v) == ExpectedType(schema) && !Accepts(schema, v) ==> r == [Issue([key], CheckProblem(schema))]
  {
    match schema
    case StringMin(n, msg) =>
      if !v.Str? then [Issue([key], InvalidType(StringType, TypeOf(v)))]
      else if |v.s| < n then [Issue([key], TooSmall(n as real, msg))]
      else []
    case StringRefine(check, msg) =>
      if !v.Str? then [Issue([key], InvalidType(StringType, TypeOf(v)))]
      else if !check(v.s) then [Issue([key], Custom(msg))]
      else []
    case NumberMin(m, msg) =>
      if !v.Num? then [Issue([key], InvalidType(NumberType, TypeOf(v)))]
      else if v.x < m then [Issue([key], TooSmall(m, msg))]
      else []
  }

  function KeySet(shape: Shape): set<string> {
    set i | 0 <= i < |shape| :: shape[i].0
  }

  predicate DistinctKeys(shape: Shape) {
    forall i, j :: 0 <= i < j < |shape| ==> shape[i].0 != shape[j].0
  }

  /** Every field of an object holds. */
  predicate ObjectAccepts(shape: Shape, obj: JsObject) {
    forall i :: 0 <= i < |shape| ==> Accepts(shape[i].1, Get(obj, shape[i].0))
  }

  /** The issues of an object schema, field by field in the schema's order. */
  function ObjectIssues(shape: Shape, obj: JsObject): (r: seq<Issue>)
    ensures r == [] <==> ObjectAccepts(shape, obj)
    ensures |r| <= |shape|
    ensures forall iss :: iss in r ==> |iss.path| == 1 && iss.path[0] in KeySet(shape)
    decreases |shape|
  {
    if |shape| == 0 then []
    else
      var rest := ObjectIssues(shape[1..], obj);
      assert KeySet(shape[1..]) <= KeySet(shape) by {
        forall k | k in KeySet(shape[1..]) ensures k in KeySet(shape) {
          var j :| 0 <= j < |shape[1..]| && shape[1..][j].0 == k;
          assert shape[j + 1].0 == k;
        }
      }
      assert ObjectAccepts(shape, obj) <==> Accepts(shape[0].1, Get(obj, shape[0].0)) && ObjectAccepts(shape[1..], obj) by {
        if Accepts(shape[0].1, Get(obj, shape[0].0)) && ObjectAccepts(shape[1..], obj) {
          forall i | 0 <= i < |shape| ensures Accepts(shape[i].1, Get(obj, shape[i].0)) {
            if i > 0 { assert shape[i] == shape[1..][i - 1]; }
          }
        }
      }
      FieldIssues(shape[0].0, shape[0].1, Get(obj, shape[0].0)) + rest
  }

  /** The issues among `issues` whose path is the single key `key`. */
  function At(issues: seq<Issue>, key: string): (r: seq<Issue>)
    ensures forall iss :: iss in r <==> iss in issues && iss.path == [key]
  {
    if |issues| == 0 then []
    else (if issues[0].path == [key] then [issues[0]] else []) + At(issues[1..], key)
  }

  lemma {:induction false} AtAppend(a: seq<Issue>, b: seq<Issue>, key: string)
    ensures At(a + b, key) == At(a, key) + At(b, key)
    decreases |a|
  {
    if |a| == 0 {
      assert a + b == b;
    } else {
      assert (a + b)[1..] == a[1..] + b;
      AtAppend(a[1..], b, key);
    }
  }

  /** Filtering issues that never carry path [key] leaves nothing. */
  lemma {:induction false} AtNone(issues: seq<Issue>, key: string)
    requires forall iss :: iss in issues ==> iss.path != [key]
    ensures At(issues, key) == []
    decreases |issues|
  {
    if |issues| > 0 {
      assert issues[0] in issues;
      AtNone(issues[1..], key);
    }
  }

  lemma DistinctTail(shape: Shape)
    requires |shape| > 0 && DistinctKeys(shape)
    ensures DistinctKeys(shape[1..])
  {
    forall a, b | 0 <= a < b < |shape[1..]| ensures shape[1..][a].0 != shape[1..][b].0 {
      assert shape[1..][a] == shape[a + 1] && shape[1..][b] == shape[b + 1];
    }
  }

  /** No issue of the later fields carries the first field's path. */
  lemma TailAvoidsHeadKey(shape: Shape, obj: JsObject)
    requires |shape| > 0 && DistinctKeys(shape)
    ensures forall iss :: iss in ObjectIssues(shape[1..], obj) ==> iss.path != [shape[0].0]
  {
    forall iss | iss in ObjectIssues(shape[1..], obj) ensures iss.path != [shape[0].0] {
      var j :| 0 <= j < |shape[1..]| && shape[1..][j].0 == iss.path[0];
      assert shape[j + 1].0 == iss.path[0];
    }
  }

  /** Under the first field's path an object reports exactly that field's issues. */
  lemma IssuesAtHead(shape: Shape, obj: JsObject)
    requires |shape| > 0 && DistinctKeys(shape)
    ensures At(ObjectIssues(shape, obj), shape[0].0) == FieldIssues(shape[0].0, shape[0].1, Get(obj, shape[0].0))
  {
    var key := shape[0].0;
    var head := FieldIssues(key, shape[0].1, Get(obj, key));
    var rest := ObjectIssues(shape[1..], obj);
    assert ObjectIssues(shape, obj) == head + rest;
    AtAppend(head, rest, key);
    TailAvoidsHeadKey(shape, obj);
    AtNone(rest, key);
    assert At(head, key) == head;
  }

  /** Under a later field's path the first field contributes nothing. */
  lemma IssuesPastHead(shape: Shape, obj: JsObject, key: string)
    requires |shape| > 0 && shape[0].0 != key
    ensures At(ObjectIssues(shape, obj), key) == At(ObjectIssues(shape[1..], obj), key)
  {
    var head := FieldIssues(shape[0].0, shape[0].1, Get(obj, shape[0].0));
    var rest := ObjectIssues(shape[1..], obj);
    assert ObjectIssues(shape, obj) == head + rest;
    AtAppend(head, rest, key);
    AtNone(head, key);
  }

  /** With distinct keys, the issues an object reports under a field's path are
      exactly that field's own issues: fields never mask or repeat one another. */
  lemma {:induction false} IssuesAtField(shape: Shape, obj: JsObject, i: int)
    requires DistinctKeys(shape)
    requires 0 <= i < |shape|
    ensures At(ObjectIssues(shape, obj), shape[i].0) == FieldIssues(shape[i].0, shape[i].1, Get(obj, shape[i].0))
    decreases |shape|
  {
    if i == 0 {
      IssuesAtHead(shape, obj);
    } else {
      IssuesPastHead(shape, obj, shape[i].0);
      DistinctTail(shape);
      assert shape[1..][i - 1] == shape[i];
      IssuesAtField(shape[1..], obj, i - 1);
    }
  }

  /** `schema.safeParse(obj)`: on success the parsed object keeps exactly the
      schema's keys (unknown keys are stripped) with their values unchanged;
      on failure it carries every issue. */
  function SafeParse(shape: Shape, obj: JsObject): (r: Result<JsObject, seq<Issue>>)
    ensures r.Success? <==> ObjectAccepts(shape, obj)
    ensures r.Success? ==> r.value.Keys == KeySet(shape)
    ensures r.Success? ==> forall k :: k in r.value ==> r.value[k] == Get(obj, k)
    ensures r.Failure? ==> r.error != [] && |r.error| <= |shape|
    ensures r.Failure? ==> r.error == ObjectIssues(shape, obj)
  {
    var issues := ObjectIssues(shape, obj);
    if issues == [] then Success(map k | k in KeySet(shape) :: Get(obj, k))
    else Failure(issues)
  }
}
