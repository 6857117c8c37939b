/** The documents merger.ts handles (the OpenAPISpec and MergeResult shapes) and countPaths.
    A loaded document is whatever JSON.parse or yaml.load returned; the code only casts it
    to OpenAPISpec, so the model keeps the general value and says which values have that shape. */
module OpenApi {
  import opened Wrappers
  import opened Errors

  /** A parsed JSON/YAML value. `Undefined` is what yaml.load returns for an empty document. */
  datatype Value =
    | Undefined
    | Null
    | Bool(b: bool)
    | Num(n: real)
    | Str(s: string)
    | Arr(items: seq<Value>)
    | Obj(fields: map<string, Value>)

  /** JavaScript truthiness of a value: undefined and null are falsy, while every array
      and object, even an empty one, is truthy. */
  predicate Truthy(v: Value)
    ensures v.Undefined? || v.Null? ==> !Truthy(v)
    ensures v.Arr? || v.Obj? ==> Truthy(v)
  {
    match v
    case Undefined => false
    case Null => false
    case Bool(b) => b
    case Num(n) => n != 0.0
    case Str(s) => s != ""
    case _ => true
  }

  /** The OpenAPISpec interface: an object with a string `openapi` field and,
      optionally, a `paths` record. */
  predicate IsOpenApiSpec(v: Value) {
    && v.Obj?
    && "openapi" in v.fields && v.fields["openapi"].Str?
    && ("paths" in v.fields ==> v.fields["paths"].Obj?)
  }

  /** The record mergeOpenAPISpecs returns. */
  datatype MergeResult = MergeResult(spec: Value, pathCountBefore: nat, pathCountAfter: nat)

  /** Length of a string in UTF-16 code units, the unit of JavaScript string indices. */
  function Utf16Length(s: string): (n: nat)
    ensures n >= |s|
    ensures n == |s| <==> forall k :: 0 <= k < |s| ==> (s[k] as int) < 0x1_0000
    ensures n <= 2 * |s|
  {
    if s == [] then 0
    else (if (s[0] as int) < 0x1_0000 then 1 else 2) + Utf16Length(s[1..])
  }

  /** `Object.keys(v || {}).length`: a falsy value counts as the empty object; a string
      has one key per code unit, an array one per element, an object one per field;
      booleans and numbers have none. */
  function KeyCount(v: Value): (n: nat)
    ensures !Truthy(v) ==> n == 0
    ensures v.Obj? ==> n == |v.fields.Keys|
    ensures v.Arr? ==> n == |v.items|
    ensures v.Str? ==> n >= |v.s| && (n == 0 <==> v.s == "")
  {
    if !Truthy(v) then 0
    else match v
      case Str(s) => Utf16Length(s)
      case Arr(items) => |items|
      case Obj(fields) => |fields|
      case _ => 0
  }

  /** JavaScript property access `doc.paths`: a TypeError on undefined and null,
      undefined wherever no own field of that name exists. */
  function PathsOf(doc: Value): (r: Result<Value, Error>)
    ensures r.Err? <==> doc.Undefined? || doc.Null?
    ensures doc.Obj? && "paths" in doc.fields ==> r == Ok(doc.fields["paths"])
    ensures r.Ok? && !(doc.Obj? && "paths" in doc.fields) ==> r == Ok(Undefined)
  {
    match doc
    case Undefined => Err(CannotReadPaths("undefined"))
    case Null => Err(CannotReadPaths("null"))
    case Obj(fields) => Ok(if "paths" in fields then fields["paths"] else Undefined)
    case _ => Ok(Undefined)
  }

  /** countPaths (src/merger.ts:118-120). */
  function CountPaths(doc: Value): (r: Result<nat, Error>)
    ensures r.Err? <==> doc.Undefined? || doc.Null?
    ensures Truthy(doc) ==> r.Ok?
  {
    match PathsOf(doc)
    case Err(e) => Err(e)
    case Ok(paths) => Ok(KeyCount(paths))
  }

  /** On a value of the OpenAPISpec shape, countPaths is the number of keys of `paths`,
      and 0 when `paths` is absent. */
  lemma CountPathsOfSpec(doc: Value)
    requires IsOpenApiSpec(doc)
    ensures "paths" !in doc.fields ==> CountPaths(doc) == Ok(0)
    ensures "paths" in doc.fields ==> CountPaths(doc) == Ok(|doc.fields["paths"].fields|)
  {
  }

  /** The cases of the countPaths tests: three paths count 3; no `paths` counts 0;
      an empty `paths` counts 0. */
  lemma CountPathsExamples()
    ensures CountPaths(Obj(map["openapi" := Str("3.0.0"),
                               "paths" := Obj(map["/users" := Obj(map[]),
                                                  "/users/{id}" := Obj(map[]),
                                                  "/products" := Obj(map[])])])) == Ok(3)
    ensures CountPaths(Obj(map["openapi" := Str("3.0.0")])) == Ok(0)
    ensures CountPaths(Obj(map["openapi" := Str("3.0.0"), "paths" := Obj(map[])])) == Ok(0)
  {
    var paths := map["/users" := Obj(map[]), "/users/{id}" := Obj(map[]), "/products" := Obj(map[])];
    assert paths.Keys == {"/users", "/users/{id}", "/products"};
    assert "/users" != "/products";
  }
}
