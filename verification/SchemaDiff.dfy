/** The schema diff of the API gate: which changes to an OpenAPI v3 schema node it
    reports as breaking. Schemas are the parsed JSON the gate works on. */
module SchemaDiff {
  import opened Basics

  datatype Json =
    | Null
    | Bool(b: bool)
    | Num(n: real)
    | Str(s: string)
    | Arr(elems: seq<Json>)
    | Obj(fields: map<string, Json>)


  type Schema = map<string, Json>

  // ---------------------------------------------------------------- field accessors

  function Get(s: Schema, key: string): Json {
    if key in s then s[key] else Null
  }

  function NonEmpty(j: Json): set<string> {
    if j.Str? && j.s != "" then {j.s} else {}
  }

  /** The `type` keyword, scalar or list. */
  function TypeWords(s: Schema): set<string> {
    match Get(s, "type")
    case Str(t) => if t != "" then {t} else {}
    case Arr(ts) => set t | t in ts && t.Str? :: t.s
    case _ => {}
  }

  /** The type of one anyOf branch, if it has one. */
  function BranchType(branch: Json): set<string> {
    if branch.Obj? then NonEmpty(Get(branch.fields, "type")) else {}
  }

  function AnyOf(s: Schema): Option<seq<Json>> {
    if Get(s, "anyOf").Arr? then Some(Get(s, "anyOf").elems) else None
  }

  function AnyOfWords(s: Schema): set<string> {
    if AnyOf(s).None? then {} else set b, t | b in AnyOf(s).value && t in BranchType(b) :: t
  }

  /** schemaTypes: both sources of type words thrown together; empty means unconstrained. */
  function Types(s: Schema): set<string> {
    TypeWords(s) + AnyOfWords(s)
  }

  function EnumValues(s: Schema): Option<seq<Json>> {
    if Get(s, "enum").Arr? then Some(Get(s, "enum").elems) else None
  }

  /** schemaEnum: the values as the formatter prints them. */
  function EnumWords(fmt: Json -> string, s: Schema): set<string> {
    if EnumValues(s).None? then {} else set v | v in EnumValues(s).value :: fmt(v)
  }

  function StringOf(s: Schema, key: string): string {
    if Get(s, key).Str? then Get(s, key).s else ""
  }

  predicate BoolOf(s: Schema, key: string) {
    Get(s, key) == Bool(true)
  }

  function NumberOf(s: Schema, key: string): Option<real> {
    if Get(s, key).Num? then Some(Get(s, key).n) else None
  }

  function Required(s: Schema): set<string> {
    if Get(s, "required").Arr? then set v | v in Get(s, "required").elems && v.Str? :: v.s else {}
  }

  function RuleOf(entry: Json): set<string> {
    if entry.Obj? then NonEmpty(Get(entry.fields, "rule")) else {}
  }

  function Rules(s: Schema): set<string> {
    if Get(s, "x-kubernetes-validations").Arr?
    then set entry, r | entry in Get(s, "x-kubernetes-validations").elems && r in RuleOf(entry) :: r
    else {}
  }

  /** schemaProps: only properties declared by a schema object. */
  function Props(s: Schema): map<string, Schema> {
    if Get(s, "properties").Obj?
    then map name | name in Get(s, "properties").fields && Get(s, "properties").fields[name].Obj?
                  :: Get(s, "properties").fields[name].fields
    else map[]
  }

  function Child(s: Schema, key: string): Option<Schema> {
    if Get(s, key).Obj? then Some(Get(s, key).fields) else None
  }

  function OrEmpty(s: Option<Schema>): Schema {
    if s.Some? then s.value else map[]
  }

  /** Undeclared fields are refused. */
  predicate Closed(s: Schema) {
    Get(s, "additionalProperties") == Bool(false)
  }

  const AP := "additionalProperties"

  const COMPOSITION: set<string> := {"oneOf", "allOf", "not"}

  // ---------------------------------------------------------------- findings

  datatype Breaking =
    | TypeAdded(path: string, accepts: set<string>)
    | TypeNarrowed(path: string, gone: set<string>)
    | EnumAdded(path: string)
    | EnumRemoved(path: string, gone: set<string>)
    | PatternChanged(path: string, was: string, now: string)
    | Tightened(path: string, key: string, before: Option<real>, after: real)
    | NowRequired(path: string, name: string)
    | RuleAdded(path: string, rule: string)
    | NoLongerNullable(path: string)
    | CompositionAdded(path: string, keyword: string)
    | FieldRemoved(path: string, name: string)
    | UndeclaredRefused(path: string)

  function TypeFindings(path: string, base: Schema, head: Schema): set<Breaking> {
    var bt, ht := Types(base), Types(head);
    if bt == {} && ht != {} then {TypeAdded(path, ht)}
    else if ht != {} && bt - ht != {} then {TypeNarrowed(path, bt - ht)}
    else {}
  }

  function EnumFindings(fmt: Json -> string, path: string, base: Schema, head: Schema): set<Breaking> {
    var removed := EnumWords(fmt, base) - EnumWords(fmt, head);
    if EnumValues(base).None? && EnumValues(head).Some? then {EnumAdded(path)}
    else if EnumValues(base).Some? && EnumValues(head).Some? && removed != {} then {EnumRemoved(path, removed)}
    else {}
  }

  function PatternFindings(path: string, base: Schema, head: Schema): set<Breaking> {
    var was, now := StringOf(base, "pattern"), StringOf(head, "pattern");
    if now != "" && now != was then {PatternChanged(path, was, now)} else {}
  }

  /** diffLowerBound: a bound that is new or raised. */
  function LowerFindings(path: string, key: string, base: Schema, head: Schema): set<Breaking> {
    var was, now := NumberOf(base, key), NumberOf(head, key);
    if now.Some? && (was.None? || now.value > was.value) then {Tightened(path, key, was, now.value)} else {}
  }

  /** diffUpperBound: a bound that is new or lowered. */
  function UpperFindings(path: string, key: string, base: Schema, head: Schema): set<Breaking> {
    var was, now := NumberOf(base, key), NumberOf(head, key);
    if now.Some? && (was.None? || now.value < was.value) then {Tightened(path, key, was, now.value)} else {}
  }

  function BoundFindings(path: string, base: Schema, head: Schema): set<Breaking> {
    LowerFindings(path, "minimum", base, head) + LowerFindings(path, "minLength", base, head)
    + LowerFindings(path, "minItems", base, head) + UpperFindings(path, "maximum", base, head)
    + UpperFindings(path, "maxLength", base, head) + UpperFindings(path, "maxItems", base, head)
  }

  function RequiredFindings(path: string, base: Schema, head: Schema): set<Breaking> {
    set name | name in Required(head) - Required(base) :: NowRequired(path, name)
  }

  function RuleFindings(path: string, base: Schema, head: Schema): set<Breaking> {
    set rule | rule in Rules(head) - Rules(base) :: RuleAdded(path, rule)
  }

  function NullableFindings(path: string, base: Schema, head: Schema): set<Breaking> {
    if BoolOf(base, "nullable") && !BoolOf(head, "nullable") then {NoLongerNullable(path)} else {}
  }

  function CompositionFindings(path: string, base: Schema, head: Schema): set<Breaking> {
    set kw | kw in COMPOSITION && kw !in base && kw in head :: CompositionAdded(path, kw)
  }

  function RemovedFindings(path: string, base: Schema, head: Schema): set<Breaking> {
    set name | name in Props(base).Keys - Props(head).Keys :: FieldRemoved(path, name)
  }

  function ClosedFindings(path: string, base: Schema, head: Schema): set<Breaking> {
    if !Closed(base) && Closed(head) then {UndeclaredRefused(path)} else {}
  }

  /** What is wrong with the values this node accepts, leaving its fields aside. */
  function ValueFindings(fmt: Json -> string, path: string, base: Schema, head: Schema): set<Breaking> {
    TypeFindings(path, base, head) + EnumFindings(fmt, path, base, head) + PatternFindings(path, base, head)
    + BoundFindings(path, base, head) + NullableFindings(path, base, head)
  }

  /** What is wrong with the fields and rules it asks for. */
  function ObjectFindings(path: string, base: Schema, head: Schema): set<Breaking> {
    RequiredFindings(path, base, head) + RuleFindings(path, base, head) + CompositionFindings(path, base, head)
    + RemovedFindings(path, base, head) + ClosedFindings(path, base, head)
  }

  /** Every finding of the lockstep walk. */
  function Findings(fmt: Json -> string, path: string, base: Schema, head: Schema): set<Breaking>
    decreases Obj(head), 1
  {
    ValueFindings(fmt, path, base, head) + ObjectFindings(path, base, head)
    + PropFindings(fmt, path, base, head) + RestFindings(fmt, path, base, head) + ItemFindings(fmt, path, base, head)
  }

  /** Properties both sides declare. */
  function PropFindings(fmt: Json -> string, path: string, base: Schema, head: Schema): set<Breaking>
    decreases Obj(head), 0
  {
    set name, f | name in Props(base).Keys * Props(head).Keys
                  && f in Findings(fmt, path + "." + name, Props(base)[name], Props(head)[name]) :: f
  }

  /** Undeclared fields, when base lets any in and head constrains them. */
  function RestFindings(fmt: Json -> string, path: string, base: Schema, head: Schema): set<Breaking>
    decreases Obj(head), 0
  {
    if !Closed(base) && Child(head, AP).Some?
    then Findings(fmt, path + "{}", OrEmpty(Child(base, AP)), Child(head, AP).value) else {}
  }

  /** Array elements, when head constrains them. */
  function ItemFindings(fmt: Json -> string, path: string, base: Schema, head: Schema): set<Breaking>
    decreases Obj(head), 0
  {
    if Child(head, "items").Some?
    then Findings(fmt, path + "[]", OrEmpty(Child(base, "items")), Child(head, "items").value) else {}
  }

  // ---------------------------------------------------------------- clean diffs

  predicate CleanLower(key: string, base: Schema, head: Schema) {
    NumberOf(head, key).Some? ==> NumberOf(base, key).Some? && NumberOf(head, key).value <= NumberOf(base, key).value
  }

  predicate CleanUpper(key: string, base: Schema, head: Schema) {
    NumberOf(head, key).Some? ==> NumberOf(base, key).Some? && NumberOf(head, key).value >= NumberOf(base, key).value
  }

  predicate CleanBounds(base: Schema, head: Schema) {
    && CleanLower("minimum", base, head) && CleanUpper("maximum", base, head)
    && CleanLower("minLength", base, head) && CleanUpper("maxLength", base, head)
    && CleanLower("minItems", base, head) && CleanUpper("maxItems", base, head)
  }

  predicate CleanTypes(base: Schema, head: Schema) {
    Types(head) != {} ==> Types(base) != {} && Types(base) <= Types(head)
  }

  predicate CleanValue(fmt: Json -> string, base: Schema, head: Schema) {
    && CleanTypes(base, head)
    && (EnumValues(head).Some? ==> EnumValues(base).Some? && EnumWords(fmt, base) <= EnumWords(fmt, head))
    && (StringOf(head, "pattern") != "" ==> StringOf(head, "pattern") == StringOf(base, "pattern"))
    && CleanBounds(base, head)
    && (BoolOf(base, "nullable") ==> BoolOf(head, "nullable"))
  }

  predicate CleanObject(base: Schema, head: Schema) {
    && Required(head) <= Required(base)
    && Rules(head) <= Rules(base)
    && (forall kw <- COMPOSITION :: kw in head ==> kw in base)
    && Props(base).Keys <= Props(head).Keys
    && (Closed(head) ==> Closed(base))
  }

  /** No constraint of `head` is new or tighter, here or below. */
  predicate Clean(fmt: Json -> string, base: Schema, head: Schema)
    decreases Obj(head), 1
  {
    CleanValue(fmt, base, head) && CleanObject(base, head)
    && CleanProps(fmt, base, head) && CleanRest(fmt, base, head) && CleanItems(fmt, base, head)
  }

  predicate CleanProps(fmt: Json -> string, base: Schema, head: Schema)
    decreases Obj(head), 0
  {
    forall name <- Props(base).Keys * Props(head).Keys :: Clean(fmt, Props(base)[name], Props(head)[name])
  }

  predicate CleanRest(fmt: Json -> string, base: Schema, head: Schema)
    decreases Obj(head), 0
  {
    !Closed(base) && Child(head, AP).Some? ==> Clean(fmt, OrEmpty(Child(base, AP)), Child(head, AP).value)
  }

  predicate CleanItems(fmt: Json -> string, base: Schema, head: Schema)
    decreases Obj(head), 0
  {
    Child(head, "items").Some? ==> Clean(fmt, OrEmpty(Child(base, "items")), Child(head, "items").value)
  }
}
