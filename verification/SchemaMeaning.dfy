/** What a schema node accepts, after the Schema Object, section 4.7.24 of the OpenAPI
    Specification 3.0.3, and section 5 of JSON Schema Validation
    (draft-wright-json-schema-validation-00), and the fragment the diff can speak for. */
module SchemaMeaning {
  import opened SchemaDiff

  /** The parts of a schema's meaning that stay uninterpreted: regular expressions, CEL
      rules, whatever else an anyOf branch asks for, every keyword the diff does not read,
      and how the diff prints an enum value. */
  datatype Meaning = Meaning(
    matches: (string, string) -> bool,
    rule: (string, Json) -> bool,
    branch: (Json, Json) -> bool,
    other: (string, Json, Json) -> bool,
    fmt: Json -> string)

  const READ: set<string> := {
    "type", "anyOf", "enum", "pattern", "minimum", "maximum", "minLength", "maxLength", "minItems",
    "maxItems", "required", "x-kubernetes-validations", "nullable", "properties", AP, "items"}

  // ---------------------------------------------------------------- acceptance

  predicate HasType(v: Json, t: string) {
    match t
    case "object" => v.Obj?
    case "array" => v.Arr?
    case "string" => v.Str?
    case "boolean" => v.Bool?
    case "null" => v.Null?
    case "number" => v.Num?
    case "integer" => v.Num? && v.n.Floor as real == v.n
    case _ => false
  }

  /** No type words, or one of them. */
  predicate WordsAllow(words: set<string>, v: Json) {
    words == {} || exists t <- words :: HasType(v, t)
  }

  /** `nullable` adds "null" to the types of the `type` keyword, where there is one. */
  function AllowedTypes(words: set<string>, nullable: bool): set<string> {
    if words != {} && nullable then words + {"null"} else words
  }

  function NodeTypes(s: Schema): set<string> {
    AllowedTypes(TypeWords(s), BoolOf(s, "nullable"))
  }

  /** A branch is a schema object of its own, with a `nullable` of its own. */
  function BranchTypes(branch: Json): set<string> {
    AllowedTypes(BranchType(branch), branch.Obj? && BoolOf(branch.fields, "nullable"))
  }

  predicate BranchAllows(branch: Json, v: Json) {
    WordsAllow(BranchTypes(branch), v)
  }

  predicate BranchOk(m: Meaning, branch: Json, v: Json) {
    BranchAllows(branch, v) && m.branch(branch, v)
  }

  predicate TypeOk(m: Meaning, s: Schema, v: Json) {
    && WordsAllow(NodeTypes(s), v)
    && (AnyOf(s).Some? ==> exists b <- AnyOf(s).value :: BranchOk(m, b, v))
  }

  predicate EnumOk(s: Schema, v: Json) {
    EnumValues(s).Some? ==> v in EnumValues(s).value
  }

  predicate AtLeast(s: Schema, key: string, n: real) {
    NumberOf(s, key).Some? ==> n >= NumberOf(s, key).value
  }

  predicate AtMost(s: Schema, key: string, n: real) {
    NumberOf(s, key).Some? ==> n <= NumberOf(s, key).value
  }

  predicate BoundsOk(m: Meaning, s: Schema, v: Json) {
    match v
    case Num(n) => AtLeast(s, "minimum", n) && AtMost(s, "maximum", n)
    case Str(t) =>
      && AtLeast(s, "minLength", |t| as real) && AtMost(s, "maxLength", |t| as real)
      && (StringOf(s, "pattern") != "" ==> m.matches(StringOf(s, "pattern"), t))
    case Arr(xs) => AtLeast(s, "minItems", |xs| as real) && AtMost(s, "maxItems", |xs| as real)
    case _ => true
  }

  predicate RequiredOk(s: Schema, v: Json) {
    v.Obj? ==> Required(s) <= v.fields.Keys
  }

  predicate RulesOk(m: Meaning, s: Schema, v: Json) {
    forall r <- Rules(s) :: m.rule(r, v)
  }

  predicate OthersOk(m: Meaning, s: Schema, v: Json) {
    forall kw <- s.Keys - READ :: m.other(kw, s[kw], v)
  }

  predicate NodeOk(m: Meaning, s: Schema, v: Json) {
    && TypeOk(m, s, v) && EnumOk(s, v) && BoundsOk(m, s, v) && RequiredOk(s, v)
    && RulesOk(m, s, v) && OthersOk(m, s, v)
  }

  /** A field value under the schema that governs it. */
  predicate FieldOk(m: Meaning, s: Schema, name: string, v: Json)
    decreases v, 1
  {
    if name in Props(s) then Accepts(m, Props(s)[name], v)
    else !Closed(s) && (Child(s, AP).Some? ==> Accepts(m, Child(s, AP).value, v))
  }

  predicate Accepts(m: Meaning, s: Schema, v: Json)
    decreases v, 0
  {
    && NodeOk(m, s, v)
    && (v.Obj? ==> forall name <- v.fields :: FieldOk(m, s, name, v.fields[name]))
    && (v.Arr? && Child(s, "items").Some? ==>
          forall i | 0 <= i < |v.elems| :: Accepts(m, Child(s, "items").value, v.elems[i]))
  }

  // ---------------------------------------------------------------- the fragment

  /** A branch that says nothing but a type. */
  predicate Pure(b: Json) {
    b.Obj? && b.fields.Keys == {"type"} && BranchType(b) != {}
  }

  /** The uninterpreted residue of such a branch is empty. */
  ghost predicate BranchesMeanTypes(m: Meaning) {
    forall b: Json, v: Json :: Pure(b) ==> m.branch(b, v)
  }

  predicate PureAllows(s: Schema, v: Json) {
    AnyOf(s).Some? && exists b <- AnyOf(s).value :: Pure(b) && BranchAllows(b, v)
  }

  /** Base's type words and branches come from places the diff does not confuse: branches of a
      base without `type` all have one and are not nullable, and head uses `type` or branches that
      are only types, not both, and not those where base has a nullable type. Then throwing the
      words of `type` and `anyOf` together loses nothing. */
  predicate Lossless(base: Schema, head: Schema) {
    && (AnyOf(base).Some? && TypeWords(base) == {} ==>
          forall b <- AnyOf(base).value :: BranchType(b) != {} && BranchTypes(b) == BranchType(b))
    && (AnyOf(head).Some? ==>
          && TypeWords(head) == {} && NodeTypes(base) == TypeWords(base)
          && AnyOf(head).value != [] && forall b <- AnyOf(head).value :: Pure(b))
  }

  /** Values of this kind that pass base's `type` and one of its branches pass head's `type`, and
      that branch is kept in head or some head branch that is only a type takes them. */
  predicate CoveredAt(base: Schema, head: Schema, v: Json) {
    || !WordsAllow(NodeTypes(base), v)
    || if AnyOf(base).None?
       then WordsAllow(NodeTypes(head), v) && (AnyOf(head).Some? ==> PureAllows(head, v))
       else forall b <- AnyOf(base).value :: BranchAllows(b, v) ==>
              && WordsAllow(NodeTypes(head), v)
              && (AnyOf(head).Some? ==> b in AnyOf(head).value || PureAllows(head, v))
  }

  /** One value of each kind the type words tell apart. */
  const SAMPLES: seq<Json> := [Obj(map[]), Arr([]), Str(""), Bool(true), Null, Num(0.0), Num(0.5)]

  predicate Covered(base: Schema, head: Schema) {
    forall v <- SAMPLES :: CoveredAt(base, head, v)
  }

  /** Where the diff's comparison of type words can be relied on, or where the change is harmless
      whatever it compares. */
  predicate TypesComparable(base: Schema, head: Schema) {
    Lossless(base, head) || Covered(base, head)
  }

  ghost predicate Inert(m: Meaning, kw: string) {
    forall payload: Json, v: Json :: m.other(kw, payload, v)
  }

  /** Keywords the diff does not compare are unchanged, inert, or new compositions, which
      the diff does report. */
  ghost predicate OthersComparable(m: Meaning, base: Schema, head: Schema) {
    forall kw <- head.Keys - READ ::
      (kw in base && base[kw] == head[kw]) || (kw in {"oneOf", "allOf", "not"} && kw !in base) || Inert(m, kw)
  }

  predicate EnumsComparable(m: Meaning, base: Schema, head: Schema) {
    EnumValues(base).Some? && EnumValues(head).Some? ==>
      forall x, y | x in EnumValues(base).value && y in EnumValues(head).value ::
        m.fmt(x) == m.fmt(y) ==> x in EnumValues(head).value
  }

  /** The fragment on which the diff is meant to be sound, pair by pair of the walk. */
  ghost predicate Comparable(m: Meaning, base: Schema, head: Schema)
    decreases Obj(head)
  {
    && TypesComparable(base, head) && OthersComparable(m, base, head) && EnumsComparable(m, base, head)
    && (forall name <- Props(base).Keys * Props(head).Keys :: Comparable(m, Props(base)[name], Props(head)[name]))
    && (!Closed(base) && Child(head, AP).Some? ==> Comparable(m, OrEmpty(Child(base, AP)), Child(head, AP).value))
    && (Child(head, "items").Some? ==> Comparable(m, OrEmpty(Child(base, "items")), Child(head, "items").value))
  }

  /** The value uses no field that head declares and base leaves undeclared and open. */
  predicate Avoids(base: Schema, head: Schema, v: Json)
    decreases v, 0
  {
    && (v.Obj? ==> forall name <- v.fields :: AvoidsField(base, head, name, v.fields[name]))
    && (v.Arr? && Child(head, "items").Some? ==>
          forall i | 0 <= i < |v.elems| ::
              Avoids(OrEmpty(Child(base, "items")), Child(head, "items").value, v.elems[i]))
  }

  predicate AvoidsField(base: Schema, head: Schema, name: string, v: Json)
    decreases v, 1
  {
    if name in Props(head) then
      if name in Props(base) then Avoids(Props(base)[name], Props(head)[name], v) else Closed(base)
    else Child(head, AP).Some? ==> Avoids(OrEmpty(Child(base, AP)), Child(head, AP).value, v)
  }
}
