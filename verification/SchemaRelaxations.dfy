/** The changes the diff promises to pass over: for every schema, a relaxation yields no finding. */
module SchemaRelaxations {
  import opened SchemaDiff
  import opened SchemaProofs

  /** Nothing is reported, whatever the path and however values print. */
  ghost predicate Unreported(base: Schema, head: Schema) {
    forall fmt: Json -> string, path: string :: Findings(fmt, path, base, head) == {}
  }

  lemma CleanIsUnreported(base: Schema, head: Schema)
    requires forall fmt: Json -> string :: Clean(fmt, base, head)
    ensures Unreported(base, head)
  {
    forall fmt: Json -> string, path: string ensures Findings(fmt, path, base, head) == {} {
      NoFindingMeansClean(fmt, path, base, head);
    }
  }

  /** The schemas agree on every keyword but one. */
  ghost predicate AgreeBut(base: Schema, head: Schema, kw: string) {
    forall key: string :: key != kw ==> Get(head, key) == Get(base, key) && (key in head <==> key in base)
  }

  /** What the diff reads of a value, apart from one keyword. */
  lemma SameValue(fmt: Json -> string, base: Schema, head: Schema, kw: string)
    requires AgreeBut(base, head, kw)
    ensures kw != "type" && kw != "anyOf" ==> CleanTypes(base, head)
    ensures kw != "enum" && EnumValues(head).Some? ==>
              EnumValues(base).Some? && EnumWords(fmt, base) <= EnumWords(fmt, head)
    ensures kw != "pattern" ==> StringOf(head, "pattern") == StringOf(base, "pattern")
    ensures kw != "nullable" ==> BoolOf(head, "nullable") == BoolOf(base, "nullable")
  {
  }

  lemma SameBounds(base: Schema, head: Schema, kw: string)
    requires AgreeBut(base, head, kw)
    requires kw in {"minimum", "minLength", "minItems"} ==> CleanLower(kw, base, head)
    requires kw in {"maximum", "maxLength", "maxItems"} ==> CleanUpper(kw, base, head)
    ensures CleanBounds(base, head)
  {
  }

  /** And of an object. */
  lemma SameObject(base: Schema, head: Schema, kw: string)
    requires AgreeBut(base, head, kw)
    ensures kw != "required" ==> Required(head) == Required(base)
    ensures kw != "x-kubernetes-validations" ==> Rules(head) == Rules(base)
    ensures kw !in COMPOSITION ==> forall c <- COMPOSITION :: c in head ==> c in base
    ensures kw != "properties" ==> Props(head) == Props(base)
    ensures kw != AP ==> Closed(head) == Closed(base) && Child(head, AP) == Child(base, AP)
    ensures kw != "items" ==> Child(head, "items") == Child(base, "items")
  {
  }

  /** A node is clean if it is clean in itself and the children it still constrains are as they were. */
  lemma SameChildren(fmt: Json -> string, base: Schema, head: Schema)
    requires CleanValue(fmt, base, head) && CleanObject(base, head)
    requires forall name <- Props(base) :: name in Props(head) && Props(head)[name] == Props(base)[name]
    requires Child(head, AP).Some? ==> Child(head, AP) == Child(base, AP)
    requires Child(head, "items").Some? ==> Child(head, "items") == Child(base, "items")
    ensures Clean(fmt, base, head)
  {
    forall name | name in Props(base) ensures Clean(fmt, Props(base)[name], Props(head)[name]) {
      CleanReflexive(fmt, Props(base)[name]);
    }
    if Child(head, AP).Some? {
      CleanReflexive(fmt, Child(head, AP).value);
    }
    if Child(head, "items").Some? {
      CleanReflexive(fmt, Child(head, "items").value);
    }
  }

  /** The one keyword that changed asks for no more than before. */
  ghost predicate NoTighter(base: Schema, head: Schema, kw: string) {
    && (kw in {"type", "anyOf"} ==> CleanTypes(base, head))
    && (kw == "enum" && EnumValues(head).Some? ==>
          EnumValues(base).Some? && forall v <- EnumValues(base).value :: v in EnumValues(head).value)
    && (kw == "pattern" ==> StringOf(head, kw) == "") && (kw == "nullable" ==> BoolOf(head, kw))
    && (kw in {"minimum", "minLength", "minItems"} ==> CleanLower(kw, base, head))
    && (kw in {"maximum", "maxLength", "maxItems"} ==> CleanUpper(kw, base, head))
    && (kw == "required" ==> Required(head) == {}) && (kw == "x-kubernetes-validations" ==> Rules(head) == {})
    && (kw in COMPOSITION ==> kw !in head)
    && (kw == "properties" ==>
          forall name <- Props(base) :: name in Props(head) && Props(head)[name] == Props(base)[name])
    && (kw == AP ==> !Closed(head) && Child(head, AP).None?) && (kw == "items" ==> Child(head, "items").None?)
  }

  lemma NoTighterValue(fmt: Json -> string, base: Schema, head: Schema, kw: string)
    requires AgreeBut(base, head, kw) && NoTighter(base, head, kw)
    ensures CleanValue(fmt, base, head)
  {
    SameValue(fmt, base, head, kw);
    SameBounds(base, head, kw);
  }

  lemma OneKeywordRelaxed(base: Schema, head: Schema, kw: string)
    requires AgreeBut(base, head, kw) && NoTighter(base, head, kw)
    ensures Unreported(base, head)
  {
    SameObject(base, head, kw);
    forall fmt: Json -> string ensures Clean(fmt, base, head) {
      NoTighterValue(fmt, base, head, kw);
      SameChildren(fmt, base, head);
    }
    CleanIsUnreported(base, head);
  }

  // ---------------------------------------------------------------- the documented relaxations

  /** Any keyword dropped, but for types, null and declared properties. */
  lemma DroppedKeywordIsUnreported(s: Schema, kw: string)
    requires kw != "type" && kw != "anyOf" && kw != "nullable" && kw != "properties"
    ensures Unreported(s, s - {kw})
  {
    AbsentAsksNothing(s, s - {kw}, kw);
    OneKeywordRelaxed(s, s - {kw}, kw);
  }

  lemma AbsentAsksNothing(base: Schema, head: Schema, kw: string)
    requires kw !in head && kw != "type" && kw != "anyOf" && kw != "nullable" && kw != "properties"
    ensures NoTighter(base, head, kw)
  {
    assert Get(head, kw) == Null;
  }

  /** A new optional property. */
  lemma AddedPropertyIsUnreported(s: Schema, name: string, declared: Schema)
    requires "properties" in s ==> s["properties"].Obj? && name !in s["properties"].fields
    ensures var before := if "properties" in s then s["properties"].fields else map[];
            Unreported(s, s["properties" := Obj(before[name := Obj(declared)])])
  {
    var before := if "properties" in s then s["properties"].fields else map[];
    OneKeywordRelaxed(s, s["properties" := Obj(before[name := Obj(declared)])], "properties");
  }

  /** A new enum value. */
  lemma AddedEnumValueIsUnreported(s: Schema, x: Json)
    requires "enum" in s && s["enum"].Arr?
    ensures Unreported(s, s["enum" := Arr(s["enum"].elems + [x])])
  {
    OneKeywordRelaxed(s, s["enum" := Arr(s["enum"].elems + [x])], "enum");
  }

  /** A bound moved outwards. */
  lemma RelaxedBoundIsUnreported(s: Schema, key: string, n: real)
    requires key in s && s[key].Num?
    requires || (key in {"minimum", "minLength", "minItems"} && n <= s[key].n)
             || (key in {"maximum", "maxLength", "maxItems"} && n >= s[key].n)
    ensures Unreported(s, s[key := Num(n)])
  {
    OneKeywordRelaxed(s, s[key := Num(n)], key);
  }

  /** A wider type. */
  lemma WidenedTypeIsUnreported(s: Schema, word: string)
    requires "type" in s && s["type"].Str? && s["type"].s != ""
    ensures Unreported(s, s["type" := Arr([s["type"], Str(word)])])
  {
    var head := s["type" := Arr([s["type"], Str(word)])];
    assert s["type"] in [s["type"], Str(word)];
    assert AnyOfWords(head) == AnyOfWords(s) && TypeWords(s) <= TypeWords(head);
    OneKeywordRelaxed(s, head, "type");
  }
}
