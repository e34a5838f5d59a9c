/** What a clean schema diff guarantees. */
module SchemaProofs {
  import opened Basics
  import opened SchemaDiff

  // ---------------------------------------------------------------- no finding means clean

  lemma NoSetFinding(path: string, base: Schema, head: Schema)
    ensures RequiredFindings(path, base, head) == {} <==> Required(head) <= Required(base)
    ensures RuleFindings(path, base, head) == {} <==> Rules(head) <= Rules(base)
    ensures RemovedFindings(path, base, head) == {} <==> Props(base).Keys <= Props(head).Keys
  {
    if n :| n in Required(head) && n !in Required(base) {
      assert NowRequired(path, n) in RequiredFindings(path, base, head);
    }
    if r :| r in Rules(head) && r !in Rules(base) {
      assert RuleAdded(path, r) in RuleFindings(path, base, head);
    }
    if n :| n in Props(base).Keys && n !in Props(head).Keys {
      assert FieldRemoved(path, n) in RemovedFindings(path, base, head);
    }
  }

  lemma NoCompositionFinding(path: string, base: Schema, head: Schema)
    ensures CompositionFindings(path, base, head) == {} <==> forall kw <- COMPOSITION :: kw in head ==> kw in base
  {
    if kw :| kw in COMPOSITION && kw in head && kw !in base {
      assert CompositionAdded(path, kw) in CompositionFindings(path, base, head);
    }
  }

  lemma EmptyUnion(a: set<Breaking>, b: set<Breaking>, c: set<Breaking>, d: set<Breaking>, e: set<Breaking>)
    ensures a + b + c + d + e == {} <==> a == {} && b == {} && c == {} && d == {} && e == {}
  {
    var all := a + b + c + d + e;
    assert a <= all && b <= all && c <= all && d <= all && e <= all;
  }

  lemma NoObjectFinding(path: string, base: Schema, head: Schema)
    ensures ObjectFindings(path, base, head) == {} <==> CleanObject(base, head)
  {
    NoSetFinding(path, base, head);
    NoCompositionFinding(path, base, head);
    EmptyUnion(RequiredFindings(path, base, head), RuleFindings(path, base, head),
               CompositionFindings(path, base, head), RemovedFindings(path, base, head),
               ClosedFindings(path, base, head));
  }

  lemma NoBoundFinding(path: string, base: Schema, head: Schema)
    ensures BoundFindings(path, base, head) == {} <==> CleanBounds(base, head)
  {
    var lows := LowerFindings(path, "minimum", base, head) + LowerFindings(path, "minLength", base, head);
    EmptyUnion(LowerFindings(path, "minimum", base, head), LowerFindings(path, "minLength", base, head), {}, {}, {});
    EmptyUnion(lows, LowerFindings(path, "minItems", base, head), UpperFindings(path, "maximum", base, head),
               UpperFindings(path, "maxLength", base, head), UpperFindings(path, "maxItems", base, head));
    assert lows == lows + {} + {} + {};
  }

  lemma NoValueFinding(fmt: Json -> string, path: string, base: Schema, head: Schema)
    ensures ValueFindings(fmt, path, base, head) == {} <==> CleanValue(fmt, base, head)
  {
    NoBoundFinding(path, base, head);
    EmptyUnion(TypeFindings(path, base, head), EnumFindings(fmt, path, base, head),
               PatternFindings(path, base, head), BoundFindings(path, base, head),
               NullableFindings(path, base, head));
  }

  /** The walk reports nothing exactly when every pair it visits is clean. */
  lemma {:induction false} NoFindingMeansClean(fmt: Json -> string, path: string, base: Schema, head: Schema)
    ensures Findings(fmt, path, base, head) == {} <==> Clean(fmt, base, head)
    decreases Obj(head), 1
  {
    NoValueFinding(fmt, path, base, head);
    NoObjectFinding(path, base, head);
    NoPropFinding(fmt, path, base, head);
    NoRestFinding(fmt, path, base, head);
    NoItemFinding(fmt, path, base, head);
    EmptyUnion(ValueFindings(fmt, path, base, head), ObjectFindings(path, base, head),
               PropFindings(fmt, path, base, head), RestFindings(fmt, path, base, head),
               ItemFindings(fmt, path, base, head));
  }

  lemma {:induction false} NoPropFinding(fmt: Json -> string, path: string, base: Schema, head: Schema)
    ensures PropFindings(fmt, path, base, head) == {} <==> CleanProps(fmt, base, head)
    decreases Obj(head), 0
  {
    forall name | name in Props(base).Keys * Props(head).Keys
      ensures Findings(fmt, path + "." + name, Props(base)[name], Props(head)[name])
          <= PropFindings(fmt, path, base, head)
      ensures Findings(fmt, path + "." + name, Props(base)[name], Props(head)[name]) == {}
              <==> Clean(fmt, Props(base)[name], Props(head)[name])
    {
      NoFindingMeansClean(fmt, path + "." + name, Props(base)[name], Props(head)[name]);
    }
  }

  lemma {:induction false} NoRestFinding(fmt: Json -> string, path: string, base: Schema, head: Schema)
    ensures RestFindings(fmt, path, base, head) == {} <==> CleanRest(fmt, base, head)
    decreases Obj(head), 0
  {
    if Child(head, AP).Some? {
      NoFindingMeansClean(fmt, path + "{}", OrEmpty(Child(base, AP)), Child(head, AP).value);
    }
  }

  lemma {:induction false} NoItemFinding(fmt: Json -> string, path: string, base: Schema, head: Schema)
    ensures ItemFindings(fmt, path, base, head) == {} <==> CleanItems(fmt, base, head)
    decreases Obj(head), 0
  {
    if Child(head, "items").Some? {
      NoFindingMeansClean(fmt, path + "[]", OrEmpty(Child(base, "items")), Child(head, "items").value);
    }
  }

  // ---------------------------------------------------------------- clean diffs compose

  lemma {:induction false} CleanReflexive(fmt: Json -> string, s: Schema)
    ensures Clean(fmt, s, s)
    decreases Obj(s)
  {
    forall name | name in Props(s).Keys ensures Clean(fmt, Props(s)[name], Props(s)[name]) {
      CleanReflexive(fmt, Props(s)[name]);
    }
    if Child(s, AP).Some? {
      CleanReflexive(fmt, Child(s, AP).value);
    }
    if Child(s, "items").Some? {
      CleanReflexive(fmt, Child(s, "items").value);
    }
  }

  /** Wherever both ends constrain children under `key`, the middle does too, here and below. */
  predicate KeepsChild(key: string, a: Schema, b: Schema, c: Schema)
    decreases Obj(c), 0
  {
    && (Child(a, key).Some? && Child(c, key).Some? ==> Child(b, key).Some?)
    && (Child(c, key).Some? && Child(b, key).Some? ==>
          Keeps(OrEmpty(Child(a, key)), Child(b, key).value, Child(c, key).value))
  }

  predicate Keeps(a: Schema, b: Schema, c: Schema)
    decreases Obj(c), 1
  {
    && (forall name <- Props(a).Keys * Props(b).Keys * Props(c).Keys ::
          Keeps(Props(a)[name], Props(b)[name], Props(c)[name]))
    && (!Closed(a) ==> KeepsChild(AP, a, b, c))
    && KeepsChild("items", a, b, c)
  }

  lemma NodeComposes(fmt: Json -> string, a: Schema, b: Schema, c: Schema)
    requires CleanValue(fmt, a, b) && CleanObject(a, b) && CleanValue(fmt, b, c) && CleanObject(b, c)
    ensures CleanValue(fmt, a, c) && CleanObject(a, c)
  {
  }

  /** Two releases that each break nothing break nothing together. */
  lemma {:induction false} CleanComposes(fmt: Json -> string, a: Schema, b: Schema, c: Schema)
    requires Clean(fmt, a, b) && Clean(fmt, b, c) && Keeps(a, b, c)
    ensures Clean(fmt, a, c)
    decreases Obj(c), 1
  {
    NodeComposes(fmt, a, b, c);
    forall name | name in Props(a).Keys * Props(c).Keys ensures Clean(fmt, Props(a)[name], Props(c)[name]) {
      CleanComposes(fmt, Props(a)[name], Props(b)[name], Props(c)[name]);
    }
    ChildrenCompose(fmt, a, b, c);
  }

  lemma {:induction false} ChildrenCompose(fmt: Json -> string, a: Schema, b: Schema, c: Schema)
    requires Clean(fmt, a, b) && Clean(fmt, b, c) && Keeps(a, b, c)
    ensures CleanRest(fmt, a, c) && CleanItems(fmt, a, c)
    decreases Obj(c), 0
  {
    if !Closed(a) && Child(c, AP).Some? && Child(b, AP).Some? {
      CleanComposes(fmt, OrEmpty(Child(a, AP)), Child(b, AP).value, Child(c, AP).value);
    }
    if Child(c, "items").Some? && Child(b, "items").Some? {
      CleanComposes(fmt, OrEmpty(Child(a, "items")), Child(b, "items").value, Child(c, "items").value);
    }
  }

  /** A schema that says nothing but what its array elements look like. */
  function ItemsOnly(items: Schema): Schema {
    map["items" := Obj(items)]
  }

  lemma ItemsOnlyIsPlain(items: Schema)
    ensures var s := ItemsOnly(items);
            && Types(s) == {} && EnumValues(s).None? && StringOf(s, "pattern") == "" && !BoolOf(s, "nullable")
            && CleanBounds(map[], s) && Required(s) == {} && Rules(s) == {} && Props(s) == map[] && !Closed(s)
            && Child(s, AP).None? && Child(s, "items") == Some(items)
            && (forall kw <- COMPOSITION :: kw !in s)
  {
  }

  /** Without the side condition a middle version that drops the item schema hides a break. */
  lemma CompositionNeedsTheMiddle(fmt: Json -> string) returns (a: Schema, b: Schema, c: Schema)
    ensures Clean(fmt, a, b) && Clean(fmt, b, c) && !Clean(fmt, a, c)
  {
    var nullable: Schema := map["nullable" := Bool(true)];
    a, b, c := ItemsOnly(nullable), map[], ItemsOnly(map[]);
    ItemsOnlyIsPlain(nullable);
    ItemsOnlyIsPlain(map[]);
    CleanReflexive(fmt, map[]);
    assert Clean(fmt, a, b) by { assert Child(b, "items").None? && Child(b, AP).None?; }
    assert Clean(fmt, b, c) by { assert OrEmpty(Child(b, "items")) == map[]; }
    assert !CleanItems(fmt, a, c) by { assert !CleanValue(fmt, nullable, map[]); }
  }
}
