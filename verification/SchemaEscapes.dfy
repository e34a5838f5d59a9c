/** What the diff does not see: for each clause of the fragment, a change outside it that goes
    unreported and rejects a value. */
module SchemaEscapes {
  import opened SchemaDiff
  import opened SchemaMeaning
  import opened SchemaSoundness

  /** The diff of base and head is clean, yet head rejects a value base accepts. */
  ghost predicate Escapes(m: Meaning, base: Schema, head: Schema, v: Json) {
    Clean(m.fmt, base, head) && Accepts(m, base, v) && !Accepts(m, head, v)
  }

  /** A schema of one keyword the diff does not read says nothing the diff looks at. */
  lemma OneUnreadKeyword(kw: string, payload: Json)
    requires kw !in READ
    ensures var s: Schema := map[kw := payload];
            && (forall key <- READ :: Get(s, key) == Null)
            && Types(s) == {} && Props(s) == map[] && !Closed(s)
  {
  }

  lemma UnreadAccepts(m: Meaning, kw: string, payload: Json, v: Json)
    requires kw !in READ
    ensures Accepts(m, map[kw := payload], v) <==> m.other(kw, payload, v)
  {
    OneUnreadKeyword(kw, payload);
    assert (map[kw := payload]).Keys - READ == {kw};
  }

  /** A composition that changes instead of appearing goes unreported. */
  lemma ChangedCompositionEscapes(m: Meaning, kw: string, was: Json, now: Json, v: Json)
    requires kw in COMPOSITION
    requires m.other(kw, was, v) && !m.other(kw, now, v)
    ensures Escapes(m, map[kw := was], map[kw := now], v)
  {
    OneUnreadKeyword(kw, was);
    OneUnreadKeyword(kw, now);
    UnreadAccepts(m, kw, was, v);
    UnreadAccepts(m, kw, now, v);
  }

  /** So does any constraint in a keyword the diff never reads. */
  lemma UnreadKeywordEscapes(m: Meaning, kw: string, payload: Json, v: Json)
    requires kw !in READ && kw !in COMPOSITION && !m.other(kw, payload, v)
    ensures Escapes(m, map[], map[kw := payload], v)
  {
    OneUnreadKeyword(kw, payload);
    UnreadAccepts(m, kw, payload, v);
    EmptyAcceptsAll(m, v);
  }

  /** Two different enum values that print alike are one value to the diff. */
  lemma PrintedAlikeEscapes(m: Meaning, x: Json, y: Json)
    requires x != y && m.fmt(x) == m.fmt(y)
    ensures Escapes(m, map["enum" := Arr([x])], map["enum" := Arr([y])], x)
  {
    var base: Schema, head: Schema := map["enum" := Arr([x])], map["enum" := Arr([y])];
    assert EnumWords(m.fmt, base) == {m.fmt(x)} && EnumWords(m.fmt, head) == {m.fmt(y)};
    assert base.Keys - READ == {} && !EnumOk(head, x);
  }

  predicate OnlyTypes(s: Schema) {
    s.Keys <= {"type", "anyOf", "nullable"}
  }

  /** The diff has nothing to say about types and null. */
  predicate TypesPass(base: Schema, head: Schema) {
    CleanTypes(base, head) && (BoolOf(base, "nullable") ==> BoolOf(head, "nullable"))
  }

  /** Nothing but types is said. */
  predicate NothingElse(s: Schema) {
    && EnumValues(s).None? && StringOf(s, "pattern") == "" && CleanBounds(map[], s)
    && Required(s) == {} && Rules(s) == {} && Props(s) == map[] && !Closed(s)
    && Child(s, AP).None? && Child(s, "items").None? && s.Keys - READ == {}
    && forall kw <- COMPOSITION :: kw !in s
  }

  lemma NothingElseAccepts(m: Meaning, s: Schema, v: Json)
    requires NothingElse(s)
    ensures Accepts(m, s, v) <==> TypeOk(m, s, v)
  {
  }

  lemma NothingElseIsClean(fmt: Json -> string, base: Schema, head: Schema)
    requires NothingElse(base) && NothingElse(head) && TypesPass(base, head)
    ensures Clean(fmt, base, head)
  {
  }

  /** Between schemas that only speak of types, a lost type is an escape. */
  lemma TypesOnlyEscape(m: Meaning, base: Schema, head: Schema, v: Json)
    requires OnlyTypes(base) && OnlyTypes(head)
    requires TypesPass(base, head) && TypeOk(m, base, v) && !TypeOk(m, head, v)
    ensures Escapes(m, base, head, v)
  {
    NothingElseIsSaid(base);
    NothingElseIsSaid(head);
    NothingElseIsClean(m.fmt, base, head);
    NothingElseAccepts(m, base, v);
    NothingElseAccepts(m, head, v);
  }

  lemma NothingElseIsSaid(s: Schema)
    requires OnlyTypes(s)
    ensures NothingElse(s)
  {
  }

  /** On schemas that only speak of types, a pair the diff passes is covered exactly when nothing
      escapes, under any reading of the branches. */
  lemma UncoveredEscapesExactly(base: Schema, head: Schema)
    requires OnlyTypes(base) && OnlyTypes(head) && TypesPass(base, head)
    ensures Covered(base, head) <==> forall m: Meaning, v: Json | BranchesMeanTypes(m) :: !Escapes(m, base, head, v)
  {
    NothingElseIsSaid(base);
    NothingElseIsSaid(head);
    if Covered(base, head) {
      forall m: Meaning, v: Json | BranchesMeanTypes(m) ensures !Escapes(m, base, head, v) {
        NothingElseAccepts(m, base, v);
        NothingElseAccepts(m, head, v);
        if TypeOk(m, base, v) {
          CoverageKeepsTypes(m, base, head, v);
        }
      }
    } else {
      var v :| v in SAMPLES && !CoveredAt(base, head, v);
      var m := GapBreaksTypes(base, head, v);
      TypesOnlyEscape(m, base, head, v);
    }
  }

  /** What a branch of anyOf asks for beyond its type is not compared. */
  lemma BranchContentsEscape(m: Meaning, was: Json, now: Json, v: Json)
    requires BranchType(was) == BranchType(now)
    requires BranchOk(m, was, v) && !m.branch(now, v)
    ensures Escapes(m, map["anyOf" := Arr([was])], map["anyOf" := Arr([now])], v)
  {
    var base: Schema, head: Schema := map["anyOf" := Arr([was])], map["anyOf" := Arr([now])];
    assert was in [was] && now in [now];
    assert AnyOfWords(base) == BranchType(was) && AnyOfWords(head) == BranchType(now);
    TypesOnlyEscape(m, base, head, v);
  }

  /** An anyOf that appears with no type in any branch is not reported. */
  lemma NewUntypedAnyOfEscapes(m: Meaning, branches: seq<Json>, v: Json)
    requires forall b <- branches :: BranchType(b) == {} && !m.branch(b, v)
    ensures Escapes(m, map[], map["anyOf" := Arr(branches)], v)
  {
    TypesOnlyEscape(m, map[], map["anyOf" := Arr(branches)], v);
  }

  /** An anyOf added beside an unchanged type, with no new type word. */
  lemma AnyOfBesideTypeEscapes(m: Meaning, t: string, branch: Json, v: Json)
    requires t != "" && HasType(v, t) && BranchType(branch) <= {t} && !m.branch(branch, v)
    ensures Escapes(m, map["type" := Str(t)], map["type" := Str(t), "anyOf" := Arr([branch])], v)
  {
    var base: Schema, head: Schema := map["type" := Str(t)], map["type" := Str(t), "anyOf" := Arr([branch])];
    assert branch in [branch];
    TypesOnlyEscape(m, base, head, v);
  }

  /** A branch without a type, dropped in favour of the types of the others. */
  lemma UntypedBranchDroppedEscapes(m: Meaning, t: string, open: Json, typed: Json, v: Json)
    requires t != "" && BranchType(open) == {} && m.branch(open, v) && BranchType(typed) == {t} && !HasType(v, t)
    ensures Escapes(m, map["anyOf" := Arr([open, typed])], map["type" := Str(t)], v)
  {
    var base: Schema, head: Schema := map["anyOf" := Arr([open, typed])], map["type" := Str(t)];
    assert open in [open, typed] && typed in [open, typed];
    assert t in AnyOfWords(base);
    TypesOnlyEscape(m, base, head, v);
  }

  /** A nullable type moved into an anyOf: `nullable` without `type` beside it adds nothing. */
  lemma NullableMovedEscapes(m: Meaning, t: string)
    requires t != "" && t != "null"
    ensures Escapes(m, map["type" := Str(t), "nullable" := Bool(true)],
                    map["anyOf" := Arr([Obj(map["type" := Str(t)])]), "nullable" := Bool(true)], Null)
  {
    var branch := Obj(map["type" := Str(t)]);
    var base: Schema := map["type" := Str(t), "nullable" := Bool(true)];
    var head: Schema := map["anyOf" := Arr([branch]), "nullable" := Bool(true)];
    assert branch in [branch] && BranchTypes(branch) == {t};
    assert t in AnyOfWords(head) && "null" in NodeTypes(base);
    TypesOnlyEscape(m, base, head, Null);
  }

  /** A field that head starts to declare where base let it through unchecked. */
  lemma NewPropertyEscapes(m: Meaning, name: string, declared: Schema, v: Json)
    requires !Accepts(m, declared, v)
    ensures Escapes(m, map[], map["properties" := Obj(map[name := Obj(declared)])], Obj(map[name := v]))
  {
    var head: Schema := map["properties" := Obj(map[name := Obj(declared)])];
    assert Props(head) == map[name := declared];
    EmptyAcceptsAll(m, Obj(map[name := v]));
    assert !FieldOk(m, head, name, Obj(map[name := v]).fields[name]);
  }
}
