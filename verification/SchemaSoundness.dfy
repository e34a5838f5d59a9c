/** A clean diff rejects nothing the base schema accepted. */
module SchemaSoundness {
  import opened Basics
  import opened SchemaDiff
  import opened SchemaMeaning

  // ---------------------------------------------------------------- type words and branches

  function SampleOf(v: Json): Json {
    match v
    case Obj(_) => Obj(map[])
    case Arr(_) => Arr([])
    case Str(_) => Str("")
    case Bool(_) => Bool(true)
    case Null => Null
    case Num(n) => if n.Floor as real == n then Num(0.0) else Num(0.5)
  }

  lemma SampleAgrees(v: Json, t: string)
    ensures SampleOf(v) in SAMPLES && (HasType(SampleOf(v), t) <==> HasType(v, t))
  {
    assert SAMPLES[0] == Obj(map[]) && SAMPLES[1] == Arr([]) && SAMPLES[2] == Str("") && SAMPLES[3] == Bool(true);
    assert SAMPLES[4] == Null && SAMPLES[5] == Num(0.0) && SAMPLES[6] == Num(0.5);
  }

  /** Coverage at the samples is coverage everywhere. */
  lemma CoveredEverywhere(base: Schema, head: Schema, v: Json)
    requires Covered(base, head)
    ensures CoveredAt(base, head, v)
  {
    forall t ensures SampleOf(v) in SAMPLES && (HasType(SampleOf(v), t) <==> HasType(v, t)) {
      SampleAgrees(v, t);
    }
    SampleAgrees(v, "");
    assert CoveredAt(base, head, SampleOf(v));
  }

  lemma CoverageKeepsTypes(m: Meaning, base: Schema, head: Schema, v: Json)
    requires BranchesMeanTypes(m) && Covered(base, head) && TypeOk(m, base, v)
    ensures TypeOk(m, head, v)
  {
    CoveredEverywhere(base, head, v);
    if AnyOf(base).Some? {
      var b :| b in AnyOf(base).value && BranchOk(m, b, v);
    }
  }

  /** The meaning in which no branch takes anything but one given branch and mere types. */
  ghost function Strict(b: Option<Json>): Meaning {
    Meaning((_, _) => true, (_, _) => true, (branch, _) => Pure(branch) || Some(branch) == b, (_, _, _) => true,
        _ => "")
  }

  lemma GapBreaksTypes(base: Schema, head: Schema, v: Json) returns (m: Meaning)
    requires !CoveredAt(base, head, v)
    ensures BranchesMeanTypes(m) && TypeOk(m, base, v) && !TypeOk(m, head, v)
  {
    if AnyOf(base).None? {
      m := Strict(None);
    } else {
      var b :| b in AnyOf(base).value && BranchAllows(b, v)
        && !(WordsAllow(NodeTypes(head), v) && (AnyOf(head).Some? ==> b in AnyOf(head).value || PureAllows(head, v)));
      m := Strict(Some(b));
      assert BranchOk(m, b, v);
    }
  }

  /** Coverage is exactly what it takes: without it some value, under some reading of the branches,
      is lost. */
  lemma CoverageIsExact(base: Schema, head: Schema)
    ensures Covered(base, head)
       <==> forall m: Meaning, v: Json | BranchesMeanTypes(m) && TypeOk(m, base, v) :: TypeOk(m, head, v)
  {
    if Covered(base, head) {
      forall m: Meaning, v: Json | BranchesMeanTypes(m) && TypeOk(m, base, v) ensures TypeOk(m, head, v) {
        CoverageKeepsTypes(m, base, head, v);
      }
    } else {
      var v :| v in SAMPLES && !CoveredAt(base, head, v);
      var m := GapBreaksTypes(base, head, v);
    }
  }

  /** The diff's own comparison gives coverage on the lossless pairs. */
  lemma LosslessIsCovered(base: Schema, head: Schema)
    requires Lossless(base, head) && CleanTypes(base, head) && (BoolOf(base, "nullable") ==> BoolOf(head, "nullable"))
    ensures Covered(base, head)
  {
    if AnyOf(head).Some? {
      BranchesHaveWords(head);
    }
    forall v | v in SAMPLES ensures CoveredAt(base, head, v) {
      if Types(head) != {} && WordsAllow(NodeTypes(base), v) {
        if AnyOf(base).None? {
          WordsCover(base, head, v, TypeWords(base));
        } else {
          forall b | b in AnyOf(base).value && BranchAllows(b, v)
            ensures WordsAllow(NodeTypes(head), v) && (AnyOf(head).Some? ==> PureAllows(head, v))
          {
            assert BranchType(b) <= AnyOfWords(base);
            WordsCover(base, head, v, if TypeWords(base) != {} then TypeWords(base) else BranchType(b));
          }
        }
      }
    }
  }

  /** A value that base admits by one of some words, or as a null beside them, is covered. */
  lemma WordsCover(base: Schema, head: Schema, v: Json, words: set<string>)
    requires Lossless(base, head) && words != {} && words <= Types(head)
    requires BoolOf(base, "nullable") ==> BoolOf(head, "nullable")
    requires WordsAllow(words, v) || (v.Null? && words == TypeWords(base) && BoolOf(base, "nullable"))
    ensures WordsAllow(NodeTypes(head), v) && (AnyOf(head).Some? ==> PureAllows(head, v))
  {
    if WordsAllow(words, v) {
      var t :| t in words && HasType(v, t);
      WordCovers(head, v, t);
    } else {
      assert "null" in NodeTypes(base) && HasType(v, "null");
      assert AnyOf(head).None? ==> "null" in NodeTypes(head);
    }
  }

  /** A word of head settles whichever of its two clauses it has. */
  lemma WordCovers(head: Schema, v: Json, t: string)
    requires t in Types(head) && HasType(v, t)
    requires AnyOf(head).Some? ==> TypeWords(head) == {} && forall b <- AnyOf(head).value :: Pure(b)
    ensures WordsAllow(NodeTypes(head), v) && (AnyOf(head).Some? ==> PureAllows(head, v))
  {
    if AnyOf(head).Some? {
      var b :| b in AnyOf(head).value && t in BranchType(b);
      assert Pure(b) && t in BranchTypes(b);
    } else {
      assert t in NodeTypes(head);
    }
  }

  lemma BranchesHaveWords(head: Schema)
    requires AnyOf(head).Some? && AnyOf(head).value != [] && forall b <- AnyOf(head).value :: Pure(b)
    ensures Types(head) != {}
  {
    var b := AnyOf(head).value[0];
    assert b in AnyOf(head).value;
    var t :| t in BranchType(b);
    assert t in AnyOfWords(head);
  }

  lemma TypeStaysOk(m: Meaning, base: Schema, head: Schema, v: Json)
    requires BranchesMeanTypes(m)
    requires CleanValue(m.fmt, base, head) && TypesComparable(base, head)
    requires TypeOk(m, base, v)
    ensures TypeOk(m, head, v)
  {
    if Lossless(base, head) {
      LosslessIsCovered(base, head);
    }
    CoverageKeepsTypes(m, base, head, v);
  }

  // ---------------------------------------------------------------- one node, then the walk

  lemma EnumStaysOk(m: Meaning, base: Schema, head: Schema, v: Json)
    requires CleanValue(m.fmt, base, head) && EnumsComparable(m, base, head) && EnumOk(base, v)
    ensures EnumOk(head, v)
  {
    if EnumValues(head).Some? {
      assert m.fmt(v) in EnumWords(m.fmt, head);
      var y :| y in EnumValues(head).value && m.fmt(y) == m.fmt(v);
    }
  }

  /** On pairs whose enums the diff passes, that condition is exactly what it takes. */
  lemma EnumConditionIsExact(m: Meaning, base: Schema, head: Schema)
    requires CleanValue(m.fmt, base, head)
    ensures EnumsComparable(m, base, head) <==> forall v: Json | EnumOk(base, v) :: EnumOk(head, v)
  {
    if EnumsComparable(m, base, head) {
      forall v: Json | EnumOk(base, v) ensures EnumOk(head, v) {
        EnumStaysOk(m, base, head, v);
      }
    } else {
      var x, y :| x in EnumValues(base).value && y in EnumValues(head).value && m.fmt(x) == m.fmt(y)
                  && x !in EnumValues(head).value;
      assert EnumOk(base, x) && !EnumOk(head, x);
    }
  }

  lemma NodeStaysOk(m: Meaning, base: Schema, head: Schema, v: Json)
    requires BranchesMeanTypes(m)
    requires CleanValue(m.fmt, base, head) && CleanObject(base, head)
    requires TypesComparable(base, head) && OthersComparable(m, base, head) && EnumsComparable(m, base, head)
    requires NodeOk(m, base, v)
    ensures NodeOk(m, head, v)
  {
    TypeStaysOk(m, base, head, v);
    EnumStaysOk(m, base, head, v);
  }

  /** No schema means no constraint. */
  lemma EmptyAcceptsAll(m: Meaning, v: Json)
    ensures Accepts(m, map[], v)
  {
  }

  /** A clean diff rejects nothing base accepted. */
  lemma {:induction false} CleanIsSound(m: Meaning, base: Schema, head: Schema, v: Json)
    requires BranchesMeanTypes(m)
    requires Clean(m.fmt, base, head) && Comparable(m, base, head) && Avoids(base, head, v)
    requires Accepts(m, base, v)
    ensures Accepts(m, head, v)
    decreases v, 0
  {
    NodeStaysOk(m, base, head, v);
    if v.Obj? {
      forall name | name in v.fields ensures FieldOk(m, head, name, v.fields[name]) {
        FieldIsSound(m, base, head, name, v.fields[name]);
      }
    }
    if v.Arr? && Child(head, "items").Some? {
      forall i | 0 <= i < |v.elems| ensures Accepts(m, Child(head, "items").value, v.elems[i]) {
        if Child(base, "items").None? {
          EmptyAcceptsAll(m, v.elems[i]);
        }
        CleanIsSound(m, OrEmpty(Child(base, "items")), Child(head, "items").value, v.elems[i]);
      }
    }
  }

  lemma {:induction false} FieldIsSound(m: Meaning, base: Schema, head: Schema, name: string, v: Json)
    requires BranchesMeanTypes(m)
    requires Clean(m.fmt, base, head) && Comparable(m, base, head) && AvoidsField(base, head, name, v)
    requires FieldOk(m, base, name, v)
    ensures FieldOk(m, head, name, v)
    decreases v, 1
  {
    if name in Props(base) {
      CleanIsSound(m, Props(base)[name], Props(head)[name], v);
    } else if Child(head, AP).Some? {
      if Child(base, AP).None? {
        EmptyAcceptsAll(m, v);
      }
      CleanIsSound(m, OrEmpty(Child(base, AP)), Child(head, AP).value, v);
    }
  }
}
