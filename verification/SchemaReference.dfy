/** Which values a schema accepts, read off the raw JSON clause by clause, with none of the accessors
    the diff goes through: the reference the diff's own reading is proved against. */
module SchemaReference {
  import opened SchemaDiff
  import opened SchemaMeaning

  type Raw = map<string, Json>

  predicate IsOfType(v: Json, t: string) {
    || (t == "object" && v.Obj?) || (t == "array" && v.Arr?) || (t == "string" && v.Str?)
    || (t == "boolean" && v.Bool?) || (t == "null" && v.Null?) || (t == "number" && v.Num?)
    || (t == "integer" && v.Num? && v.n.Floor as real == v.n)
  }

  predicate NullAllowed(s: Raw, v: Json) {
    v.Null? && "nullable" in s && s["nullable"] == Bool(true)
  }

  /** `type`, one word or a list of them. */
  predicate TypeClause(s: Raw, v: Json) {
    "type" in s ==>
      && (s["type"].Str? && s["type"].s != "" ==> IsOfType(v, s["type"].s) || NullAllowed(s, v))
      && (s["type"].Arr? && (exists w <- s["type"].elems :: w.Str?) ==>
            (exists w <- s["type"].elems :: w.Str? && IsOfType(v, w.s)) || NullAllowed(s, v))
  }

  /** `anyOf`: a branch whose type fits and whose other contents are met. */
  predicate BranchClause(m: Meaning, s: Raw, v: Json) {
    "anyOf" in s && s["anyOf"].Arr? ==> exists b <- s["anyOf"].elems :: BranchFits(b, v) && m.branch(b, v)
  }

  predicate BranchFits(b: Json, v: Json) {
    b.Obj? && "type" in b.fields && b.fields["type"].Str? && b.fields["type"].s != "" ==>
      IsOfType(v, b.fields["type"].s) || NullAllowed(b.fields, v)
  }

  predicate EnumClause(s: Raw, v: Json) {
    "enum" in s && s["enum"].Arr? ==> v in s["enum"].elems
  }

  predicate NoLess(s: Raw, key: string, n: real) {
    key in s && s[key].Num? ==> s[key].n <= n
  }

  predicate NoMore(s: Raw, key: string, n: real) {
    key in s && s[key].Num? ==> n <= s[key].n
  }

  predicate BoundsClause(m: Meaning, s: Raw, v: Json) {
    && (v.Num? ==> NoLess(s, "minimum", v.n) && NoMore(s, "maximum", v.n))
    && (v.Str? ==> NoLess(s, "minLength", |v.s| as real) && NoMore(s, "maxLength", |v.s| as real))
    && (v.Arr? ==> NoLess(s, "minItems", |v.elems| as real) && NoMore(s, "maxItems", |v.elems| as real))
    && (v.Str? && "pattern" in s && s["pattern"].Str? && s["pattern"].s != "" ==> m.matches(s["pattern"].s, v.s))
  }

  ghost predicate RequiredClause(s: Raw, v: Json) {
    v.Obj? && "required" in s && s["required"].Arr? ==>
      forall name: string :: Str(name) in s["required"].elems ==> name in v.fields
  }

  predicate RulesClause(m: Meaning, s: Raw, v: Json) {
    "x-kubernetes-validations" in s && s["x-kubernetes-validations"].Arr? ==>
      forall e <- s["x-kubernetes-validations"].elems ::
        e.Obj? && "rule" in e.fields && e.fields["rule"].Str? && e.fields["rule"].s != "" ==>
            m.rule(e.fields["rule"].s, v)
  }

  /** Every keyword without a clause here. */
  predicate OtherClause(m: Meaning, s: Raw, v: Json) {
    forall kw <- s ::
      || kw == "type" || kw == "anyOf" || kw == "nullable" || kw == "enum" || kw == "pattern"
      || kw == "minimum" || kw == "maximum" || kw == "minLength" || kw == "maxLength" || kw == "minItems"
      || kw == "maxItems" || kw == "required" || kw == "x-kubernetes-validations" || kw == "properties"
      || kw == "additionalProperties" || kw == "items" || m.other(kw, s[kw], v)
  }

  ghost predicate NodeClauses(m: Meaning, s: Raw, v: Json) {
    && TypeClause(s, v) && BranchClause(m, s, v) && EnumClause(s, v) && BoundsClause(m, s, v)
    && RequiredClause(s, v) && RulesClause(m, s, v) && OtherClause(m, s, v)
  }

  predicate Declares(s: Raw, name: string) {
    "properties" in s && s["properties"].Obj? && name in s["properties"].fields && s["properties"].fields[name].Obj?
  }

  /** A declared field meets its schema; an undeclared one what additionalProperties asks. */
  ghost predicate FieldClause(m: Meaning, s: Raw, name: string, v: Json)
    decreases v, 1
  {
    if Declares(s, name) then Conforms(m, s["properties"].fields[name].fields, v)
    else "additionalProperties" in s ==>
      && s["additionalProperties"] != Bool(false)
      && (s["additionalProperties"].Obj? ==> Conforms(m, s["additionalProperties"].fields, v))
  }

  ghost predicate Conforms(m: Meaning, s: Raw, v: Json)
    decreases v, 0
  {
    && NodeClauses(m, s, v)
    && (v.Obj? ==> forall name <- v.fields :: FieldClause(m, s, name, v.fields[name]))
    && (v.Arr? && "items" in s && s["items"].Obj? ==>
          forall i | 0 <= i < |v.elems| :: Conforms(m, s["items"].fields, v.elems[i]))
  }

  // ---------------------------------------------------------------- the two readings agree

  lemma TypesAgree(v: Json, t: string)
    ensures IsOfType(v, t) <==> HasType(v, t)
  {
  }

  lemma TypeClauseAgrees(s: Schema, v: Json)
    ensures TypeClause(s, v) <==> WordsAllow(NodeTypes(s), v)
  {
    forall t ensures IsOfType(v, t) <==> HasType(v, t) { TypesAgree(v, t); }
    var words := TypeWords(s);
    assert WordsAllow(NodeTypes(s), v) <==> WordsAllow(words, v) || NullAllowed(s, v) by {
      if words != {} && BoolOf(s, "nullable") {
        assert "null" in NodeTypes(s);
      }
    }
    match Get(s, "type") {
      case Arr(ts) =>
        if w :| w in ts && w.Str? {
          assert w.s in words;
        }
        forall w | w in ts && w.Str? ensures w.s in words { }
        forall t | t in words ensures exists w <- ts :: w.Str? && w.s == t { }
      case _ =>
    }
  }

  lemma BranchAgrees(b: Json, v: Json)
    ensures BranchFits(b, v) <==> BranchAllows(b, v)
  {
    forall t ensures IsOfType(v, t) <==> HasType(v, t) { TypesAgree(v, t); }
    if b.Obj? && BranchType(b) != {} && BoolOf(b.fields, "nullable") {
      assert "null" in BranchTypes(b);
    }
  }

  lemma TypeOkAgrees(m: Meaning, s: Schema, v: Json)
    ensures TypeClause(s, v) && BranchClause(m, s, v) <==> TypeOk(m, s, v)
  {
    TypeClauseAgrees(s, v);
    forall b ensures BranchFits(b, v) <==> BranchAllows(b, v) { BranchAgrees(b, v); }
  }

  lemma RequiredAgrees(s: Schema, v: Json)
    ensures RequiredClause(s, v) <==> RequiredOk(s, v)
  {
    forall name: string
      ensures name in Required(s) <==> Get(s, "required").Arr? && Str(name) in Get(s, "required").elems
    {
    }
  }

  lemma RulesAgree(m: Meaning, s: Schema, v: Json)
    ensures RulesClause(m, s, v) <==> RulesOk(m, s, v)
  {
    if Get(s, "x-kubernetes-validations").Arr? {
      var entries := Get(s, "x-kubernetes-validations").elems;
      forall e | e in entries && e.Obj? && "rule" in e.fields && e.fields["rule"].Str? && e.fields["rule"].s != ""
        ensures e.fields["rule"].s in Rules(s)
      {
        assert e.fields["rule"].s in RuleOf(e);
      }
    }
  }

  lemma NodesAgree(m: Meaning, s: Schema, v: Json)
    ensures NodeClauses(m, s, v) <==> NodeOk(m, s, v)
  {
    TypeOkAgrees(m, s, v);
    RequiredAgrees(s, v);
    RulesAgree(m, s, v);
    OthersAgree(m, s, v);
    BoundsAgree(m, s, v);
  }

  lemma OthersAgree(m: Meaning, s: Schema, v: Json)
    ensures OtherClause(m, s, v) <==> OthersOk(m, s, v)
  {
  }

  lemma BoundsAgree(m: Meaning, s: Schema, v: Json)
    ensures BoundsClause(m, s, v) <==> BoundsOk(m, s, v)
  {
  }

  /** The meaning behind the diff is the reference, on every schema and value. */
  lemma {:induction false} AcceptsIsConforming(m: Meaning, s: Schema, v: Json)
    ensures Accepts(m, s, v) <==> Conforms(m, s, v)
    decreases v, 0
  {
    NodesAgree(m, s, v);
    if v.Obj? {
      forall name | name in v.fields
        ensures FieldOk(m, s, name, v.fields[name]) <==> FieldClause(m, s, name, v.fields[name])
      {
        FieldsAgree(m, s, name, v.fields[name]);
      }
    }
    if v.Arr? && Child(s, "items").Some? {
      forall i | 0 <= i < |v.elems|
        ensures Accepts(m, Child(s, "items").value, v.elems[i]) <==> Conforms(m, Child(s, "items").value, v.elems[i])
      {
        AcceptsIsConforming(m, Child(s, "items").value, v.elems[i]);
      }
    }
  }

  lemma {:induction false} FieldsAgree(m: Meaning, s: Schema, name: string, v: Json)
    ensures FieldOk(m, s, name, v) <==> FieldClause(m, s, name, v)
    decreases v, 1
  {
    assert name in Props(s) <==> Declares(s, name);
    if name in Props(s) {
      AcceptsIsConforming(m, Props(s)[name], v);
    } else if Child(s, AP).Some? {
      AcceptsIsConforming(m, Child(s, AP).value, v);
    }
  }
}
