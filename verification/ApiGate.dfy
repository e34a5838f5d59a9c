/** The API gate's walk: diffNode as it fills its report. */
module ApiGate {
  import opened Basics
  import opened SchemaDiff

  /** The slice the recursive walk appends to, as a set: its order is settled by a sort at the end,
      and findings that read alike, such as those of a property "a.b" and of "b" under "a", are
      merged. */
  class Report {
    const fmt: Json -> string
    var out: set<Breaking>

    constructor (fmt: Json -> string)
      ensures out == {} && this.fmt == fmt
    {
      this.fmt := fmt;
      out := {};
    }

    method DiffTypes(path: string, base: Schema, head: Schema)
      modifies this
      ensures out == old(out) + TypeFindings(path, base, head)
    {
      var bt, ht := Types(base), Types(head);
      if bt == {} && ht != {} {
        out := out + {TypeAdded(path, ht)};
      } else if bt != {} && ht != {} {
        var removed := bt - ht;
        if removed != {} {
          out := out + {TypeNarrowed(path, removed)};
        }
      }
    }

    method DiffEnum(path: string, base: Schema, head: Schema)
      modifies this
      ensures out == old(out) + EnumFindings(fmt, path, base, head)
    {
      var hasBase, hasHead := EnumValues(base).Some?, EnumValues(head).Some?;
      if !hasBase && hasHead {
        out := out + {EnumAdded(path)};
      } else if hasBase && hasHead {
        var removed := EnumWords(fmt, base) - EnumWords(fmt, head);
        if removed != {} {
          out := out + {EnumRemoved(path, removed)};
        }
      }
    }

    method DiffPattern(path: string, base: Schema, head: Schema)
      modifies this
      ensures out == old(out) + PatternFindings(path, base, head)
    {
      var bp, hp := StringOf(base, "pattern"), StringOf(head, "pattern");
      if hp != "" && hp != bp {
        out := out + {PatternChanged(path, bp, hp)};
      }
    }

    method DiffLowerBound(path: string, key: string, base: Schema, head: Schema)
      modifies this
      ensures out == old(out) + LowerFindings(path, key, base, head)
    {
      var bv, hv := NumberOf(base, key), NumberOf(head, key);
      if hv.None? { return; }
      if bv.None? {
        out := out + {Tightened(path, key, None, hv.value)};
      } else if hv.value > bv.value {
        out := out + {Tightened(path, key, bv, hv.value)};
      }
    }

    method DiffUpperBound(path: string, key: string, base: Schema, head: Schema)
      modifies this
      ensures out == old(out) + UpperFindings(path, key, base, head)
    {
      var bv, hv := NumberOf(base, key), NumberOf(head, key);
      if hv.None? { return; }
      if bv.None? {
        out := out + {Tightened(path, key, None, hv.value)};
      } else if hv.value < bv.value {
        out := out + {Tightened(path, key, bv, hv.value)};
      }
    }

    method DiffBounds(path: string, base: Schema, head: Schema)
      modifies this
      ensures out == old(out) + BoundFindings(path, base, head)
    {
      DiffLowerBound(path, "minimum", base, head);
      DiffLowerBound(path, "minLength", base, head);
      DiffLowerBound(path, "minItems", base, head);
      DiffUpperBound(path, "maximum", base, head);
      DiffUpperBound(path, "maxLength", base, head);
      DiffUpperBound(path, "maxItems", base, head);
    }

    method DiffRequired(path: string, base: Schema, head: Schema)
      modifies this
      ensures out == old(out) + RequiredFindings(path, base, head)
    {
      var todo := Required(head);
      ghost var done: set<string> := {};
      while todo != {}
        invariant done + todo == Required(head) && done !! todo
        invariant out == old(out) + (set name | name in done - Required(base) :: NowRequired(path, name))
        decreases todo
      {
        var name :| name in todo;
        if name !in Required(base) {
          out := out + {NowRequired(path, name)};
        }
        todo, done := todo - {name}, done + {name};
      }
      assert done == Required(head);
    }

    method DiffRules(path: string, base: Schema, head: Schema)
      modifies this
      ensures out == old(out) + RuleFindings(path, base, head)
    {
      var todo := Rules(head) - Rules(base);
      ghost var done: set<string> := {};
      while todo != {}
        invariant done + todo == Rules(head) - Rules(base) && done !! todo
        invariant out == old(out) + (set rule | rule in done :: RuleAdded(path, rule))
        decreases todo
      {
        var rule :| rule in todo;
        out := out + {RuleAdded(path, rule)};
        todo, done := todo - {rule}, done + {rule};
      }
      assert done == Rules(head) - Rules(base);
    }

    method DiffComposition(path: string, base: Schema, head: Schema)
      modifies this
      ensures out == old(out) + CompositionFindings(path, base, head)
    {
      var todo := COMPOSITION;
      ghost var done: set<string> := {};
      while todo != {}
        invariant done + todo == COMPOSITION && done !! todo
        invariant out == old(out) + (set kw | kw in done && kw !in base && kw in head :: CompositionAdded(path, kw))
        decreases todo
      {
        var kw :| kw in todo;
        if kw !in base && kw in head {
          out := out + {CompositionAdded(path, kw)};
        }
        todo, done := todo - {kw}, done + {kw};
      }
      assert done == COMPOSITION;
    }

    /** Properties: recurse into shared ones, report removed ones. */
    method DiffProps(path: string, base: Schema, head: Schema)
      modifies this
      ensures out == old(out) + (RemovedFindings(path, base, head) + PropFindings(fmt, path, base, head))
      decreases Obj(head), 0, 1
    {
      var todo := Props(base).Keys;
      ghost var done: set<string> := {};
      while todo != {}
        invariant done + todo == Props(base).Keys && done !! todo
        invariant out == old(out) + Among(fmt, path, done, base, head)
        decreases todo
      {
        var name :| name in todo;
        DiffProp(path, name, base, head);
        AmongOneMore(fmt, path, done, name, base, head);
        todo, done := todo - {name}, done + {name};
      }
      AmongAll(fmt, path, done, base, head);
    }

    method DiffProp(path: string, name: string, base: Schema, head: Schema)
      requires name in Props(base)
      modifies this
      ensures out == old(out) + PropStep(fmt, path, name, base, head)
      decreases Obj(head), 0, 0
    {
      if name !in Props(head) {
        out := out + {FieldRemoved(path, name)};
      } else {
        DiffNode(path + "." + name, Props(base)[name], Props(head)[name]);
      }
    }

    method DiffValue(path: string, base: Schema, head: Schema)
      modifies this
      ensures out == old(out) + ValueFindings(fmt, path, base, head)
    {
      DiffTypes(path, base, head);
      DiffEnum(path, base, head);
      DiffPattern(path, base, head);
      DiffBounds(path, base, head);
      DiffNullable(path, base, head);
    }

    method DiffNullable(path: string, base: Schema, head: Schema)
      modifies this
      ensures out == old(out) + NullableFindings(path, base, head)
    {
      if BoolOf(base, "nullable") && !BoolOf(head, "nullable") {
        out := out + {NoLongerNullable(path)};
      }
    }

    /** Undeclared fields. */
    method DiffRest(path: string, base: Schema, head: Schema)
      modifies this
      ensures out == old(out) + (ClosedFindings(path, base, head) + RestFindings(fmt, path, base, head))
      decreases Obj(head), 0
    {
      if !Closed(base) && Closed(head) {
        out := out + {UndeclaredRefused(path)};
      } else if !Closed(base) && Child(head, AP).Some? {
        DiffNode(path + "{}", OrEmpty(Child(base, AP)), Child(head, AP).value);
      }
    }

    method DiffItems(path: string, base: Schema, head: Schema)
      modifies this
      ensures out == old(out) + ItemFindings(fmt, path, base, head)
      decreases Obj(head), 0
    {
      if Child(head, "items").Some? {
        DiffNode(path + "[]", OrEmpty(Child(base, "items")), Child(head, "items").value);
      }
    }

    /** diffNode: exactly the findings of the lockstep walk are added. */
    method DiffNode(path: string, base: Schema, head: Schema)
      modifies this
      ensures out == old(out) + Findings(fmt, path, base, head)
      decreases Obj(head), 1
    {
      DiffValue(path, base, head);
      DiffRequired(path, base, head);
      DiffRules(path, base, head);
      DiffComposition(path, base, head);
      DiffProps(path, base, head);
      DiffRest(path, base, head);
      DiffItems(path, base, head);
      Regroup(old(out), ValueFindings(fmt, path, base, head), RequiredFindings(path, base, head),
              RuleFindings(path, base, head), CompositionFindings(path, base, head),
              RemovedFindings(path, base, head), PropFindings(fmt, path, base, head),
              ClosedFindings(path, base, head), RestFindings(fmt, path, base, head),
              ItemFindings(fmt, path, base, head));
    }
  }

  lemma Regroup(out: set<Breaking>, v: set<Breaking>, q: set<Breaking>, r: set<Breaking>, k: set<Breaking>,
                d: set<Breaking>, p: set<Breaking>, o: set<Breaking>, w: set<Breaking>, i: set<Breaking>)
    ensures out + v + q + r + k + (d + p) + (o + w) + i == out + (v + (q + r + k + d + o) + p + w + i)
  {
  }

  /** What one property of base contributes. */
  ghost function PropStep(fmt: Json -> string, path: string, name: string, base: Schema, head: Schema): set<Breaking>
    requires name in Props(base)
  {
    if name in Props(head) then Findings(fmt, path + "." + name, Props(base)[name], Props(head)[name])
    else {FieldRemoved(path, name)}
  }

  ghost function Among(fmt: Json -> string, path: string, names: set<string>, base: Schema, head: Schema)
    : set<Breaking>
  {
    set name, f | name in names && name in Props(base) && f in PropStep(fmt, path, name, base, head) :: f
  }

  lemma AmongOneMore(fmt: Json -> string, path: string, done: set<string>, name: string, base: Schema, head: Schema)
    requires name in Props(base)
    ensures Among(fmt, path, done + {name}, base, head)
            == Among(fmt, path, done, base, head) + PropStep(fmt, path, name, base, head)
  {
  }

  lemma AmongAll(fmt: Json -> string, path: string, names: set<string>, base: Schema, head: Schema)
    requires names == Props(base).Keys
    ensures Among(fmt, path, names, base, head)
        == RemovedFindings(path, base, head) + PropFindings(fmt, path, base, head)
  {
    forall f | f in RemovedFindings(path, base, head) ensures f in Among(fmt, path, names, base, head) {
      assert f in PropStep(fmt, path, f.name, base, head);
    }
    forall f | f in PropFindings(fmt, path, base, head) ensures f in Among(fmt, path, names, base, head) {
      var name :| name in Props(base).Keys * Props(head).Keys
                  && f in Findings(fmt, path + "." + name, Props(base)[name], Props(head)[name]);
      assert f in PropStep(fmt, path, name, base, head);
    }
  }
}
