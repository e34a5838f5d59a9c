/** Classify: the gate over two snapshots of the served API. */
module Classify {
  import opened Basics
  import opened Ordering
  import opened SchemaDiff
  import opened SchemaProofs
  import opened SchemaMeaning
  import opened SchemaReference
  import opened SchemaSoundness
  import opened ApiGate
  import opened Sorting

  datatype Key = Key(group: string, plural: string)

  /** A served version may carry no schema at all. */
  datatype Resource = Resource(group: string, plural: string, versions: map<string, Option<Schema>>)

  type Snapshot = map<Key, Resource>

  datatype VersionBreak =
    | VersionRemoved
    | Spec(what: Breaking)
    | NameUnenforceable
    | Name(what: Breaking)

  datatype Finding = BreakingChange(key: Key, version: string, how: VersionBreak)

  /** How enum values print, and which name declarations the API server can enforce. */
  datatype Gate = Gate(fmt: Json -> string, parses: Json -> bool)

  const NAME_EXTENSION := "x-cozystack-name"

  function KeyOf(r: Resource): Key {
    Key(r.group, r.plural)
  }

  predicate WellKeyed(s: Snapshot) {
    forall k <- s :: KeyOf(s[k]) == k
  }

  function Groups(s: Snapshot): set<string> {
    set k | k in s :: k.group
  }

  // ---------------------------------------------------------------- one resource

  /** The constraints declared on metadata.name, without their type. */
  function NameDeclaration(s: Option<Schema>): Option<Schema> {
    if s.Some? && Get(s.value, NAME_EXTENSION).Obj? then Some(Get(s.value, NAME_EXTENSION).fields - {"type"}) else None
  }

  function SchemaFindings(g: Gate, path: string, base: Option<Schema>, head: Option<Schema>): set<Breaking> {
    if head.None? then {} else Findings(g.fmt, path, OrEmpty(base), head.value)
  }

  function NameFindings(g: Gate, base: Option<Schema>, head: Option<Schema>): set<VersionBreak> {
    if head.None? || NAME_EXTENSION !in head.value
       || Get(OrEmpty(base), NAME_EXTENSION) == head.value[NAME_EXTENSION] then {}
    else if !g.parses(head.value[NAME_EXTENSION]) then {NameUnenforceable}
    else InName(SchemaFindings(g, "metadata.name", NameDeclaration(base), NameDeclaration(head)))
  }

  function InSpec(found: set<Breaking>): set<VersionBreak> {
    set b | b in found :: Spec(b)
  }

  function InName(found: set<Breaking>): set<VersionBreak> {
    set b | b in found :: Name(b)
  }

  function VersionFindings(g: Gate, v: string, base: Resource, head: Resource): set<VersionBreak>
    requires v in base.versions
  {
    if v !in head.versions then {VersionRemoved}
    else InSpec(SchemaFindings(g, "spec", base.versions[v], head.versions[v]))
         + NameFindings(g, base.versions[v], head.versions[v])
  }

  function ResourceFindings(g: Gate, base: Resource, head: Resource): set<(string, VersionBreak)> {
    set v, b | v in base.versions && b in VersionFindings(g, v, base, head) :: (v, b)
  }

  method DiffSchema(g: Gate, path: string, base: Option<Schema>, head: Option<Schema>) returns (out: set<Breaking>)
    ensures out == SchemaFindings(g, path, base, head)
  {
    if head.None? { return {}; }
    var report := new Report(g.fmt);
    report.DiffNode(path, OrEmpty(base), head.value);
    out := report.out;
  }

  /** diffResource: a removed served version, or a breaking change within a shared one. */
  method DiffResource(g: Gate, base: Resource, head: Resource) returns (out: set<(string, VersionBreak)>)
    ensures out == ResourceFindings(g, base, head)
  {
    out := {};
    var todo := base.versions.Keys;
    ghost var done: set<string> := {};
    while todo != {}
      invariant done + todo == base.versions.Keys && done !! todo
      invariant out == set v, b | v in base.versions && v in done && b in VersionFindings(g, v, base, head) :: (v, b)
      decreases todo
    {
      var v :| v in todo;
      var here := DiffVersion(g, v, base, head);
      out := out + set b | b in here :: (v, b);
      todo, done := todo - {v}, done + {v};
    }
    assert done == base.versions.Keys;
  }

  method DiffVersion(g: Gate, v: string, base: Resource, head: Resource) returns (out: set<VersionBreak>)
    requires v in base.versions
    ensures out == VersionFindings(g, v, base, head)
  {
    if v !in head.versions { return {VersionRemoved}; }
    var changes := DiffSchema(g, "spec", base.versions[v], head.versions[v]);
    out := InSpec(changes) + NameFindings(g, base.versions[v], head.versions[v]);
  }

  // ---------------------------------------------------------------- ordering resources

  predicate KeyLess(a: Key, b: Key) {
    if a.group != b.group then Less(a.group, b.group) else Less(a.plural, b.plural)
  }

  lemma KeyLessTotal(a: Key, b: Key)
    ensures a == b || KeyLess(a, b) || KeyLess(b, a)
  {
    LessTotal(a.group, b.group);
    LessTotal(a.plural, b.plural);
  }

  lemma KeyLessTransitive(a: Key, b: Key, c: Key)
    requires KeyLess(a, b) && KeyLess(b, c)
    ensures KeyLess(a, c)
  {
    if a.group != b.group && b.group != c.group {
      LessTransitive(a.group, b.group, c.group);
      LessIrreflexive(a.group);
    } else if a.group == b.group == c.group {
      LessTransitive(a.plural, b.plural, c.plural);
    }
    if a.group == c.group && a.group != b.group {
      LessAsymmetric(a.group, b.group);
    }
  }

  /** By group and, within a group, by plural. */
  predicate Ascending(rs: seq<Resource>) {
    forall i, j | 0 <= i < j < |rs| ::
      Less(rs[i].group, rs[j].group) || (rs[i].group == rs[j].group && Less(rs[i].plural, rs[j].plural))
  }

  predicate ResourceBefore(a: Resource, b: Resource) {
    KeyLess(KeyOf(a), KeyOf(b))
  }

  lemma ResourceOrder()
    ensures Comparison(ResourceBefore)
  {
    forall a, b | ResourceBefore(a, b) ensures !ResourceBefore(b, a) {
      if ResourceBefore(b, a) {
        KeyLessTransitive(KeyOf(a), KeyOf(b), KeyOf(a));
        LessIrreflexive(a.plural);
      }
    }
    forall a, b, c | !ResourceBefore(b, a) && !ResourceBefore(c, b) ensures !ResourceBefore(c, a) {
      if ResourceBefore(c, a) {
        KeyLessTotal(KeyOf(a), KeyOf(b));
        if KeyOf(a) != KeyOf(b) {
          KeyLessTransitive(KeyOf(c), KeyOf(a), KeyOf(b));
        }
      }
    }
  }

  /** sortedResources: every resource of the snapshot once, by group and plural. */
  method SortedResources(s: Snapshot) returns (out: seq<Resource>)
    requires WellKeyed(s)
    ensures Ascending(out) && forall r :: r in out <==> KeyOf(r) in s && s[KeyOf(r)] == r
  {
    var found: seq<Resource> := [];
    var todo := s.Keys;
    while todo != {}
      invariant todo <= s.Keys && NoDuplicates(found)
      invariant forall r :: r in found <==> KeyOf(r) in s && KeyOf(r) !in todo && s[KeyOf(r)] == r
      decreases todo
    {
      var k :| k in todo;
      found, todo := found + [s[k]], todo - {k};
    }
    ResourceOrder();
    out := Sort(ResourceBefore, found);
    Rearranged(found, out);
    InOrder(s, out);
  }

  /** Sorted resources with different keys are strictly ascending. */
  lemma InOrder(s: Snapshot, out: seq<Resource>)
    requires Sorted(ResourceBefore, out) && NoDuplicates(out)
    requires forall r <- out :: KeyOf(r) in s && s[KeyOf(r)] == r
    ensures Ascending(out)
  {
    forall i, j | 0 <= i < j < |out| ensures KeyLess(KeyOf(out[i]), KeyOf(out[j])) {
      assert out[i] in out && out[j] in out && !ResourceBefore(out[j], out[i]);
      KeyLessTotal(KeyOf(out[i]), KeyOf(out[j]));
    }
  }

  // ---------------------------------------------------------------- Classify

  /** The first resource, in sorted order, of its group. */
  predicate Leads(s: Snapshot, k: Key) {
    k in s && forall other <- s :: other.group == k.group ==> other == k || Less(k.plural, other.plural)
  }

  /** One key for each group of `from` that `to` has no resource in. */
  ghost function GroupsOnlyIn(from: Snapshot, to: Snapshot): set<Key> {
    set k | k in from && k.group !in Groups(to) && Leads(from, k)
  }

  /** Resources of `from` alone, in groups both have. */
  ghost function ResourcesOnlyIn(from: Snapshot, to: Snapshot): set<Key> {
    set k | k in from && k !in to && k.group in Groups(to)
  }

  ghost function Breaks(g: Gate, base: Snapshot, head: Snapshot): set<Finding> {
    set k, vb | k in base.Keys * head.Keys && vb in ResourceFindings(g, base[k], head[k]) ::
        BreakingChange(k, vb.0, vb.1)
  }

  /** Classify has nothing to report. */
  ghost predicate Silent(g: Gate, base: Snapshot, head: Snapshot) {
    && GroupsOnlyIn(head, base) == {} && ResourcesOnlyIn(head, base) == {}
    && GroupsOnlyIn(base, head) == {} && ResourcesOnlyIn(base, head) == {}
    && Breaks(g, base, head) == {}
  }

  /** The first two loops of Classify, and, with the snapshots swapped, the next two: the
      groups only `from` has, each reported once, against its first resource. */
  method MissingGroups(from: Snapshot, to: Snapshot, order: seq<Resource>)
    returns (firsts: seq<Key>, groups: set<string>)
    requires Ascending(order) && forall r :: r in order <==> KeyOf(r) in from && from[KeyOf(r)] == r
    requires WellKeyed(from)
    ensures groups == Groups(from) - Groups(to)
    ensures forall k :: k in firsts <==> k in GroupsOnlyIn(from, to)
    ensures forall i, j | 0 <= i < j < |firsts| :: firsts[i].group != firsts[j].group
  {
    firsts, groups := [], {};
    for i := 0 to |order|
      invariant Scanned(from, to, order, i, firsts, groups)
    {
      var r := order[i];
      assert r in order;
      if r.group !in Groups(to) && r.group !in groups {
        LeadsHere(from, order, i);
      }
      ScanOne(from, to, order, i, firsts, groups);
      if r.group !in Groups(to) && r.group !in groups {
        groups := groups + {r.group};
        firsts := firsts + [KeyOf(r)];
      }
    }
    GroupsAllFound(from, to, order, firsts, groups);
    LeadersAllFound(from, to, firsts, groups);
  }

  /** What the loop knows after the first i resources. */
  ghost predicate Scanned(from: Snapshot, to: Snapshot, order: seq<Resource>, i: nat, firsts: seq<Key>,
      groups: set<string>)
    requires i <= |order|
  {
    && (forall j | 0 <= j < i :: order[j].group in Groups(to) || order[j].group in groups)
    && (forall k <- firsts :: k in GroupsOnlyIn(from, to) && k.group in groups)
    && (forall g <- groups :: exists k <- firsts :: k.group == g)
    && (forall a, b | 0 <= a < b < |firsts| :: firsts[a].group != firsts[b].group)
  }

  lemma ScanOne(from: Snapshot, to: Snapshot, order: seq<Resource>, i: nat, firsts: seq<Key>, groups: set<string>)
    requires i < |order| && Scanned(from, to, order, i, firsts, groups)
    requires order[i].group !in Groups(to) && order[i].group !in groups ==> KeyOf(order[i]) in GroupsOnlyIn(from, to)
    ensures var r := order[i];
            if r.group !in Groups(to) && r.group !in groups
            then Scanned(from, to, order, i + 1, firsts + [KeyOf(r)], groups + {r.group})
            else Scanned(from, to, order, i + 1, firsts, groups)
  {
    var r := order[i];
    if r.group !in Groups(to) && r.group !in groups {
      var more := firsts + [KeyOf(r)];
      assert more[|firsts|] == KeyOf(r);
      forall g | g in groups ensures exists k <- more :: k.group == g {
        var k :| k in firsts && k.group == g;
        assert k in more;
      }
    }
  }

  lemma GroupsAllFound(from: Snapshot, to: Snapshot, order: seq<Resource>, firsts: seq<Key>, groups: set<string>)
    requires WellKeyed(from) && forall r :: r in order <==> KeyOf(r) in from && from[KeyOf(r)] == r
    requires Scanned(from, to, order, |order|, firsts, groups)
    ensures groups == Groups(from) - Groups(to)
    ensures forall k <- from :: k.group !in Groups(to) ==> k.group in groups
  {
    forall k | k in from && k.group !in Groups(to) ensures k.group in groups {
      assert from[k] in order;
    }
    forall g | g in groups ensures g in Groups(from) {
      var k :| k in firsts && k.group == g;
    }
  }

  lemma LeadersAllFound(from: Snapshot, to: Snapshot, firsts: seq<Key>, groups: set<string>)
    requires forall k <- firsts :: k in GroupsOnlyIn(from, to)
    requires forall g <- groups :: exists k <- firsts :: k.group == g
    requires forall k <- from :: k.group !in Groups(to) ==> k.group in groups
    ensures forall k :: k in firsts <==> k in GroupsOnlyIn(from, to)
  {
    forall k | k in GroupsOnlyIn(from, to) ensures k in firsts {
      var other :| other in firsts && other.group == k.group;
      LeadersAgree(from, k, other);
    }
  }

  /** The first of a group met in sorted order leads it. */
  lemma LeadsHere(s: Snapshot, order: seq<Resource>, i: nat)
    requires WellKeyed(s) && Ascending(order) && i < |order|
    requires forall r :: r in order <==> KeyOf(r) in s && s[KeyOf(r)] == r
    requires forall j | 0 <= j < i :: order[j].group != order[i].group
    ensures Leads(s, KeyOf(order[i]))
  {
    forall other | other in s && other.group == order[i].group && other != KeyOf(order[i])
      ensures Less(order[i].plural, other.plural)
    {
      assert s[other] in order;
      var j :| 0 <= j < |order| && order[j] == s[other];
      LessIrreflexive(other.group);
    }
  }

  lemma LeadersAgree(s: Snapshot, a: Key, b: Key)
    requires Leads(s, a) && Leads(s, b) && a.group == b.group
    ensures a == b
  {
    if a != b {
      LessAsymmetric(a.plural, b.plural);
    }
  }

  method MissingResources(from: Snapshot, to: Snapshot, order: seq<Resource>, groups: set<string>)
    returns (keys: seq<Key>)
    requires WellKeyed(from) && groups == Groups(from) - Groups(to)
    requires forall r :: r in order <==> KeyOf(r) in from && from[KeyOf(r)] == r
    ensures forall k :: k in keys <==> k in ResourcesOnlyIn(from, to)
  {
    keys := [];
    for i := 0 to |order|
      invariant forall k ::
        k in keys <==> exists j | 0 <= j < i :: KeyOf(order[j]) == k && k in ResourcesOnlyIn(from, to)
    {
      var r := order[i];
      if KeyOf(r) !in to && r.group !in groups {
        assert r.group in Groups(from);
        keys := keys + [KeyOf(r)];
      }
    }
    forall k | k in ResourcesOnlyIn(from, to) ensures k in keys {
      assert from[k] in order;
      var j :| 0 <= j < |order| && order[j] == from[k];
      assert KeyOf(order[j]) == k;
    }
  }

  method SharedBreaks(g: Gate, base: Snapshot, head: Snapshot, order: seq<Resource>) returns (out: set<Finding>)
    requires WellKeyed(head)
    requires forall r :: r in order <==> KeyOf(r) in head && head[KeyOf(r)] == r
    ensures out == Breaks(g, base, head)
  {
    out := {};
    for i := 0 to |order|
      invariant out == set k, vb | k in base.Keys * head.Keys && head[k] in order[..i]
                                   && vb in ResourceFindings(g, base[k], head[k]) :: BreakingChange(k, vb.0, vb.1)
    {
      var r := order[i];
      var k := KeyOf(r);
      assert order[..i + 1] == order[..i] + [r];
      if k in base {
        var details := DiffResource(g, base[k], r);
        out := out + set vb | vb in details :: BreakingChange(k, vb.0, vb.1);
      }
      assert forall other <- head :: head[other] == r ==> other == k;
    }
    assert order[..|order|] == order;
  }

  /** Classify: the findings, with no group reported twice. */
  method ClassifySnapshots(g: Gate, base: Snapshot, head: Snapshot)
    returns (newGroups: seq<Key>, newResources: seq<Key>, removedGroups: seq<Key>, removedResources: seq<Key>,
             breaking: set<Finding>)
    requires WellKeyed(base) && WellKeyed(head)
    ensures forall k :: k in newGroups <==> k in GroupsOnlyIn(head, base)
    ensures forall k :: k in newResources <==> k in ResourcesOnlyIn(head, base)
    ensures forall k :: k in removedGroups <==> k in GroupsOnlyIn(base, head)
    ensures forall k :: k in removedResources <==> k in ResourcesOnlyIn(base, head)
    ensures breaking == Breaks(g, base, head)
    ensures Silent(g, base, head)
        <==> newGroups + newResources + removedGroups + removedResources == [] && breaking == {}
    ensures forall i, j | 0 <= i < j < |newGroups| :: newGroups[i].group != newGroups[j].group
    ensures forall i, j | 0 <= i < j < |removedGroups| :: removedGroups[i].group != removedGroups[j].group
  {
    var headOrder := SortedResources(head);
    var baseOrder := SortedResources(base);
    var added, removed: set<string>;
    newGroups, added := MissingGroups(head, base, headOrder);
    newResources := MissingResources(head, base, headOrder, added);
    removedGroups, removed := MissingGroups(base, head, baseOrder);
    removedResources := MissingResources(base, head, baseOrder, removed);
    breaking := SharedBreaks(g, base, head, headOrder);
    SameEmptiness(newGroups, GroupsOnlyIn(head, base));
    SameEmptiness(newResources, ResourcesOnlyIn(head, base));
    SameEmptiness(removedGroups, GroupsOnlyIn(base, head));
    SameEmptiness(removedResources, ResourcesOnlyIn(base, head));
  }

  lemma SameEmptiness(s: seq<Key>, keys: set<Key>)
    requires forall k :: k in s <==> k in keys
    ensures s == [] <==> keys == {}
  {
    if s != [] {
      assert s[0] in keys;
    }
  }

  // ---------------------------------------------------------------- what a silent gate means

  lemma {:induction false} SomeoneLeads(s: Snapshot, keys: set<Key>) returns (first: Key)
    requires keys != {} && keys <= s.Keys
    ensures first in keys && forall k <- keys :: k == first || KeyLess(first, k)
    decreases keys
  {
    var k :| k in keys;
    if keys == {k} {
      first := k;
    } else {
      first := SomeoneLeads(s, keys - {k});
      KeyLessTotal(k, first);
      if KeyLess(k, first) {
        forall other | other in keys - {k} ensures KeyLess(k, other) {
          if other != first {
            KeyLessTransitive(k, first, other);
          }
        }
        first := k;
      }
    }
  }

  lemma MissingResourceShows(from: Snapshot, to: Snapshot, k: Key)
    requires k in from && k !in to
    ensures GroupsOnlyIn(from, to) != {} || ResourcesOnlyIn(from, to) != {}
  {
    if k.group in Groups(to) {
      assert k in ResourcesOnlyIn(from, to);
    } else {
      var peers := set p | p in from && p.group == k.group;
      assert k in peers;
      var first := SomeoneLeads(from, peers);
      forall other | other in from && other.group == first.group && other != first
        ensures Less(first.plural, other.plural)
      {
        assert other in peers;
      }
      assert first in GroupsOnlyIn(from, to);
    }
  }

  lemma BreakShows(g: Gate, base: Snapshot, head: Snapshot, k: Key, v: string)
    requires k in base && k in head && v in base[k].versions
    ensures VersionFindings(g, v, base[k], head[k]) == {} || Breaks(g, base, head) != {}
  {
    if b :| b in VersionFindings(g, v, base[k], head[k]) {
      assert (v, b) in ResourceFindings(g, base[k], head[k]);
      assert BreakingChange(k, v, b) in Breaks(g, base, head);
    }
  }

  lemma NoBreakWithin(g: Gate, v: string, base: Resource, head: Resource)
    requires v in base.versions && VersionFindings(g, v, base, head) == {}
    ensures v in head.versions
    ensures SchemaFindings(g, "spec", base.versions[v], head.versions[v]) == {}
    ensures NameFindings(g, base.versions[v], head.versions[v]) == {}
  {
    assert v in head.versions;
    SpecTagged(SchemaFindings(g, "spec", base.versions[v], head.versions[v]));
  }

  lemma SpecTagged(found: set<Breaking>)
    ensures found == {} || InSpec(found) != {}
  {
    if b :| b in found {
      assert Spec(b) in InSpec(found);
    }
  }

  lemma NameTagged(found: set<Breaking>)
    ensures found == {} || InName(found) != {}
  {
    if b :| b in found {
      assert Name(b) in InName(found);
    }
  }

  lemma SilentMeansSameShape(g: Gate, base: Snapshot, head: Snapshot)
    requires Silent(g, base, head)
    ensures base.Keys == head.Keys
    ensures forall k <- base, v <- base[k].versions :: VersionFindings(g, v, base[k], head[k]) == {}
  {
    forall k | k in base ensures k in head {
      if k !in head { MissingResourceShows(base, head, k); }
    }
    forall k | k in head ensures k in base {
      if k !in base { MissingResourceShows(head, base, k); }
    }
    forall k, v | k in base && v in base[k].versions ensures VersionFindings(g, v, base[k], head[k]) == {} {
      BreakShows(g, base, head, k, v);
    }
  }

  /** What a served version accepts: the spec under its schema, the name under its declaration. */
  ghost predicate Serves(m: Meaning, g: Gate, s: Option<Schema>, name: string, spec: Json) {
    s.Some? ==> Conforms(m, s.value, spec) && NameOk(m, g, s.value, name)
  }

  /** A name declaration that cannot be enforced refuses every create. */
  ghost predicate NameOk(m: Meaning, g: Gate, s: Schema, name: string) {
    "x-cozystack-name" in s ==>
      && g.parses(s["x-cozystack-name"])
      && (s["x-cozystack-name"].Obj? ==> Conforms(m, s["x-cozystack-name"].fields - {"type"}, Str(name)))
  }

  /** The conditions of CleanIsSound for one version of one resource. */
  ghost predicate InFragment(m: Meaning, base: Option<Schema>, head: Option<Schema>, spec: Json) {
    head.Some? ==>
      && Comparable(m, OrEmpty(base), head.value) && Avoids(OrEmpty(base), head.value, spec)
      && Comparable(m, OrEmpty(NameDeclaration(base)), OrEmpty(NameDeclaration(head)))
      && NoNullName(head.value)
  }

  /** The declaration is not an explicit null, which the diff cannot tell from an absent one. */
  predicate NoNullName(s: Schema) {
    NAME_EXTENSION in s ==> s[NAME_EXTENSION] != Null
  }

  /** One silent diff, in terms of the reference: no schema means no constraint. */
  lemma SilentDiffKeeps(m: Meaning, g: Gate, path: string, base: Option<Schema>, head: Schema, v: Json)
    requires BranchesMeanTypes(m) && m.fmt == g.fmt && SchemaFindings(g, path, base, Some(head)) == {}
    requires Comparable(m, OrEmpty(base), head) && Avoids(OrEmpty(base), head, v)
    requires base.Some? ==> Conforms(m, base.value, v)
    ensures Conforms(m, head, v)
  {
    NoFindingMeansClean(g.fmt, path, OrEmpty(base), head);
    if base.None? {
      EmptyAcceptsAll(m, v);
    } else {
      AcceptsIsConforming(m, base.value, v);
    }
    CleanIsSound(m, OrEmpty(base), head, v);
    AcceptsIsConforming(m, head, v);
  }

  lemma NameStaysOk(m: Meaning, g: Gate, base: Option<Schema>, head: Option<Schema>, name: string)
    requires BranchesMeanTypes(m) && m.fmt == g.fmt && forall j: Json :: g.parses(j) ==> j.Obj?
    requires head.Some? && NoNullName(head.value) && NameFindings(g, base, head) == {}
    requires Comparable(m, OrEmpty(NameDeclaration(base)), OrEmpty(NameDeclaration(head)))
    requires base.Some? ==> NameOk(m, g, base.value, name)
    ensures NameOk(m, g, head.value, name)
  {
    if NAME_EXTENSION in head.value {
      var was, now := Get(OrEmpty(base), NAME_EXTENSION), head.value[NAME_EXTENSION];
      if was != now {
        NameTagged(SchemaFindings(g, "metadata.name", NameDeclaration(base), NameDeclaration(head)));
        SilentDiffKeeps(m, g, "metadata.name", NameDeclaration(base), NameDeclaration(head).value, Str(name));
      }
    }
  }

  /** The gate end to end: when Classify reports nothing, whatever any served version of any
      resource accepted is still served and still accepted. */
  lemma GateIsSound(m: Meaning, g: Gate, base: Snapshot, head: Snapshot, k: Key, v: string, name: string, spec: Json)
    requires BranchesMeanTypes(m) && m.fmt == g.fmt && forall j: Json :: g.parses(j) ==> j.Obj?
    requires Silent(g, base, head)
    requires k in base && v in base[k].versions
    requires k in head && v in head[k].versions ==> InFragment(m, base[k].versions[v], head[k].versions[v], spec)
    requires Serves(m, g, base[k].versions[v], name, spec)
    ensures k in head && v in head[k].versions && Serves(m, g, head[k].versions[v], name, spec)
  {
    SilentMeansSameShape(g, base, head);
    NoBreakWithin(g, v, base[k], head[k]);
    var was, now := base[k].versions[v], head[k].versions[v];
    if now.Some? {
      SilentDiffKeeps(m, g, "spec", was, now.value, spec);
      NameStaysOk(m, g, was, now, name);
    }
  }

  /** Why NoNullName is needed: a null declaration over none is not reported, and refuses every name. */
  lemma NullNameEscapes(m: Meaning, g: Gate, name: string)
    requires !g.parses(Null)
    ensures var head: Schema := map[NAME_EXTENSION := Null];
            NameFindings(g, Some(map[]), Some(head)) == {} && NameOk(m, g, map[], name) && !NameOk(m, g, head, name)
  {
    assert Get(map[], NAME_EXTENSION) == Null;
  }

  /** What only adds is passed over: the same resources, every version they served unchanged, and any
      number of new versions. */
  lemma AddedVersionsAreSilent(g: Gate, base: Snapshot, head: Snapshot)
    requires base.Keys == head.Keys
    requires forall k <- base, v <- base[k].versions ::
        v in head[k].versions && head[k].versions[v] == base[k].versions[v]
    ensures Silent(g, base, head)
  {
    assert Groups(base) == Groups(head);
    forall k | k in base ensures ResourceFindings(g, base[k], head[k]) == {} {
      forall v | v in base[k].versions ensures VersionFindings(g, v, base[k], head[k]) == {} {
        UnchangedVersion(g, v, base[k], head[k]);
      }
    }
    assert Breaks(g, base, head) == {};
  }

  lemma UnchangedVersion(g: Gate, v: string, base: Resource, head: Resource)
    requires v in base.versions && v in head.versions && head.versions[v] == base.versions[v]
    ensures VersionFindings(g, v, base, head) == {}
  {
    if base.versions[v].Some? {
      CleanReflexive(g.fmt, base.versions[v].value);
      NoFindingMeansClean(g.fmt, "spec", base.versions[v].value, base.versions[v].value);
    }
  }
}
