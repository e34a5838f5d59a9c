/** ApplicationDefinitionReconciler: the debounced rollout of a changed configuration. */
module ConfigRollout {
  import opened Ordering
  import opened Sorting

  datatype Def = Def(name: string, kind: string, spec: string, created: int, annotations: map<string, string>)

  /** What of a definition enters the hash. */
  datatype View = View(name: string, spec: string, annotations: map<string, string>, skipped: bool)

  const RELEASE_PREFIX := "release.cozystack.io/"

  function ReleaseAnnotations(annotations: map<string, string>): map<string, string> {
    map k | k in annotations && RELEASE_PREFIX <= k :: annotations[k]
  }

  predicate SameReleaseAnnotations(a: map<string, string>, b: map<string, string>) {
    forall k <- a.Keys + b.Keys :: "release.cozystack.io/" <= k ==> k in a && k in b && a[k] == b[k]
  }

  lemma AnnotationsMatter(a: map<string, string>, b: map<string, string>)
    ensures ReleaseAnnotations(a) == ReleaseAnnotations(b) <==> SameReleaseAnnotations(a, b)
  {
    var x, y := ReleaseAnnotations(a), ReleaseAnnotations(b);
    if x == y {
      forall k | k in a.Keys + b.Keys && RELEASE_PREFIX <= k ensures k in a && k in b && a[k] == b[k] {
        assert k in x <==> k in a;
        assert k in y <==> k in b;
      }
    }
  }

  // ---------------------------------------------------------------- owners of a kind

  predicate Before(a: Def, b: Def) {
    if a.created != b.created then a.created < b.created else Less(a.name, b.name)
  }

  /** Another definition claims the kind first. */
  predicate Skipped(defs: set<Def>, d: Def) {
    d.kind != "" && exists o <- defs :: o.kind == d.kind && Before(o, d)
  }

  predicate UniqueNames(defs: set<Def>) {
    forall a <- defs, b <- defs :: a.name == b.name ==> a == b
  }

  /** The oldest of its kind, and within a second the first by name. */
  ghost predicate OwnerOf(defs: set<Def>, kind: string, owner: Def) {
    && owner in defs && owner.kind == kind
    && forall o <- defs :: o.kind == kind ==>
         o == owner || owner.created < o.created || (owner.created == o.created && Less(owner.name, o.name))
  }

  lemma BeforeIsStrict(a: Def, b: Def)
    ensures Before(a, b) ==> !Before(b, a)
    ensures a.name != b.name ==> Before(a, b) || Before(b, a)
  {
    LessTotal(a.name, b.name);
    if Less(a.name, b.name) {
      LessAsymmetric(a.name, b.name);
    }
  }

  lemma BeforeTransitive(a: Def, b: Def, c: Def)
    requires Before(a, b) && Before(b, c)
    ensures Before(a, c)
  {
    if Less(a.name, b.name) && Less(b.name, c.name) {
      LessTransitive(a.name, b.name, c.name);
    }
  }

  function Elements(list: seq<Def>): set<Def> {
    set d | d in list
  }

  /** appdefowner.Owners: the oldest definition of each kind. */
  method Owners(list: seq<Def>) returns (owners: map<string, Def>)
    requires UniqueNames(Elements(list))
    ensures owners.Keys == Kinds(Elements(list))
    ensures forall k <- owners :: OwnerOf(Elements(list), k, owners[k])
  {
    owners := map[];
    for i := 0 to |list|
      invariant OwnersAre(Elements(list[..i]), owners)
    {
      var d := list[i];
      assert Elements(list[..i + 1]) == Elements(list[..i]) + {d} by {
        assert list[..i + 1] == list[..i] + [d];
      }
      assert d in Elements(list) && Elements(list[..i]) <= Elements(list);
      OwnersGrow(Elements(list[..i]), owners, d);
      if d.kind != "" && (d.kind !in owners || Before(d, owners[d.kind])) {
        owners := owners[d.kind := d];
      }
    }
    assert list[..|list|] == list;
  }

  function Kinds(defs: set<Def>): set<string> {
    set d | d in defs && d.kind != "" :: d.kind
  }

  ghost predicate OwnersAre(defs: set<Def>, owners: map<string, Def>) {
    && owners.Keys == Kinds(defs)
    && (forall k <- owners :: OwnerOf(defs, k, owners[k]))
  }

  lemma OwnersGrow(defs: set<Def>, owners: map<string, Def>, d: Def)
    requires OwnersAre(defs, owners)
    requires d.kind in owners && owners[d.kind].name == d.name ==> owners[d.kind] == d
    ensures OwnersAre(
      defs + {d},
      if d.kind != "" && (d.kind !in owners || Before(d, owners[d.kind])) then owners[d.kind := d] else owners)
  {
    KindsGrow(defs, d);
    if d.kind in owners {
      OwnerUpdates(defs, owners[d.kind], d);
    } else if d.kind != "" {
      FirstOfKind(defs, d);
    }
    forall k | k in owners && k != d.kind ensures OwnerOf(defs + {d}, k, owners[k]) {
      OtherKind(defs, k, owners[k], d);
    }
  }

  lemma KindsGrow(defs: set<Def>, d: Def)
    ensures Kinds(defs + {d}) == Kinds(defs) + if d.kind != "" then {d.kind} else {}
  {
    var more := Kinds(defs) + if d.kind != "" then {d.kind} else {};
    forall k | k in Kinds(defs + {d}) ensures k in more {
      var o :| o in defs + {d} && o.kind == k && k != "";
    }
    forall k | k in Kinds(defs) ensures k in Kinds(defs + {d}) {
      var o :| o in defs && o.kind == k && k != "";
      assert o in defs + {d};
    }
  }

  lemma FirstOfKind(defs: set<Def>, d: Def)
    requires d.kind != "" && d.kind !in Kinds(defs)
    ensures OwnerOf(defs + {d}, d.kind, d)
  {
  }

  lemma OtherKind(defs: set<Def>, kind: string, owner: Def, d: Def)
    requires OwnerOf(defs, kind, owner) && d.kind != kind
    ensures OwnerOf(defs + {d}, kind, owner)
  {
  }

  lemma OwnerUpdates(defs: set<Def>, owner: Def, d: Def)
    requires OwnerOf(defs, d.kind, owner) && (d.name == owner.name ==> d == owner)
    ensures OwnerOf(defs + {d}, d.kind, if Before(d, owner) then d else owner)
  {
    BeforeIsStrict(d, owner);
    if Before(d, owner) {
      forall o | o in defs && o.kind == d.kind && o != owner ensures Before(d, o) {
        BeforeTransitive(d, owner, o);
      }
    }
  }

  lemma OwnerIsNotSkipped(defs: set<Def>, d: Def, owner: Def)
    requires UniqueNames(defs) && d in defs && OwnerOf(defs, d.kind, owner) && d.kind != ""
    ensures Skipped(defs, d) <==> owner.name != d.name
  {
    if owner == d {
      forall o | o in defs && o.kind == d.kind ensures !Before(o, d) {
        BeforeIsStrict(o, d);
      }
    }
  }

  // ---------------------------------------------------------------- the hashed views

  function ViewOf(defs: set<Def>, d: Def): View {
    View(d.name, d.spec, ReleaseAnnotations(d.annotations), Skipped(defs, d))
  }

  ghost predicate Ascending(names: seq<string>) {
    forall i, j | 0 <= i < j < |names| :: Less(names[i], names[j])
  }

  function Names(views: seq<View>): seq<string> {
    seq(|views|, i requires 0 <= i < |views| => views[i].name)
  }

  /** One view for each definition, by name. */
  ghost predicate IsViews(defs: set<Def>, views: seq<View>) {
    Ascending(Names(views)) && forall v :: v in views <==> Shows(defs, v)
  }

  ghost predicate Shows(defs: set<Def>, v: View) {
    exists d <- defs :: v == ViewOf(defs, d)
  }

  lemma LastAgree(a: seq<View>, b: seq<View>)
    requires Ascending(Names(a)) && Ascending(Names(b)) && a != [] && b != [] && forall v :: v in a <==> v in b
    ensures a[|a| - 1] == b[|b| - 1]
  {
    var x, y := a[|a| - 1], b[|b| - 1];
    assert x in b && y in a;
    var p :| 0 <= p < |b| && b[p] == x;
    var q :| 0 <= q < |a| && a[q] == y;
    assert p < |b| - 1 ==> Less(Names(b)[p], Names(b)[|b| - 1]);
    assert q < |a| - 1 ==> Less(Names(a)[q], Names(a)[|a| - 1]);
    if Less(x.name, y.name) {
      LessAsymmetric(x.name, y.name);
      LessIrreflexive(x.name);
    }
  }

  lemma LastIsNew(a: seq<View>)
    requires Ascending(Names(a)) && a != []
    ensures a[|a| - 1] !in a[..|a| - 1] && Ascending(Names(a[..|a| - 1]))
  {
    var i := |a| - 1;
    forall k | 0 <= k < i ensures a[k] != a[i] {
      assert Less(Names(a)[k], Names(a)[i]);
      LessIrreflexive(a[i].name);
    }
    assert Names(a[..i]) == Names(a)[..i];
  }

  lemma EmptyTogether(a: seq<View>, b: seq<View>)
    requires forall v :: v in a <==> v in b
    ensures a == [] <==> b == []
  {
    if a != [] {
      assert a[0] in b;
    }
    if b != [] {
      assert b[0] in a;
    }
  }

  /** Two listings of the same views in name order are one. */
  lemma {:induction false} ViewsUnique(a: seq<View>, b: seq<View>)
    requires Ascending(Names(a)) && Ascending(Names(b)) && forall v :: v in a <==> v in b
    ensures a == b
    decreases |a|
  {
    EmptyTogether(a, b);
    if a != [] {
      LastAgree(a, b);
      LastIsNew(a);
      LastIsNew(b);
      var a', b' := a[..|a| - 1], b[..|b| - 1];
      assert a == a' + [a[|a| - 1]] && b == b' + [a[|a| - 1]];
      forall v ensures v in a' <==> v in b' {
        assert v in a <==> v in b;
      }
      ViewsUnique(a', b');
    }
  }

  /** Whatever order the definitions are listed in, the hash is taken over the same views. */
  lemma HashIgnoresOrder(defs: set<Def>, a: seq<View>, b: seq<View>)
    requires IsViews(defs, a) && IsViews(defs, b)
    ensures a == b
  {
    ViewsUnique(a, b);
  }

  predicate AscendingDefs(s: seq<Def>) {
    forall i, j | 0 <= i < j < |s| :: Less(s[i].name, s[j].name)
  }

  predicate NameBefore(a: Def, b: Def) {
    Less(a.name, b.name)
  }

  lemma NameOrder()
    ensures Comparison(NameBefore)
  {
    forall a, b | NameBefore(a, b) ensures !NameBefore(b, a) {
      LessAsymmetric(a.name, b.name);
    }
    forall a, b, c | !NameBefore(b, a) && !NameBefore(c, b) ensures !NameBefore(c, a) {
      if NameBefore(c, a) {
        LessTotal(a.name, b.name);
        if a.name != b.name {
          LessTransitive(c.name, a.name, b.name);
        }
      }
    }
  }

  method SortByName(list: seq<Def>) returns (sorted: seq<Def>)
    requires UniqueNames(Elements(list)) && NoDuplicates(list)
    ensures AscendingDefs(sorted) && forall d :: d in sorted <==> d in list
  {
    NameOrder();
    sorted := Sort(NameBefore, list);
    Rearranged(list, sorted);
    forall i, j | 0 <= i < j < |sorted| ensures Less(sorted[i].name, sorted[j].name) {
      assert sorted[i] in Elements(list) && sorted[j] in Elements(list) && !NameBefore(sorted[j], sorted[i]);
      LessTotal(sorted[i].name, sorted[j].name);
    }
  }

  /** Another definition of the kind is older, or as old and first by name. */
  ghost predicate Overruled(defs: set<Def>, d: Def) {
    && d.kind != ""
    && exists o <- defs ::
         o.kind == d.kind && (o.created < d.created || (o.created == d.created && Less(o.name, d.name)))
  }

  /** Two definitions the API server would serve alike. */
  ghost predicate ServedAlike(defs: set<Def>, d: Def, others: set<Def>, e: Def) {
    && d.name == e.name && d.spec == e.spec && SameReleaseAnnotations(d.annotations, e.annotations)
    && (Overruled(defs, d) <==> Overruled(others, e))
  }

  ghost predicate Mirrors(defs: set<Def>, others: set<Def>) {
    forall d <- defs :: exists e <- others :: ServedAlike(defs, d, others, e)
  }

  lemma ViewsTellApart(defs: set<Def>, d: Def, others: set<Def>, e: Def)
    ensures ViewOf(defs, d) == ViewOf(others, e) <==> ServedAlike(defs, d, others, e)
  {
    AnnotationsMatter(d.annotations, e.annotations);
    assert Skipped(defs, d) <==> Overruled(defs, d);
    assert Skipped(others, e) <==> Overruled(others, e);
  }

  /** What is shown of one set is shown of the other exactly when each definition has its like there. */
  lemma ShownAlike(defs: set<Def>, others: set<Def>)
    ensures Mirrors(defs, others) <==> forall v :: Shows(defs, v) ==> Shows(others, v)
  {
    if Mirrors(defs, others) {
      forall v | Shows(defs, v) ensures Shows(others, v) {
        var d :| d in defs && v == ViewOf(defs, d);
        var e :| e in others && ServedAlike(defs, d, others, e);
        ViewsTellApart(defs, d, others, e);
      }
    }
    if forall v :: Shows(defs, v) ==> Shows(others, v) {
      forall d | d in defs ensures exists e <- others :: ServedAlike(defs, d, others, e) {
        assert Shows(defs, ViewOf(defs, d));
        var e :| e in others && ViewOf(defs, d) == ViewOf(others, e);
        ViewsTellApart(defs, d, others, e);
      }
    }
  }

  /** The hash is taken over the same views exactly when the same names are there with the same
      specs, release annotations and ownership of kinds. */
  lemma RollsOutExactly(defs: set<Def>, others: set<Def>, was: seq<View>, now: seq<View>)
    requires IsViews(defs, was) && IsViews(others, now)
    ensures was == now <==> Mirrors(defs, others) && Mirrors(others, defs)
  {
    ShownAlike(defs, others);
    ShownAlike(others, defs);
    if Mirrors(defs, others) && Mirrors(others, defs) {
      ViewsUnique(was, now);
    }
    if was == now {
      forall v ensures Shows(defs, v) <==> Shows(others, v) {
        assert v in was <==> v in now;
      }
    }
  }

  /** In particular, a changed spec always rolls out. */
  lemma ChangedSpecRollsOut(defs: set<Def>, d: Def, spec: string, was: seq<View>, now: seq<View>)
    requires UniqueNames(defs) && d in defs && IsViews(defs, was) && IsViews(defs - {d} + {d.(spec := spec)}, now)
    ensures was == now ==> spec == d.spec
  {
    if was == now {
      var others := defs - {d} + {d.(spec := spec)};
      RollsOutExactly(defs, others, was, now);
      var e :| e in defs && ServedAlike(others, d.(spec := spec), defs, e);
    }
  }

  /** Rewriting a definition's annotations rolls the API out exactly when one under the release
      prefix changes, appears or goes: what kubectl and Helm rewrite on every apply does not. */
  lemma OnlyReleaseAnnotationsRollOut(defs: set<Def>, d: Def, annotations: map<string, string>, was: seq<View>,
      now: seq<View>)
    requires UniqueNames(defs) && d in defs
    requires IsViews(defs, was) && IsViews(Annotated(defs, d, annotations), now)
    ensures was == now <==> SameReleaseAnnotations(d.annotations, annotations)
  {
    AnnotationsMatter(d.annotations, annotations);
    var d' := d.(annotations := annotations);
    var defs' := Annotated(defs, d, annotations);
    OwnershipStays(defs, d, annotations);
    if was == now {
      assert ViewOf(defs', d') in was;
      var e :| e in defs && ViewOf(defs', d') == ViewOf(defs, e);
      assert e == d;
    }
    if ReleaseAnnotations(d.annotations) == ReleaseAnnotations(annotations) {
      SameViews(defs, d, annotations);
      ViewsUnique(was, now);
    }
  }

  function Annotated(defs: set<Def>, d: Def, annotations: map<string, string>): set<Def> {
    defs - {d} + {d.(annotations := annotations)}
  }

  /** Annotations play no part in who owns a kind. */
  lemma OwnershipStays(defs: set<Def>, d: Def, annotations: map<string, string>)
    requires d in defs
    ensures forall e :: Skipped(defs, e) <==> Skipped(Annotated(defs, d, annotations), e)
    ensures Skipped(defs, d) <==> Skipped(defs, d.(annotations := annotations))
  {
    var d' := d.(annotations := annotations);
    var defs' := Annotated(defs, d, annotations);
    forall e ensures Skipped(defs, e) <==> Skipped(defs', e) {
      if o :| o in defs && o.kind == e.kind && Before(o, e) {
        assert if o == d then d' in defs' && Before(d', e) else o in defs';
      }
      if o :| o in defs' && o.kind == e.kind && Before(o, e) {
        assert if o == d' then d in defs && Before(d, e) else o in defs;
      }
    }
  }

  lemma SameViews(defs: set<Def>, d: Def, annotations: map<string, string>)
    requires d in defs && ReleaseAnnotations(d.annotations) == ReleaseAnnotations(annotations)
    ensures forall v :: Shows(defs, v) <==> Shows(Annotated(defs, d, annotations), v)
  {
    OwnershipStays(defs, d, annotations);
    var d' := d.(annotations := annotations);
    var defs' := Annotated(defs, d, annotations);
    forall v ensures Shows(defs, v) <==> Shows(defs', v) {
      if e :| e in defs && v == ViewOf(defs, e) {
        assert if e == d then d' in defs' && v == ViewOf(defs', d') else e in defs' && v == ViewOf(defs', e);
      }
      if e :| e in defs' && v == ViewOf(defs', e) {
        assert if e == d' then d in defs && v == ViewOf(defs, d) else e in defs && v == ViewOf(defs, e);
      }
    }
  }

  /** The API server lists the definitions in whatever order it likes. */
  method List(defs: set<Def>) returns (list: seq<Def>)
    ensures Elements(list) == defs && NoDuplicates(list)
  {
    list := [];
    var todo := defs;
    while todo != {}
      invariant todo <= defs && forall d :: d in list <==> d in defs && d !in todo
      invariant NoDuplicates(list)
      decreases todo
    {
      var d :| d in todo;
      list, todo := list + [d], todo - {d};
    }
  }

  /** computeConfigHash, up to the JSON and SHA-256 of the views. */
  method ComputeViews(list: seq<Def>) returns (views: seq<View>)
    requires UniqueNames(Elements(list)) && NoDuplicates(list)
    ensures IsViews(Elements(list), views)
  {
    var sorted := SortByName(list);
    assert Elements(sorted) == Elements(list);
    var owners := Owners(sorted);
    ghost var defs := Elements(list);
    views := [];
    for i := 0 to |sorted|
      invariant |views| == i && forall k | 0 <= k < i :: views[k] == ViewOf(defs, sorted[k])
    {
      var d := sorted[i];
      assert d in defs;
      if d.kind != "" {
        OwnerIsNotSkipped(defs, d, owners[d.kind]);
      }
      var skipped := d.kind != "" && owners[d.kind].name != d.name;
      views := views + [View(d.name, d.spec, ReleaseAnnotations(d.annotations), skipped)];
    }
    ViewsInOrder(defs, sorted, views);
  }

  lemma ViewsInOrder(defs: set<Def>, sorted: seq<Def>, views: seq<View>)
    requires AscendingDefs(sorted) && Elements(sorted) == defs
    requires |views| == |sorted| && forall k | 0 <= k < |sorted| :: views[k] == ViewOf(defs, sorted[k])
    ensures IsViews(defs, views)
  {
    forall d | d in defs ensures ViewOf(defs, d) in views {
      assert d in sorted;
      var k :| 0 <= k < |sorted| && sorted[k] == d;
      assert views[k] == ViewOf(defs, d);
    }
    forall v | v in views ensures exists d <- defs :: v == ViewOf(defs, d) {
      var k :| 0 <= k < |views| && views[k] == v;
      assert sorted[k] in defs;
    }
  }
}
