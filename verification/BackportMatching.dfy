/** The backport audit's evidence: which commits of a pull request a release branch carries. */
module BackportMatching {
  import opened Sorting

  datatype Commit = Commit(oid: string, subject: string)

  /** commits: everything reachable. subjects and refs: the commits outside main, by trimmed
      subject, and the -x references each one carries. */
  datatype History = History(
    branch: string, commits: set<string>, subjects: map<string, seq<string>>, refs: map<string, seq<string>>)

  predicate IsSpace(c: char) {
    c in " \t\n\r\U{0b}\U{0c}\U{85}\U{a0}\U{1680}\U{2028}\U{2029}\U{202f}\U{205f}\U{3000}"
    || '\U{2000}' <= c <= '\U{200a}'
  }

  function Trim(blank: char -> bool, s: string): (r: string)
    decreases |s|
  {
    if s == [] then s
    else if blank(s[0]) then Trim(blank, s[1..])
    else if blank(s[|s| - 1]) then Trim(blank, s[..|s| - 1])
    else s
  }

  function TrimSpace(s: string): string {
    Trim(IsSpace, s)
  }

  predicate Contains(h: History, oid: string) {
    oid != "" && oid in h.commits
  }

  function Refs(h: History, b: string): seq<string> {
    if b in h.refs then h.refs[b] else []
  }

  function Listed(h: History, subject: string): seq<string> {
    if subject in h.subjects then h.subjects[subject] else []
  }

  predicate HasSubject(h: History, subject: string) {
    Listed(h, TrimSpace(subject)) != []
  }

  /** An -x reference may abbreviate, so either name may be a prefix of the other. */
  predicate SameCommit(a: string, b: string) {
    a != "" && b != "" && (a <= b || b <= a)
  }

  predicate NamesOnly(h: History, b: string, commit: string) {
    forall r <- Refs(h, b) :: SameCommit(r, commit)
  }

  /** The branch has the commit itself, or a branch commit's -x reference names it. */
  predicate Direct(h: History, c: Commit) {
    Contains(h, c.oid) || exists b <- h.refs, r <- h.refs[b] :: SameCommit(c.oid, r)
  }

  function Subject(c: Commit): string {
    TrimSpace(c.subject)
  }

  // ---------------------------------------------------------------- the closed form

  function Own(h: History, cs: seq<Commit>): set<string> {
    set c | c in cs && Contains(h, c.oid) :: c.oid
  }

  /** A branch commit left over for subject evidence. */
  predicate Spare(h: History, cs: seq<Commit>, merge: string, b: string) {
    b !in Own(h, cs) && NamesOnly(h, b, merge)
  }

  function Spares(h: History, cs: seq<Commit>, merge: string, listed: seq<string>): seq<string> {
    if listed == [] then []
    else
      var front, last := listed[..|listed| - 1], listed[|listed| - 1];
      Spares(h, cs, merge, front) + if Spare(h, cs, merge, last) then [last] else []
  }

  function Supply(h: History, cs: seq<Commit>, merge: string, subject: string): seq<string> {
    Spares(h, cs, merge, Listed(h, subject))
  }

  /** How many of the first n commits share a subject and have no direct evidence. */
  function Needs(h: History, cs: seq<Commit>, subject: string, n: nat): nat
    requires n <= |cs|
  {
    if n == 0 then 0
    else Needs(h, cs, subject, n - 1) + if Wants(h, cs[n - 1], subject) then 1 else 0
  }

  predicate Wants(h: History, c: Commit, subject: string) {
    Subject(c) == subject && !Direct(h, c)
  }

  /** Commit i is missing: no direct evidence, and the spare commits of its subject all went to
      commits before it. */
  predicate MissingAt(h: History, cs: seq<Commit>, merge: string, i: nat)
    requires i < |cs|
  {
    !Direct(h, cs[i]) && Needs(h, cs, Subject(cs[i]), i) >= |Supply(h, cs, merge, Subject(cs[i]))|
  }

  function Missing(h: History, cs: seq<Commit>, merge: string, n: nat): seq<Commit>
    requires n <= |cs|
  {
    if n == 0 then []
    else Missing(h, cs, merge, n - 1) + if MissingAt(h, cs, merge, n - 1) then [cs[n - 1]] else []
  }

  /** Each branch commit is listed once, under one subject. */
  ghost predicate ListedOnce(h: History) {
    && (forall s :: NoDuplicates(Listed(h, s)))
    && (forall s, t, b | b in Listed(h, s) && b in Listed(h, t) :: s == t)
  }

  lemma {:induction false} SparesFacts(h: History, cs: seq<Commit>, merge: string, listed: seq<string>)
    ensures forall b :: b in Spares(h, cs, merge, listed) <==> b in listed && Spare(h, cs, merge, b)
  {
    if listed != [] {
      var front, last := listed[..|listed| - 1], listed[|listed| - 1];
      SparesFacts(h, cs, merge, front);
      assert listed == front + [last];
    }
  }

  lemma {:induction false} SparesDistinct(h: History, cs: seq<Commit>, merge: string, listed: seq<string>)
    requires NoDuplicates(listed)
    ensures NoDuplicates(Spares(h, cs, merge, listed))
  {
    if listed != [] {
      var front, last := listed[..|listed| - 1], listed[|listed| - 1];
      SparesDistinct(h, cs, merge, front);
      SparesFacts(h, cs, merge, front);
      assert last !in front;
      forall i | 0 <= i < |Spares(h, cs, merge, front)| ensures Spares(h, cs, merge, front)[i] != last {
        assert Spares(h, cs, merge, front)[i] in Spares(h, cs, merge, front);
      }
    }
  }

  lemma {:induction false} SparesOfPrefix(h: History, cs: seq<Commit>, merge: string, listed: seq<string>, p: nat)
    requires p <= |listed|
    ensures Spares(h, cs, merge, listed[..p]) <= Spares(h, cs, merge, listed)
    decreases |listed| - p
  {
    if p == |listed| {
      assert listed[..p] == listed;
    } else {
      assert listed[..p + 1][..p] == listed[..p];
      SparesOfPrefix(h, cs, merge, listed, p + 1);
    }
  }

  lemma SupplyFacts(h: History, cs: seq<Commit>, merge: string, subject: string)
    requires ListedOnce(h)
    ensures var s := Supply(h, cs, merge, subject);
            && NoDuplicates(s)
            && (forall b :: b in s <==> b in Listed(h, subject) && Spare(h, cs, merge, b))
  {
    SparesDistinct(h, cs, merge, Listed(h, subject));
    SparesFacts(h, cs, merge, Listed(h, subject));
  }

  // ---------------------------------------------------------------- missingFrom

  /** What the second loop has spent before commit i. */
  ghost predicate SpentBy(h: History, cs: seq<Commit>, merge: string, i: nat, spent: set<string>)
    requires i <= |cs|
  {
    forall s, k | 0 <= k < |Supply(h, cs, merge, s)| :: Supply(h, cs, merge, s)[k] in spent <==> k < Needs(h, cs, s, i)
  }

  method DirectEvidence(h: History, cs: seq<Commit>) returns (carried: seq<bool>, spent: set<string>)
    ensures |carried| == |cs| && forall i | 0 <= i < |cs| :: carried[i] == Direct(h, cs[i])
    ensures spent == Own(h, cs)
  {
    carried, spent := [], {};
    for i := 0 to |cs|
      invariant |carried| == i && forall j | 0 <= j < i :: carried[j] == Direct(h, cs[j])
      invariant spent == set j | 0 <= j < i && Contains(h, cs[j].oid) :: cs[j].oid
    {
      var here := Contains(h, cs[i].oid);
      if here {
        spent := spent + {cs[i].oid};
      }
      var todo := h.refs.Keys;
      while todo != {}
        invariant todo <= h.refs.Keys
        invariant here == (Contains(h, cs[i].oid)
                           || exists b <- h.refs.Keys - todo, r <- h.refs[b] :: SameCommit(cs[i].oid, r))
        decreases todo
      {
        var b :| b in todo;
        for k := 0 to |h.refs[b]|
          invariant here == (Contains(h, cs[i].oid)
                             || (exists b <- h.refs.Keys - todo, r <- h.refs[b] :: SameCommit(cs[i].oid, r))
                             || exists j | 0 <= j < k :: SameCommit(cs[i].oid, h.refs[b][j]))
        {
          if SameCommit(cs[i].oid, h.refs[b][k]) {
            here := true;
          }
        }
        todo := todo - {b};
      }
      carried := carried + [here];
    }
  }

  /** Reading one more listed commit finds the next spare one, or none. */
  lemma NextSpare(h: History, cs: seq<Commit>, merge: string, listed: seq<string>, p: nat)
    requires p < |listed|
    ensures var q := |Spares(h, cs, merge, listed[..p])|;
            |Spares(h, cs, merge, listed[..p + 1])| == (if Spare(h, cs, merge, listed[p]) then q + 1 else q)
            && (Spare(h, cs, merge, listed[p]) ==>
                q < |Spares(h, cs, merge, listed)| && Spares(h, cs, merge, listed)[q] == listed[p])
  {
    SparesOfPrefix(h, cs, merge, listed, p + 1);
    assert listed[..p + 1][..p] == listed[..p];
  }

  /** The inner loop: the first listed commit that is spare and unspent. */
  method FirstUnspent(h: History, cs: seq<Commit>, merge: string, listed: seq<string>, spent: set<string>,
      ghost need: nat)
    returns (found: bool, b: string)
    requires Own(h, cs) <= spent
    requires forall k | 0 <= k < |Spares(h, cs, merge, listed)| ::
      Spares(h, cs, merge, listed)[k] in spent <==> k < need
    ensures found <==> need < |Spares(h, cs, merge, listed)|
    ensures found ==> b == Spares(h, cs, merge, listed)[need]
  {
    found, b := false, "";
    for p := 0 to |listed|
      invariant |Spares(h, cs, merge, listed[..p])| <= need
    {
      NextSpare(h, cs, merge, listed, p);
      if listed[p] !in spent && NamesOnly(h, listed[p], merge) {
        return true, listed[p];
      }
    }
    assert listed[..|listed|] == listed;
  }

  /** One turn of the second loop: the first spare commit of the subject still unspent, if any. */
  method SpendOn(h: History, cs: seq<Commit>, merge: string, i: nat, spent: set<string>)
    returns (carried: bool, spent': set<string>)
    requires i < |cs| && ListedOnce(h) && !Direct(h, cs[i])
    requires Own(h, cs) <= spent && SpentBy(h, cs, merge, i, spent)
    ensures carried <==> !MissingAt(h, cs, merge, i)
    ensures Own(h, cs) <= spent' && SpentBy(h, cs, merge, i + 1, spent')
  {
    spent' := spent;
    var subject := Subject(cs[i]);
    assert Supply(h, cs, merge, subject) == Spares(h, cs, merge, Listed(h, subject));
    var b: string;
    carried, b := FirstUnspent(h, cs, merge, Listed(h, subject), spent, Needs(h, cs, subject, i));
    if carried {
      spent' := spent + {b};
      OnlyOneSpent(h, cs, merge, i, spent);
    }
  }

  /** Spending the next spare commit of a subject advances that subject alone. */
  lemma OnlyOneSpent(h: History, cs: seq<Commit>, merge: string, i: nat, spent: set<string>)
    requires i < |cs| && ListedOnce(h) && !Direct(h, cs[i]) && SpentBy(h, cs, merge, i, spent)
    requires !MissingAt(h, cs, merge, i)
    ensures var s := Subject(cs[i]); SpentBy(h, cs, merge, i + 1, spent + {Supply(h, cs, merge, s)[Needs(h, cs, s, i)]})
  {
    var subject, at := Subject(cs[i]), Needs(h, cs, Subject(cs[i]), i);
    forall s, k | 0 <= k < |Supply(h, cs, merge, s)|
      ensures Supply(h, cs, merge, s)[k] == Supply(h, cs, merge, subject)[at] <==> s == subject && k == at
    {
      SupplyOnce(h, cs, merge, s, k, subject, at);
    }
  }

  lemma SupplyOnce(h: History, cs: seq<Commit>, merge: string, s: string, k: nat, t: string, l: nat)
    requires ListedOnce(h) && k < |Supply(h, cs, merge, s)| && l < |Supply(h, cs, merge, t)|
    ensures Supply(h, cs, merge, s)[k] == Supply(h, cs, merge, t)[l] <==> s == t && k == l
  {
    SupplyFacts(h, cs, merge, s);
    SupplyFacts(h, cs, merge, t);
    assert Supply(h, cs, merge, s)[k] in Listed(h, s) && Supply(h, cs, merge, t)[l] in Listed(h, t);
  }

  /** missingFrom: the commits of the pull request the branch does not carry, in order. */
  method MissingFrom(h: History, cs: seq<Commit>, merge: string) returns (missing: seq<Commit>)
    requires ListedOnce(h)
    ensures missing == Missing(h, cs, merge, |cs|)
  {
    var carried, spent := DirectEvidence(h, cs);
    missing := [];
    NothingSpentYet(h, cs, merge);
    for i := 0 to |cs|
      invariant Own(h, cs) <= spent && SpentBy(h, cs, merge, i, spent)
      invariant missing == Missing(h, cs, merge, i)
    {
      var here := carried[i];
      if !here {
        here, spent := SpendOn(h, cs, merge, i, spent);
      }
      if !here {
        missing := missing + [cs[i]];
      }
    }
  }

  lemma NothingSpentYet(h: History, cs: seq<Commit>, merge: string)
    requires ListedOnce(h)
    ensures SpentBy(h, cs, merge, 0, Own(h, cs))
  {
    forall s, k | 0 <= k < |Supply(h, cs, merge, s)| ensures Supply(h, cs, merge, s)[k] !in Own(h, cs) {
      SupplyFacts(h, cs, merge, s);
      assert Supply(h, cs, merge, s)[k] in Supply(h, cs, merge, s);
    }
  }

  // ---------------------------------------------------------------- the matching is one to one and maximal

  /** A way to hand branch commits to pull-request commits: spare ones, of the right subject,
      no branch commit twice. */
  ghost predicate ValidAssignment(h: History, cs: seq<Commit>, merge: string, a: map<nat, string>) {
    && a.Keys <= Needy(h, cs)
    && (forall i <- a :: a[i] in Listed(h, Subject(cs[i])) && Spare(h, cs, merge, a[i]))
    && (forall i <- a, j <- a :: a[i] == a[j] ==> i == j)
  }

  ghost function Needy(h: History, cs: seq<Commit>): set<nat> {
    set i: nat | i < |cs| && !Direct(h, cs[i])
  }

  ghost function MissingSet(h: History, cs: seq<Commit>, merge: string): set<nat> {
    set i: nat | i < |cs| && MissingAt(h, cs, merge, i)
  }

  /** The assignment MissingFrom makes. */
  ghost function Greedy(h: History, cs: seq<Commit>, merge: string): map<nat, string> {
    map i | i in Needy(h, cs) && !MissingAt(h, cs, merge, i)
      :: Supply(h, cs, merge, Subject(cs[i]))[Needs(h, cs, Subject(cs[i]), i)]
  }

  lemma NeedsGrow(h: History, cs: seq<Commit>, i: nat, j: nat)
    requires i < j <= |cs| && !Direct(h, cs[i])
    ensures Needs(h, cs, Subject(cs[i]), i) < Needs(h, cs, Subject(cs[i]), j)
  {
    NeedsAreCounted(h, cs, Subject(cs[i]), i);
    NeedsAreCounted(h, cs, Subject(cs[i]), j);
    CountGrows(Wanting(h, cs, Subject(cs[i])), i, j);
  }

  /** The matching is injective and uses only valid evidence. */
  lemma GreedyAssigns(h: History, cs: seq<Commit>, merge: string)
    requires ListedOnce(h)
    ensures ValidAssignment(h, cs, merge, Greedy(h, cs, merge))
    ensures Greedy(h, cs, merge).Keys == Needy(h, cs) - MissingSet(h, cs, merge)
  {
    var a := Greedy(h, cs, merge);
    forall i | i in a ensures a[i] in Listed(h, Subject(cs[i])) && Spare(h, cs, merge, a[i]) {
      SupplyFacts(h, cs, merge, Subject(cs[i]));
    }
    forall i, j | i in a && j in a && a[i] == a[j] ensures i == j {
      var s, t := Subject(cs[i]), Subject(cs[j]);
      SupplyOnce(h, cs, merge, s, Needs(h, cs, s, i), t, Needs(h, cs, t, j));
      if i < j {
        NeedsGrow(h, cs, i, j);
      } else if j < i {
        NeedsGrow(h, cs, j, i);
      }
    }
  }

  ghost function Wanting(h: History, cs: seq<Commit>, subject: string): (r: seq<bool>)
    ensures |r| == |cs|
  {
    seq(|cs|, i requires 0 <= i < |cs| => Wants(h, cs[i], subject))
  }

  ghost function Count(want: seq<bool>, n: nat): nat
    requires n <= |want|
  {
    if n == 0 then 0 else Count(want, n - 1) + if want[n - 1] then 1 else 0
  }

  lemma {:induction false} NeedsAreCounted(h: History, cs: seq<Commit>, subject: string, n: nat)
    requires n <= |cs|
    ensures Needs(h, cs, subject, n) == Count(Wanting(h, cs, subject), n)
  {
    if n > 0 {
      NeedsAreCounted(h, cs, subject, n - 1);
    }
  }

  /** The first k positions marked, among the first n. */
  ghost function FirstMarked(want: seq<bool>, n: nat, k: nat): (r: set<nat>)
    requires n <= |want|
    ensures forall i <- r :: i < n
    ensures |r| == if Count(want, n) < k then Count(want, n) else k
  {
    if n == 0 then {}
    else
      var before := FirstMarked(want, n - 1, k);
      if want[n - 1] && Count(want, n - 1) < k then before + {n - 1} else before
  }

  lemma {:induction false} MarkedAre(want: seq<bool>, n: nat, k: nat, i: nat)
    requires n <= |want|
    ensures i in FirstMarked(want, n, k) <==> i < n && want[i] && Count(want, i) < k
  {
    if n > 0 {
      MarkedAre(want, n - 1, k, i);
    }
  }

  lemma {:induction false} CountGrows(want: seq<bool>, i: nat, n: nat)
    requires i < n <= |want| && want[i]
    ensures Count(want, i) < Count(want, n)
  {
    if i < n - 1 {
      CountGrows(want, i, n - 1);
    }
  }

  lemma {:induction false} Pigeonhole(keys: set<nat>, a: map<nat, string>, s: seq<string>)
    requires keys <= a.Keys && (forall i <- keys :: a[i] in s) && forall i <- keys, j <- keys :: a[i] == a[j] ==> i == j
    ensures |keys| <= |s|
    decreases |s|
  {
    if k :| k in keys {
      var p :| 0 <= p < |s| && s[p] == a[k];
      var rest := s[..p] + s[p + 1..];
      forall i | i in keys - {k} ensures a[i] in rest {
        var q :| 0 <= q < |s| && s[q] == a[i];
        assert q < p ==> rest[q] == a[i];
        assert q > p ==> rest[q - 1] == a[i];
      }
      Pigeonhole(keys - {k}, a, rest);
    }
  }

  ghost function About(cs: seq<Commit>, keys: set<nat>, subjects: set<string>): set<nat> {
    set i | i in keys && i < |cs| && Subject(cs[i]) in subjects
  }

  /** Within one subject no assignment serves more commits than the greedy one. */
  lemma NoBetterFor(h: History, cs: seq<Commit>, merge: string, a: map<nat, string>, s: string)
    requires ListedOnce(h) && ValidAssignment(h, cs, merge, a)
    ensures |About(cs, a.Keys, {s})| <= |About(cs, Greedy(h, cs, merge).Keys, {s})|
  {
    GreedyServes(h, cs, merge, s);
    var mine := About(cs, a.Keys, {s});
    WantedAtMost(Wanting(h, cs, s), mine);
    assert forall i <- mine :: a[i] in Listed(h, s) && Spare(h, cs, merge, a[i]);
    SupplyFacts(h, cs, merge, s);
    Pigeonhole(mine, a, Supply(h, cs, merge, s));
  }

  lemma WantedAtMost(want: seq<bool>, keys: set<nat>)
    requires forall i <- keys :: i < |want| && want[i]
    ensures |keys| <= Count(want, |want|)
  {
    var n := Count(want, |want|);
    forall i | i in keys ensures i in FirstMarked(want, |want|, n) {
      CountGrows(want, i, |want|);
      MarkedAre(want, |want|, n, i);
    }
    SubsetCount(keys, FirstMarked(want, |want|, n));
  }

  lemma GreedyServes(h: History, cs: seq<Commit>, merge: string, s: string)
    ensures About(cs, Greedy(h, cs, merge).Keys, {s}) == FirstMarked(Wanting(h, cs, s), |cs|, |Supply(h, cs, merge, s)|)
  {
    forall i: nat | i < |cs|
      ensures i in About(cs, Greedy(h, cs, merge).Keys, {s})
         <==> i in FirstMarked(Wanting(h, cs, s), |cs|, |Supply(h, cs, merge, s)|)
    {
      MarkedAre(Wanting(h, cs, s), |cs|, |Supply(h, cs, merge, s)|, i);
      NeedsAreCounted(h, cs, s, i);
    }
  }

  lemma {:induction false} SubsetCount(a: set<nat>, b: set<nat>)
    requires a <= b
    ensures |a| <= |b|
  {
    assert b == a + (b - a);
  }

  lemma SplitAbout(cs: seq<Commit>, keys: set<nat>, subjects: set<string>, s: string)
    requires s in subjects
    ensures |About(cs, keys, subjects)| == |About(cs, keys, {s})| + |About(cs, keys, subjects - {s})|
  {
    assert About(cs, keys, subjects) == About(cs, keys, {s}) + About(cs, keys, subjects - {s});
  }

  lemma {:induction false} NoBetterAcross(h: History, cs: seq<Commit>, merge: string, a: map<nat, string>,
      subjects: set<string>)
    requires ListedOnce(h) && ValidAssignment(h, cs, merge, a)
    ensures |About(cs, a.Keys, subjects)| <= |About(cs, Greedy(h, cs, merge).Keys, subjects)|
    decreases subjects
  {
    if s :| s in subjects {
      NoBetterAcross(h, cs, merge, a, subjects - {s});
      NoBetterFor(h, cs, merge, a, s);
      SplitAbout(cs, a.Keys, subjects, s);
      SplitAbout(cs, Greedy(h, cs, merge).Keys, subjects, s);
    } else {
      assert About(cs, a.Keys, subjects) == {};
    }
  }

  lemma AboutEverything(cs: seq<Commit>, keys: set<nat>)
    requires forall i <- keys :: i < |cs|
    ensures About(cs, keys, set c | c in cs :: Subject(c)) == keys
  {
  }

  ghost function Marks(h: History, cs: seq<Commit>, merge: string): (r: seq<bool>)
    ensures |r| == |cs|
  {
    seq(|cs|, i requires 0 <= i < |cs| => MissingAt(h, cs, merge, i))
  }

  lemma {:induction false} MissingAreCounted(h: History, cs: seq<Commit>, merge: string, n: nat, marks: seq<bool>)
    requires n <= |cs| == |marks| && forall i | 0 <= i < n :: marks[i] == MissingAt(h, cs, merge, i)
    ensures |Missing(h, cs, merge, n)| == Count(marks, n)
  {
    if n > 0 {
      MissingAreCounted(h, cs, merge, n - 1, marks);
      assert marks[n - 1] == MissingAt(h, cs, merge, n - 1);
    }
  }

  lemma MissingCount(h: History, cs: seq<Commit>, merge: string)
    ensures |MissingSet(h, cs, merge)| == |Missing(h, cs, merge, |cs|)|
  {
    var marks := Marks(h, cs, merge);
    var k := Count(marks, |cs|);
    MissingAreCounted(h, cs, merge, |cs|, marks);
    forall i: nat ensures i in MissingSet(h, cs, merge) <==> i in FirstMarked(marks, |cs|, k) {
      MarkedAre(marks, |cs|, k, i);
      if i < |cs| && marks[i] {
        CountGrows(marks, i, |cs|);
      }
    }
    assert MissingSet(h, cs, merge) == FirstMarked(marks, |cs|, k);
  }

  /** No assignment serves more commits than the greedy one. */
  lemma GreedyIsLargest(h: History, cs: seq<Commit>, merge: string, a: map<nat, string>)
    requires ListedOnce(h) && ValidAssignment(h, cs, merge, a)
    ensures |a.Keys| <= |Greedy(h, cs, merge).Keys|
  {
    NoBetterAcross(h, cs, merge, a, set c | c in cs :: Subject(c));
    AboutEverything(cs, a.Keys);
    AboutEverything(cs, Greedy(h, cs, merge).Keys);
  }

  lemma MissingIsLeftOver(h: History, cs: seq<Commit>, merge: string)
    ensures MissingSet(h, cs, merge) == Needy(h, cs) - Greedy(h, cs, merge).Keys
  {
  }

  /** No assignment of branch commits leaves fewer commits without evidence. */
  lemma MissingIsSmallest(h: History, cs: seq<Commit>, merge: string, a: map<nat, string>)
    requires ListedOnce(h) && ValidAssignment(h, cs, merge, a)
    ensures |Missing(h, cs, merge, |cs|)| <= |Needy(h, cs) - a.Keys|
    ensures |Missing(h, cs, merge, |cs|)| == |Needy(h, cs) - Greedy(h, cs, merge).Keys|
  {
    GreedyIsLargest(h, cs, merge, a);
    MissingIsLeftOver(h, cs, merge);
    MissingCount(h, cs, merge);
    LeftOver(Needy(h, cs), Greedy(h, cs, merge).Keys);
    LeftOver(Needy(h, cs), a.Keys);
  }

  lemma LeftOver(all: set<nat>, taken: set<nat>)
    requires taken <= all
    ensures |all - taken| == |all| - |taken|
  {
    assert all == taken + (all - taken);
  }

  // ---------------------------------------------------------------- more branch commits never hurt

  /** The branch gained commits; those it had keep their subjects and references. */
  ghost predicate Grew(was: History, now: History) {
    && was.commits <= now.commits
    && (forall s, b | b in Listed(was, s) :: b in Listed(now, s) && Refs(now, b) == Refs(was, b))
    && (forall b, r | r in Refs(was, b) :: r in Refs(now, b))
  }

  /** Commits listed by subject are on the branch, and have a name. */
  ghost predicate ListedAreOnBranch(h: History) {
    forall s, b | b in Listed(h, s) :: Contains(h, b)
  }

  lemma {:induction false} DistinctFits(a: seq<string>, b: seq<string>)
    requires NoDuplicates(a) && forall x <- a :: x in b
    ensures |a| <= |b|
    decreases |a|
  {
    if a != [] {
      var last := a[|a| - 1];
      assert last in a;
      var p :| 0 <= p < |b| && b[p] == last;
      var rest := b[..p] + b[p + 1..];
      forall i | 0 <= i < |a| - 1 ensures a[i] in rest {
        assert a[i] in a;
        var q :| 0 <= q < |b| && b[q] == a[i];
        assert q < p ==> rest[q] == a[i];
        assert q > p ==> rest[q - 1] == a[i];
      }
      DistinctFits(a[..|a| - 1], rest);
    }
  }

  lemma SupplyGrows(was: History, now: History, cs: seq<Commit>, merge: string, s: string)
    requires ListedOnce(was) && ListedOnce(now) && Grew(was, now) && ListedAreOnBranch(was)
    ensures |Supply(was, cs, merge, s)| <= |Supply(now, cs, merge, s)|
  {
    SupplyFacts(was, cs, merge, s);
    SupplyFacts(now, cs, merge, s);
    forall b | b in Supply(was, cs, merge, s) ensures b in Supply(now, cs, merge, s) {
      assert b in Listed(was, s) && Contains(was, b);
      assert Refs(now, b) == Refs(was, b);
      assert NamesOnly(now, b, merge);
      assert forall c <- cs :: c.oid == b ==> c.oid in Own(was, cs);
    }
    DistinctFits(Supply(was, cs, merge, s), Supply(now, cs, merge, s));
  }

  lemma {:induction false} NeedsShrink(was: History, now: History, cs: seq<Commit>, s: string, n: nat)
    requires Grew(was, now) && n <= |cs|
    ensures Needs(now, cs, s, n) <= Needs(was, cs, s, n)
  {
    if n > 0 {
      NeedsShrink(was, now, cs, s, n - 1);
      if Direct(was, cs[n - 1]) {
        DirectStays(was, now, cs[n - 1]);
      }
    }
  }

  lemma DirectStays(was: History, now: History, c: Commit)
    requires Grew(was, now) && Direct(was, c)
    ensures Direct(now, c)
  {
    if !Contains(was, c.oid) {
      var b, r :| b in was.refs && r in was.refs[b] && SameCommit(c.oid, r);
      assert r in Refs(was, b) && r in Refs(now, b);
    }
  }

  lemma MissingOnlyShrinks(was: History, now: History, cs: seq<Commit>, merge: string)
    requires ListedOnce(was) && ListedOnce(now) && Grew(was, now) && ListedAreOnBranch(was)
    ensures MissingSet(now, cs, merge) <= MissingSet(was, cs, merge)
  {
    forall i: nat | i < |cs| && MissingAt(now, cs, merge, i) ensures MissingAt(was, cs, merge, i) {
      if Direct(was, cs[i]) {
        DirectStays(was, now, cs[i]);
      }
      SupplyGrows(was, now, cs, merge, Subject(cs[i]));
      NeedsShrink(was, now, cs, Subject(cs[i]), i);
    }
  }

  // ---------------------------------------------------------------- reading a branch

  /** One entry of the log of the branch outside main. */
  datatype Entry = Entry(oid: string, subject: string, refs: seq<string>)

  ghost predicate FromLog(h: History, log: seq<Entry>) {
    && (forall s, b :: b in Listed(h, s) <==> exists e <- log :: e.oid == b && TrimSpace(e.subject) == s)
    && (forall s :: NoDuplicates(Listed(h, s)))
    && (forall e <- log :: Refs(h, e.oid) == e.refs)
  }

  /** newBranchHistory: a log that names each commit once lists each commit once. */
  method NewBranchHistory(branch: string, reachable: set<string>, log: seq<Entry>) returns (h: History)
    requires forall i, j | 0 <= i < j < |log| :: log[i].oid != log[j].oid
    requires forall e <- log :: e.oid != "" && e.oid in reachable
    ensures h.branch == branch && h.commits == reachable && FromLog(h, log)
    ensures ListedOnce(h) && ListedAreOnBranch(h)
  {
    h := History(branch, reachable, map[], map[]);
    for i := 0 to |log|
      invariant h.branch == branch && h.commits == reachable && FromLog(h, log[..i])
      invariant forall b <- h.refs :: exists j | 0 <= j < i :: log[j].oid == b
    {
      var e := log[i];
      var subject := TrimSpace(e.subject);
      ghost var was := h;
      assert e.oid !in h.refs;
      assert forall s :: e.oid !in Listed(h, s);
      h := h.(subjects := h.subjects[subject := Listed(h, subject) + [e.oid]]);
      if e.refs != [] {
        h := h.(refs := h.refs[e.oid := e.refs]);
      }
      LogGrows(was, h, log, i);
    }
    assert log[..|log|] == log;
    OnceFromLog(h, log);
  }

  lemma LogGrows(was: History, now: History, log: seq<Entry>, i: nat)
    requires i < |log| && FromLog(was, log[..i])
    requires forall j | 0 <= j < i :: log[j].oid != log[i].oid
    requires forall s :: Listed(now, s) == Listed(was, s) + if s == TrimSpace(log[i].subject) then [log[i].oid] else []
    requires forall b :: Refs(now, b) == if b == log[i].oid then log[i].refs else Refs(was, b)
    ensures FromLog(now, log[..i + 1])
  {
    assert log[..i + 1] == log[..i] + [log[i]];
    forall s ensures NoDuplicates(Listed(now, s)) {
      assert log[i].oid !in Listed(was, s);
    }
  }

  lemma OnceFromLog(h: History, log: seq<Entry>)
    requires forall i, j | 0 <= i < j < |log| :: log[i].oid != log[j].oid
    requires FromLog(h, log)
    ensures ListedOnce(h)
  {
    forall s, t, b | b in Listed(h, s) && b in Listed(h, t) ensures s == t {
      var e :| e in log && e.oid == b && TrimSpace(e.subject) == s;
      var f :| f in log && f.oid == b && TrimSpace(f.subject) == t;
    }
  }

  // ---------------------------------------------------------------- the same, in plain words

  /** Two object names, full or abbreviated, of what can be one commit: both given, and the same
      wherever both have a character. */
  predicate Agree(a: string, b: string) {
    a != "" && b != "" && forall k | 0 <= k < |a| && k < |b| :: a[k] == b[k]
  }

  /** The branch holds the commit, or a reference on the branch names it. */
  ghost predicate HasEvidence(h: History, c: Commit) {
    (c.oid != "" && c.oid in h.commits) || exists b <- h.refs, r <- h.refs[b] :: Agree(c.oid, r)
  }

  /** The commits whose evidence has to come from a subject. */
  ghost function WithoutEvidence(h: History, cs: seq<Commit>): set<nat> {
    set i: nat | i < |cs| && !HasEvidence(h, cs[i])
  }

  /** A branch commit that may stand for a pull-request commit by its subject alone: it is not itself
      one of the pull request's, and whatever it refers to is the merge commit. */
  ghost predicate Admissible(h: History, cs: seq<Commit>, merge: string, b: string) {
    && (forall c <- cs :: c.oid == b && b != "" ==> b !in h.commits)
    && (b in h.refs ==> forall r <- h.refs[b] :: Agree(r, merge))
  }

  /** What a maintainer would accept as a matching. */
  ghost predicate Matching(h: History, cs: seq<Commit>, merge: string, a: map<nat, string>) {
    && a.Keys <= WithoutEvidence(h, cs)
    && (forall i <- a :: TrimSpace(cs[i].subject) in h.subjects && a[i] in h.subjects[TrimSpace(cs[i].subject)]
                         && Admissible(h, cs, merge, a[i]))
    && (forall i <- a, j <- a :: a[i] == a[j] ==> i == j)
  }

  /** Symmetric, open to an abbreviation on either side, and false once a character differs. */
  lemma SameCommitMeans(a: string, b: string)
    ensures SameCommit(a, b) <==> Agree(a, b)
  {
    if Agree(a, b) {
      assert |a| <= |b| ==> a == b[..|a|];
      assert |b| <= |a| ==> b == a[..|b|];
    }
  }

  lemma DirectMeans(h: History, c: Commit)
    ensures Direct(h, c) <==> HasEvidence(h, c)
  {
    forall r ensures SameCommit(c.oid, r) <==> Agree(c.oid, r) { SameCommitMeans(c.oid, r); }
  }

  lemma SpareMeans(h: History, cs: seq<Commit>, merge: string, b: string)
    ensures Spare(h, cs, merge, b) <==> Admissible(h, cs, merge, b)
  {
    forall r ensures SameCommit(r, merge) <==> Agree(r, merge) { SameCommitMeans(r, merge); }
  }

  lemma NeedyMeans(h: History, cs: seq<Commit>)
    ensures Needy(h, cs) == WithoutEvidence(h, cs)
  {
    forall i: nat | i < |cs| ensures Direct(h, cs[i]) <==> HasEvidence(h, cs[i]) { DirectMeans(h, cs[i]); }
  }

  lemma AssignmentMeans(h: History, cs: seq<Commit>, merge: string, a: map<nat, string>)
    ensures ValidAssignment(h, cs, merge, a) <==> Matching(h, cs, merge, a)
  {
    NeedyMeans(h, cs);
    forall b ensures Spare(h, cs, merge, b) <==> Admissible(h, cs, merge, b) { SpareMeans(h, cs, merge, b); }
  }

  /** Every commit not reported missing has evidence of its own or its own branch commit, and no
      branch commit serves twice. */
  lemma GreedyIsAMatching(h: History, cs: seq<Commit>, merge: string)
    requires ListedOnce(h)
    ensures Matching(h, cs, merge, Greedy(h, cs, merge))
    ensures Greedy(h, cs, merge).Keys == WithoutEvidence(h, cs) - MissingSet(h, cs, merge)
  {
    GreedyAssigns(h, cs, merge);
    AssignmentMeans(h, cs, merge, Greedy(h, cs, merge));
    NeedyMeans(h, cs);
  }

  /** No matching leaves fewer commits without evidence. */
  lemma MissingIsMinimal(h: History, cs: seq<Commit>, merge: string, a: map<nat, string>)
    requires ListedOnce(h) && Matching(h, cs, merge, a)
    ensures |Missing(h, cs, merge, |cs|)| <= |WithoutEvidence(h, cs) - a.Keys|
    ensures |Missing(h, cs, merge, |cs|)| == |WithoutEvidence(h, cs) - Greedy(h, cs, merge).Keys|
  {
    AssignmentMeans(h, cs, merge, a);
    NeedyMeans(h, cs);
    MissingIsSmallest(h, cs, merge, a);
  }

  /** Within a subject the earlier commit is served first. */
  lemma ServedInOrder(h: History, cs: seq<Commit>, merge: string, i: nat, j: nat)
    requires i < j < |cs| && Subject(cs[i]) == Subject(cs[j]) && MissingAt(h, cs, merge, i) && !Direct(h, cs[j])
    ensures MissingAt(h, cs, merge, j)
  {
    NeedsGrow(h, cs, i, j);
  }

  /** The report names exactly the missing commits. */
  lemma {:induction false} MissingNames(h: History, cs: seq<Commit>, merge: string, n: nat)
    requires n <= |cs|
    ensures forall c ::
      c in Missing(h, cs, merge, n) <==> exists i: nat | i < n :: MissingAt(h, cs, merge, i) && cs[i] == c
  {
    if n > 0 {
      MissingNames(h, cs, merge, n - 1);
    }
  }

  /** Trimming takes off blank ends and nothing else. */
  lemma {:induction false} TrimMeans(blank: char -> bool, s: string) returns (i: nat, j: nat)
    ensures i <= j <= |s| && Trim(blank, s) == s[i..j]
    ensures forall k | 0 <= k < |s| && !(i <= k < j) :: blank(s[k])
    ensures i < j ==> !blank(s[i]) && !blank(s[j - 1])
    decreases |s|
  {
    if s == [] {
      i, j := 0, 0;
    } else if blank(s[0]) {
      i, j := TrimMeans(blank, s[1..]);
      assert s[1..][i..j] == s[i + 1..j + 1];
      assert forall k | 0 < k < |s| :: s[k] == s[1..][k - 1];
      i, j := i + 1, j + 1;
    } else if blank(s[|s| - 1]) {
      i, j := TrimMeans(blank, s[..|s| - 1]);
      assert s[..|s| - 1][i..j] == s[i..j];
    } else {
      i, j := 0, |s|;
      assert s[0..|s|] == s;
    }
  }
}
