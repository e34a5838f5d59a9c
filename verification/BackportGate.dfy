/** The backport audit's verdicts, and the release gate built on them. */
module BackportGate {
  import opened Basics
  import opened BackportMatching
  import opened Sorting

  datatype Line = Line(major: int, minor: int)
  datatype Opening = Opening(line: Line, when: int)
  datatype Label = Current | Previous

  datatype MainPR = MainPR(title: string, mergedAt: int, merge: string, labels: set<Label>)
  datatype Comment = Comment(login: string, association: string, body: string)
  datatype Backport = Backport(number: nat, state: string, comments: seq<Comment>)

  datatype Status = Missed | Partial | Unverified | Pending | Dropped | Confirmed | Backported | InBranch
  datatype Verdict = Verdict(number: nat, request: Label, status: Status, missing: seq<Commit>)
  datatype Duplicate = OpenTwice | OpenAfterMerge
  datatype Report = Report(candidates: seq<Verdict>, duplicates: seq<(nat, Duplicate)>, unlabelled: seq<nat>)

  /** The commits a pull request contributed, by its merge commit; a failed read is None. */
  type Source = string -> Option<seq<Commit>>

  // ---------------------------------------------------------------- which lines were open

  predicate Below(a: Line, b: Line) {
    if a.major != b.major then a.major < b.major else a.minor < b.minor
  }

  /** The lines that had opened by then. */
  ghost function Live(openings: seq<Opening>, when: int): multiset<Line> {
    if openings == [] then multiset{}
    else
      var last := openings[|openings| - 1];
      Live(openings[..|openings| - 1], when) + if last.when <= when then multiset{last.line} else multiset{}
  }

  /** A line counts from the moment it opens. */
  lemma {:induction false} LiveMeans(openings: seq<Opening>, when: int, l: Line)
    ensures l in Live(openings, when) <==> exists o <- openings :: o.line == l && o.when <= when
  {
    if openings != [] {
      var front, last := openings[..|openings| - 1], openings[|openings| - 1];
      LiveMeans(front, when, l);
      assert openings == front + [last];
    }
  }

  /** The highest line of a collection, if there is one. */
  ghost predicate IsTop(top: Option<Line>, lines: multiset<Line>) {
    match top
    case None => lines == multiset{}
    case Some(l) =>
      && l in lines
      && forall other <- lines :: other.major < l.major || (other.major == l.major && other.minor <= l.minor)
  }

  ghost predicate IsCurrent(openings: seq<Opening>, when: int, l: Line) {
    IsTop(Some(l), Live(openings, when))
  }

  ghost predicate IsPrevious(openings: seq<Opening>, when: int, l: Line) {
    exists c :: IsCurrent(openings, when, c) && IsTop(Some(l), Live(openings, when) - multiset{c})
  }

  lemma TopIsUnique(a: Option<Line>, b: Option<Line>, lines: multiset<Line>)
    requires IsTop(a, lines) && IsTop(b, lines)
    ensures a == b
  {
  }

  lemma PreviousIsUnique(openings: seq<Opening>, when: int, current: Option<Line>, previous: Option<Line>, want: Line)
    requires IsTop(current, Live(openings, when)) && (current.None? ==> previous.None?)
    requires current.Some? ==> IsTop(previous, Live(openings, when) - multiset{current.value})
    ensures IsPrevious(openings, when, want) <==> previous == Some(want)
  {
    if c :| IsCurrent(openings, when, c) && IsTop(Some(want), Live(openings, when) - multiset{c}) {
      TopIsUnique(current, Some(c), Live(openings, when));
      TopIsUnique(previous, Some(want), Live(openings, when) - multiset{c});
    }
    if previous == Some(want) {
      assert IsCurrent(openings, when, current.value);
    }
  }

  predicate Descending(s: seq<Line>) {
    forall i, j | 0 <= i < j < |s| :: !Below(s[i], s[j])
  }

  /** targetsAt: the highest and second-highest lines open at a moment. */
  method TargetsAt(openings: seq<Opening>, when: int) returns (current: Option<Line>, previous: Option<Line>)
    ensures IsTop(current, Live(openings, when))
    ensures current.None? ==> previous.None?
    ensures current.Some? ==> IsTop(previous, Live(openings, when) - multiset{current.value})
  {
    var live := LiveLines(openings, when);
    TopOfSorted(live);
    current, previous := None, None;
    if |live| > 0 {
      current := Some(live[0]);
      RestOfSorted(live);
      if |live| > 1 {
        previous := Some(live[1]);
      }
    }
  }

  predicate Above(a: Line, b: Line) {
    Below(b, a)
  }

  lemma HighestFirst()
    ensures Comparison(Above)
  {
  }

  /** The lines open at a moment, highest first. */
  method LiveLines(openings: seq<Opening>, when: int) returns (live: seq<Line>)
    ensures Descending(live) && multiset(live) == Live(openings, when)
  {
    live := [];
    for i := 0 to |openings|
      invariant multiset(live) == Live(openings[..i], when)
    {
      assert openings[..i + 1][..i] == openings[..i];
      if openings[i].when <= when {
        live := live + [openings[i].line];
      }
    }
    assert openings[..|openings|] == openings;
    HighestFirst();
    live := Sort(Above, live);
  }

  lemma RestOfSorted(s: seq<Line>)
    requires Descending(s) && s != []
    ensures IsTop(if |s| == 1 then None else Some(s[1]), multiset(s) - multiset{s[0]})
  {
    assert s == [s[0]] + s[1..];
    assert multiset(s) - multiset{s[0]} == multiset(s[1..]);
    TopOfSorted(s[1..]);
  }

  lemma TopOfSorted(s: seq<Line>)
    requires Descending(s)
    ensures IsTop(if s == [] then None else Some(s[0]), multiset(s))
  {
    forall other | other in multiset(s) ensures !Below(s[0], other) {
      var j :| 0 <= j < |s| && s[j] == other;
    }
  }

  /** The request under which a pull request belongs to a line: what its request meant when it merged. */
  ghost predicate Requests(pr: MainPR, openings: seq<Opening>, want: Line, request: Label) {
    match request
    case Current => Current in pr.labels && IsCurrent(openings, pr.mergedAt, want)
    case Previous => Previous in pr.labels && IsPrevious(openings, pr.mergedAt, want)
  }

  ghost predicate IsCandidate(pr: MainPR, openings: seq<Opening>, want: Line) {
    Requests(pr, openings, want, Current) || Requests(pr, openings, want, Previous)
  }

  method CandidateLabel(pr: MainPR, openings: seq<Opening>, want: Line) returns (request: Option<Label>)
    ensures request.Some? ==> Requests(pr, openings, want, request.value)
    ensures request == Some(Current) <==> Requests(pr, openings, want, Current)
    ensures request.None? <==> !IsCandidate(pr, openings, want)
  {
    var current, previous := TargetsAt(openings, pr.mergedAt);
    assert IsCurrent(openings, pr.mergedAt, want) <==> current == Some(want) by {
      if IsCurrent(openings, pr.mergedAt, want) { TopIsUnique(current, Some(want), Live(openings, pr.mergedAt)); }
    }
    assert IsPrevious(openings, pr.mergedAt, want) <==> previous == Some(want) by {
      PreviousIsUnique(openings, pr.mergedAt, current, previous, want);
    }
    if Current in pr.labels && current == Some(want) { return Some(Current); }
    if Previous in pr.labels && previous == Some(want) { return Some(Previous); }
    return None;
  }

  // ---------------------------------------------------------------- attestations

  function Lower(s: string): string {
    seq(|s|, i requires 0 <= i < |s| => if 'A' <= s[i] <= 'Z' then (s[i] - 'A') + 'a' else s[i])
  }

  predicate EndsWith(s: string, suffix: string) {
    |suffix| <= |s| && s[|s| - |suffix|..] == suffix
  }

  /** Bots that gh reports without the suffix. */
  const KNOWN_BOTS := {
    "github-actions", "coderabbitai", "dependabot", "renovate", "copilot", "copilot-pull-request-reviewer", "dosubot",
    "gemini-code-assist"}

  predicate BotAuthor(login: string) {
    var l := Lower(login);
    EndsWith(l, "[bot]") || l in KNOWN_BOTS
  }

  const CONFIRM_MARKER := "backport-audit: complete"

  /** The marker and nothing else: blank lines before it, white space after it. */
  ghost predicate MarkerComment(body: string) {
    exists before, after :: MarkedWith(body, before, after)
  }

  predicate LineEnd(c: char) {
    c == '\r' || c == '\n'
  }

  predicate Blank(c: char) {
    c == ' ' || c == '\t' || LineEnd(c)
  }

  predicate AllLineEnds(s: string) {
    forall i | 0 <= i < |s| :: LineEnd(s[i])
  }

  predicate AllBlank(s: string) {
    forall i | 0 <= i < |s| :: Blank(s[i])
  }

  predicate MarkedWith(body: string, before: string, after: string) {
    && body == before + CONFIRM_MARKER + after
    && AllLineEnds(before) && AllBlank(after)
  }

  predicate Maintains(association: string) {
    association in {"OWNER", "MEMBER", "COLLABORATOR"}
  }

  ghost predicate Attests(c: Comment) {
    && MarkerComment(c.body)
    && Lower(c.login) !in KNOWN_BOTS && !(exists name: string :: Lower(c.login) == name + "[bot]")
    && (c.association == "OWNER" || c.association == "MEMBER" || c.association == "COLLABORATOR")
  }

  ghost predicate Attested(prs: seq<Backport>) {
    exists b <- prs :: b.state == "MERGED" && exists c <- b.comments :: Attests(c)
  }

  method IsMarkerComment(body: string) returns (yes: bool)
    ensures yes <==> MarkerComment(body)
  {
    var n := |body|;
    while n > 0 && Blank(body[n - 1])
      invariant 0 <= n <= |body| && AllBlank(body[n..])
    {
      assert body[n - 1..] == [body[n - 1]] + body[n..];
      n := n - 1;
    }
    yes := false;
    if EndsWith(body[..n], CONFIRM_MARKER) {
      var before := body[..n - |CONFIRM_MARKER|];
      yes := AllLineEnds(before);
      MarkerHere(body, n);
      assert yes ==> MarkedWith(body, before, body[n..]);
    }
    if before, after :| MarkedWith(body, before, after) {
      MarkerEndsAt(body, n, before, after);
    }
  }

  lemma MarkerHere(body: string, n: nat)
    requires n <= |body| && EndsWith(body[..n], CONFIRM_MARKER)
    ensures body == body[..n - |CONFIRM_MARKER|] + CONFIRM_MARKER + body[n..]
  {
    var m := n - |CONFIRM_MARKER|;
    assert body[..n] == body[..n][..m] + body[..n][m..];
    assert body == body[..n] + body[n..];
  }

  lemma MarkerEndsAt(body: string, n: nat, before: string, after: string)
    requires MarkedWith(body, before, after)
    requires n <= |body| && (n == 0 || !Blank(body[n - 1])) && AllBlank(body[n..])
    ensures EndsWith(body[..n], CONFIRM_MARKER) && body[..n - |CONFIRM_MARKER|] == before
  {
    var m := |before| + |CONFIRM_MARKER|;
    assert CONFIRM_MARKER[|CONFIRM_MARKER| - 1] == 'e';
    var head := before + CONFIRM_MARKER;
    assert |head| == m && body == head + after && head[m - 1] == 'e';
    assert body[m - 1] == 'e' && body[m..] == after && body[..m] == head;
    assert n == m;
  }

  lemma BotSuffix(l: string)
    ensures EndsWith(l, "[bot]") <==> exists name: string :: l == name + "[bot]"
  {
    if EndsWith(l, "[bot]") {
      assert l == l[..|l| - 5] + "[bot]";
    }
  }

  /** confirmedBy: whether a maintainer attested one of the merged backports. */
  method ConfirmedBy(prs: seq<Backport>) returns (confirmed: bool)
    ensures confirmed <==> Attested(prs)
  {
    for i := 0 to |prs|
      invariant forall k | 0 <= k < i && prs[k].state == "MERGED" :: forall c <- prs[k].comments :: !Attests(c)
    {
      if prs[i].state == "MERGED" {
        var comments := prs[i].comments;
        for j := 0 to |comments|
          invariant forall k | 0 <= k < j :: !Attests(comments[k])
        {
          var c := comments[j];
          var marker := IsMarkerComment(c.body);
          BotSuffix(Lower(c.login));
          if !BotAuthor(c.login) && Maintains(c.association) && marker {
            assert prs[i] in prs && c in comments && Attests(c);
            return true;
          }
        }
      }
    }
    return false;
  }

  // ---------------------------------------------------------------- one candidate

  predicate Outstanding(s: Status) {
    s in {Missed, Partial, Unverified, Pending, Dropped}
  }

  predicate SomeIn(state: string, prs: seq<Backport>) {
    exists b <- prs :: b.state == state
  }

  function BotSubject(h: History, pr: MainPR): string {
    "[Backport " + h.branch + "] " + pr.title
  }

  /** A backport merged: one of the linked pull requests did, or the bot's merge commit is there. */
  predicate BackportMerged(pr: MainPR, h: History, linked: seq<Backport>) {
    || SomeIn("MERGED", linked)
    || (var subject := TrimSpace("[Backport " + h.branch + "] " + pr.title);
        subject in h.subjects && h.subjects[subject] != [])
  }

  predicate AllCarried(pr: MainPR, h: History, cs: seq<Commit>) {
    cs != [] && Missing(h, cs, pr.merge, |cs|) == []
  }

  /** Carried commit by commit, or a single commit whose backport merged. */
  predicate Delivered(pr: MainPR, h: History, linked: seq<Backport>, cs: seq<Commit>) {
    AllCarried(pr, h, cs) || (|cs| <= 1 && BackportMerged(pr, h, linked))
  }

  /** What the gate accepts as a backport. */
  ghost predicate Settled(pr: MainPR, h: History, linked: seq<Backport>, source: Source) {
    || (pr.merge != "" && pr.merge in h.commits)
    || (source(pr.merge).Some? && (Delivered(pr, h, linked, source(pr.merge).value) || Attested(linked)))
  }

  /** classify: the verdict on one candidate. */
  method ClassifyPR(number: nat, pr: MainPR, request: Label, h: History, linked: seq<Backport>, source: Source)
    returns (r: Result<Verdict>)
    requires ListedOnce(h)
    ensures r.Err? <==> !Contains(h, pr.merge) && source(pr.merge).None?
    ensures r.Ok? ==> r.value.number == number && r.value.request == request
    ensures r.Ok? ==> (!Outstanding(r.value.status) <==> Settled(pr, h, linked, source))
    ensures r.Ok? ==> (r.value.status == InBranch <==> Contains(h, pr.merge))
    ensures r.Ok? ==>
        (r.value.status == Backported <==> !Contains(h, pr.merge) && Delivered(pr, h, linked, source(pr.merge).value))
    ensures r.Ok? && Outstanding(r.value.status) ==>
        var cs := source(pr.merge).value; var gaps := Missing(h, cs, pr.merge, |cs|);
              && (r.value.status == Partial <==> |gaps| < |cs|)
              && (r.value.status == Unverified <==> |gaps| == |cs| && BackportMerged(pr, h, linked))
              && (r.value.status == Pending
                  <==> |gaps| == |cs| && !BackportMerged(pr, h, linked) && SomeIn("OPEN", linked))
              && (r.value.status == Missed
                  <==> && |gaps| == |cs| && !BackportMerged(pr, h, linked)
                       && !SomeIn("OPEN", linked) && !SomeIn("CLOSED", linked))
              && (r.value.status in {Partial, Unverified} ==> r.value.missing == gaps)
  {
    if Contains(h, pr.merge) { return Ok(Verdict(number, request, InBranch, [])); }
    var merged, open := false, false;
    for i := 0 to |linked|
      invariant merged <==> exists k | 0 <= k < i :: linked[k].state == "MERGED"
      invariant open <==> exists k | 0 <= k < i :: linked[k].state == "OPEN"
    {
      if linked[i].state == "MERGED" { merged := true; }
      else if linked[i].state == "OPEN" { open := true; }
    }
    merged := merged || HasSubject(h, BotSubject(h, pr));
    if source(pr.merge).None? { return Err; }
    var cs := source(pr.merge).value;
    var missing := MissingFrom(h, cs, pr.merge);
    MissingFits(h, cs, pr.merge, |cs|);
    r := Ok(Judge(number, request, |cs|, missing, merged, open, SomeIn("CLOSED", linked)));
    if r.value.status in {Partial, Unverified} {
      var confirmed := ConfirmedBy(linked);
      if confirmed {
        r := Ok(r.value.(status := Confirmed));
      }
    }
  }

  /** The switch at the end of classify, before an attestation is looked for. */
  function Judge(number: nat, request: Label, n: nat, missing: seq<Commit>, merged: bool, open: bool, closed: bool)
    : Verdict
  {
    if n > 0 && missing == [] then Verdict(number, request, Backported, [])
    else if n <= 1 && merged then Verdict(number, request, Backported, [])
    else if |missing| < n then Verdict(number, request, Partial, missing)
    else if merged then Verdict(number, request, Unverified, missing)
    else if open then Verdict(number, request, Pending, [])
    else if closed then Verdict(number, request, Dropped, [])
    else Verdict(number, request, Missed, [])
  }

  lemma {:induction false} MissingFits(h: History, cs: seq<Commit>, merge: string, n: nat)
    requires n <= |cs|
    ensures |Missing(h, cs, merge, n)| <= n
  {
    if n > 0 {
      MissingFits(h, cs, merge, n - 1);
    }
  }

  // ---------------------------------------------------------------- the gate

  function DuplicateKind(open: nat, merged: nat): Option<Duplicate> {
    if open > 0 && merged > 0 then Some(OpenAfterMerge)
    else if open > 1 then Some(OpenTwice)
    else None
  }

  function CountIn(state: string, claims: seq<Backport>): nat {
    if claims == [] then 0
    else CountIn(state, claims[..|claims| - 1]) + if claims[|claims| - 1].state == state then 1 else 0
  }

  /** At most one live backport claims each original. */
  predicate OneLive(claims: seq<Backport>) {
    CountIn("OPEN", claims) <= 1 && (CountIn("OPEN", claims) == 0 || CountIn("MERGED", claims) == 0)
  }

  function KindOf(claims: seq<Backport>): Option<Duplicate> {
    DuplicateKind(CountIn("OPEN", claims), CountIn("MERGED", claims))
  }

  method DuplicateOf(claims: seq<Backport>) returns (kind: Option<Duplicate>)
    ensures kind == KindOf(claims)
    ensures kind == Some(OpenAfterMerge) <==> CountIn("OPEN", claims) > 0 && CountIn("MERGED", claims) > 0
    ensures kind.None? <==> OneLive(claims)
  {
    var open, merged := 0, 0;
    for i := 0 to |claims|
      invariant open == CountIn("OPEN", claims[..i]) && merged == CountIn("MERGED", claims[..i])
    {
      assert claims[..i + 1][..i] == claims[..i];
      if claims[i].state == "OPEN" { open := open + 1; }
      else if claims[i].state == "MERGED" { merged := merged + 1; }
    }
    assert claims[..|claims|] == claims;
    kind := DuplicateKind(open, merged);
  }

  /** crossCheck: claims read from the side of the originals. */
  method CrossCheck(index: map<nat, seq<Backport>>, audited: set<nat>)
    returns (unlabelled: seq<nat>, duplicates: seq<(nat, Duplicate)>)
    ensures forall n: nat :: n in unlabelled <==> n in index && n !in audited
    ensures forall n: nat, kind :: (n, kind) in duplicates <==> n in index && KindOf(index[n]) == Some(kind)
    ensures duplicates == [] <==> forall n <- index :: OneLive(index[n])
  {
    unlabelled, duplicates := [], [];
    var todo := index.Keys;
    while todo != {}
      invariant todo <= index.Keys
      invariant forall n: nat :: n in unlabelled <==> n in index && n !in todo && n !in audited
      invariant forall n: nat, kind ::
        (n, kind) in duplicates <==> n in index && n !in todo && KindOf(index[n]) == Some(kind)
      invariant duplicates == [] <==> forall n <- index :: n !in todo ==> OneLive(index[n])
      decreases todo
    {
      var n: nat :| n in todo;
      if n !in audited {
        unlabelled := unlabelled + [n];
      }
      var kind := DuplicateOf(index[n]);
      if kind.Some? {
        duplicates := duplicates + [(n, kind.value)];
      }
      todo := todo - {n};
    }
  }

  predicate Clean(r: Report) {
    (forall v <- r.candidates :: !Outstanding(v.status)) && r.duplicates == []
  }

  function Claims(index: map<nat, seq<Backport>>, n: nat): seq<Backport> {
    if n in index then index[n] else []
  }

  /** A candidate outside the branch whose commits cannot be read. */
  ghost predicate Unjudged(pr: MainPR, h: History, openings: seq<Opening>, want: Line, source: Source) {
    IsCandidate(pr, openings, want) && !Contains(h, pr.merge) && source(pr.merge).None?
  }

  /** audit: one verdict for each candidate of the line, or an error when a candidate's commits
      cannot be read. A clean report means that every candidate is settled, and is clean only then. */
  method Audit(h: History, index: map<nat, seq<Backport>>, cands: map<nat, MainPR>, openings: seq<Opening>, want: Line,
      source: Source)
    returns (r: Result<Report>)
    requires ListedOnce(h)
    ensures r.Ok? ==>
      (Clean(r.value) <==>
        && (forall n <- cands :: IsCandidate(cands[n], openings, want) ==>
            Settled(cands[n], h, Claims(index, n), source))
        && (forall n <- index :: OneLive(index[n])))
    ensures r.Ok? ==> forall n <- cands ::
      IsCandidate(cands[n], openings, want) <==> exists v <- r.value.candidates :: v.number == n
    ensures r.Ok? ==> forall n: nat :: n in r.value.unlabelled <==>
      n in index && !(n in cands && IsCandidate(cands[n], openings, want))
    ensures r.Err? <==> exists n <- cands :: Unjudged(cands[n], h, openings, want, source)
  {
    var results: seq<Verdict>, audited: set<nat> := [], {};
    var todo := cands.Keys;
    while todo != {}
      invariant todo <= cands.Keys
      invariant forall n <- cands.Keys - todo ::
        IsCandidate(cands[n], openings, want) <==> exists v <- results :: v.number == n
      invariant forall n <- cands.Keys - todo :: !Unjudged(cands[n], h, openings, want, source)
      invariant forall n :: n in audited <==> n in cands.Keys - todo && IsCandidate(cands[n], openings, want)
      invariant forall v <- results :: v.number in cands.Keys - todo
      invariant forall v <- results ::
        !Outstanding(v.status) <==> Settled(cands[v.number], h, Claims(index, v.number), source)
      decreases todo
    {
      var n: nat :| n in todo;
      var request := CandidateLabel(cands[n], openings, want);
      if request.Some? {
        audited := audited + {n};
        var v := ClassifyPR(n, cands[n], request.value, h, Claims(index, n), source);
        if v.Err? { return Err; }
        ghost var was := results;
        results := results + [v.value];
        assert results[|was|].number == n;
      }
      todo := todo - {n};
    }
    var unlabelled, duplicates := CrossCheck(index, audited);
    r := Ok(Report(results, duplicates, unlabelled));
  }
}
