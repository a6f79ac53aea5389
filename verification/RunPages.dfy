/** GET /v1/runs: filtering, ordering, lazy expansion and pages that are followed by a cursor
    (apps/api/src/app.ts). */
module RunPages {
  import opened Wrappers

  type RunId = nat

  /** An attempt row. Creation times and identifiers are compared the way their texts are. */
  datatype Run = Run(
    id: RunId, createdAt: nat, status: nat, reviewed: bool, project: nat, shot: nat, revision: Option<nat>)

  datatype Project = Project(autoCreated: bool)

  datatype Shot = Shot(pinned: Option<RunId>)

  /** A logged event: the attempt and shot of its columns, the run and the revisions its payload names, and
      whether it tells of the project's creation. */
  datatype LogEvent = LogEvent(
    run: Option<RunId>, shot: Option<nat>, payloadRun: Option<RunId>, revision: Option<nat>,
    workflowRevision: Option<nat>, creates: bool, sequence: Option<nat>)

  datatype Verdict = Passed | FailedEvaluation | NotRun

  /** The rows behind one request. Reading is repeatable within its transaction. */
  datatype Store = Store(
    runs: seq<Run>, projects: map<nat, Project>, shots: map<(nat, nat), Shot>, revisions: set<(nat, nat, nat)>,
    events: map<nat, seq<LogEvent>>, evaluations: map<RunId, Verdict>)

  datatype Filter = Filter(
    project: Option<nat>, status: Option<nat>, reviewed: Option<bool>, pinned: Option<bool>,
    evaluation: Option<Verdict>)

  datatype Aggregate = Aggregate(
    run: Run, project: Project, revision: Option<nat>, verdict: Verdict, pinned: bool, events: seq<LogEvent>)

  // ------------------------------------------------------------------------- one aggregate

  function FindProject(s: Store, project: nat): Option<Project> {
    if project in s.projects then Some(s.projects[project]) else None
  }

  function FindShot(s: Store, key: (nat, nat)): Option<Shot> {
    if key in s.shots then Some(s.shots[key]) else None
  }

  function EventsOf(s: Store, project: nat): seq<LogEvent> {
    if project in s.events then s.events[project] else []
  }

  /** The revision the run names, if there is such a row in its scope. */
  function FindRevision(s: Store, run: Run): Option<nat> {
    if run.revision.Some? && (run.project, run.shot, run.revision.value) in s.revisions then run.revision else None
  }

  predicate Concerns(event: LogEvent, run: Run, project: Project, revision: Option<nat>) {
    || event.run == Some(run.id) || event.shot == Some(run.shot) || event.payloadRun == Some(run.id)
    || (revision.Some? && (event.revision == revision || event.workflowRevision == revision))
    || (project.autoCreated && event.creates)
  }

  function Concerning(events: seq<LogEvent>, run: Run, project: Project, revision: Option<nat>): seq<LogEvent> {
    if events == [] then []
    else (if Concerns(events[0], run, project, revision) then [events[0]] else [])
         + Concerning(events[1..], run, project, revision)
  }

  /** An event without a sequence sorts as zero. */
  function Rank(event: LogEvent): nat { if event.sequence.Some? then event.sequence.value else 0 }

  function Insert(event: LogEvent, events: seq<LogEvent>): seq<LogEvent> {
    if events == [] || Rank(event) <= Rank(events[0]) then [event] + events
    else [events[0]] + Insert(event, events[1..])
  }

  function BySequence(events: seq<LogEvent>): seq<LogEvent> {
    if events == [] then [] else Insert(events[0], BySequence(events[1..]))
  }

  predicate InSequence(events: seq<LogEvent>) {
    forall m, n :: 0 <= m < n < |events| ==> Rank(events[m]) <= Rank(events[n])
  }

  function Ranked(events: seq<LogEvent>, rank: nat): seq<LogEvent> {
    if events == [] then [] else (if Rank(events[0]) == rank then [events[0]] else []) + Ranked(events[1..], rank)
  }

  lemma {:induction false} InsertMembers(event: LogEvent, events: seq<LogEvent>)
    ensures forall e :: e in Insert(event, events) <==> e == event || e in events
  {
    if events != [] && Rank(event) > Rank(events[0]) {
      InsertMembers(event, events[1..]);
      assert events == [events[0]] + events[1..];
    }
  }

  lemma {:induction false} InsertOrders(event: LogEvent, events: seq<LogEvent>)
    requires InSequence(events)
    ensures InSequence(Insert(event, events))
  {
    if events != [] && Rank(event) > Rank(events[0]) {
      InsertOrders(event, events[1..]);
      var rest := Insert(event, events[1..]);
      InsertMembers(event, events[1..]);
      forall n | 0 <= n < |rest| ensures Rank(events[0]) <= Rank(rest[n]) {
        assert rest[n] in rest;
      }
    }
  }

  lemma RankedFirst(event: LogEvent, events: seq<LogEvent>, rank: nat)
    ensures Ranked([event] + events, rank) == (if Rank(event) == rank then [event] else []) + Ranked(events, rank)
  {
    assert ([event] + events)[1..] == events;
  }

  lemma {:induction false} InsertRanked(event: LogEvent, events: seq<LogEvent>, rank: nat)
    ensures Ranked(Insert(event, events), rank) == (if Rank(event) == rank then [event] else []) + Ranked(events, rank)
  {
    RankedFirst(event, events, rank);
    if events != [] && Rank(event) > Rank(events[0]) {
      InsertRanked(event, events[1..], rank);
      RankedFirst(events[0], Insert(event, events[1..]), rank);
      if Rank(event) == rank {
        assert Ranked(events, rank) == Ranked(events[1..], rank);
      } else {
        assert Ranked(Insert(event, events), rank) == Ranked(events, rank);
      }
    }
  }

  /** The events of an aggregate are in sequence, and those of one sequence keep the order of the log. */
  lemma {:induction false} SortIsStable(events: seq<LogEvent>, rank: nat)
    ensures InSequence(BySequence(events)) && Ranked(BySequence(events), rank) == Ranked(events, rank)
  {
    if events != [] {
      SortIsStable(events[1..], rank);
      InsertOrders(events[0], BySequence(events[1..]));
      InsertRanked(events[0], BySequence(events[1..]), rank);
    }
  }

  function VerdictOf(s: Store, id: RunId): Verdict {
    if id in s.evaluations then s.evaluations[id] else NotRun
  }

  /** Without a project or shot row there is no aggregate. */
  function AggregateOf(s: Store, run: Run): Option<Aggregate> {
    var project, shot := FindProject(s, run.project), FindShot(s, (run.project, run.shot));
    if project.None? || shot.None? then None
    else
      var revision := FindRevision(s, run);
      Some(Aggregate(run, project.value, revision, VerdictOf(s, run.id), shot.value.pinned == Some(run.id),
                     BySequence(Concerning(EventsOf(s, run.project), run, project.value, revision))))
  }

  /** What one request remembers of the rows it read, missing rows included. */
  class RunLookupCache {
    var projects: map<nat, Option<Project>>
    var shots: map<(nat, nat), Option<Shot>>
    var events: map<nat, seq<LogEvent>>

    constructor ()
      ensures forall s: Store :: Agrees(s)
    {
      projects, shots, events := map[], map[], map[];
    }

    ghost predicate Agrees(s: Store)
      reads this
    {
      && (forall key :: key in projects ==> projects[key] == FindProject(s, key))
      && (forall key :: key in shots ==> shots[key] == FindShot(s, key))
      && (forall key :: key in events ==> events[key] == EventsOf(s, key))
    }
  }

  method Memoize<K(==), V>(cached: map<K, V>, key: K, loaded: V) returns (value: V, cached': map<K, V>)
    ensures value == (if key in cached then cached[key] else loaded) && cached' == cached[key := value]
  {
    if key in cached {
      value, cached' := cached[key], cached;
      assert cached == cached[key := value];
    } else {
      value, cached' := loaded, cached[key := loaded];
    }
  }

  /** The same aggregate with the cache as without. */
  method LoadRunAggregate(s: Store, run: Run, cache: RunLookupCache) returns (aggregate: Option<Aggregate>)
    requires cache.Agrees(s)
    modifies cache
    ensures cache.Agrees(s) && aggregate == AggregateOf(s, run)
  {
    var project, projects := Memoize(cache.projects, run.project, FindProject(s, run.project));
    cache.projects := projects;
    var shot, shots := Memoize(cache.shots, (run.project, run.shot), FindShot(s, (run.project, run.shot)));
    cache.shots := shots;
    if project.None? || shot.None? { return None; }
    var revision := FindRevision(s, run);
    var log, events := Memoize(cache.events, run.project, EventsOf(s, run.project));
    cache.events := events;
    return Some(Aggregate(run, project.value, revision, VerdictOf(s, run.id), shot.value.pinned == Some(run.id),
                          BySequence(Concerning(log, run, project.value, revision))));
  }

  // ------------------------------------------------------------------- order and filtering

  /** Newest first, and the greater identifier first among equals. */
  predicate Earlier(a: Run, b: Run) {
    a.createdAt > b.createdAt || (a.createdAt == b.createdAt && a.id > b.id)
  }

  function Place(run: Run, runs: seq<Run>): seq<Run> {
    if runs == [] || Earlier(run, runs[0]) then [run] + runs else [runs[0]] + Place(run, runs[1..])
  }

  function Sort(runs: seq<Run>): seq<Run> {
    if runs == [] then [] else Place(runs[0], Sort(runs[1..]))
  }

  /** The projects whose attempts are listed: the one asked for, if it exists, or all. */
  function Listable(s: Store, filter: Filter): set<nat> {
    set project | project in s.projects && (filter.project.None? || filter.project == Some(project))
  }

  /** The runs pinned by some shot of these projects. */
  function PinnedIds(s: Store, projects: set<nat>): set<RunId> {
    set key | key in s.shots && key.0 in projects && s.shots[key].pinned.Some? :: s.shots[key].pinned.value
  }

  /** The filters on the project and on columns of the attempt row; `pinnedIds` are the pins of the shots. */
  predicate Kept(run: Run, filter: Filter, projects: set<nat>, pinnedIds: set<RunId>) {
    && run.project in projects
    && (filter.status.Some? ==> run.status == filter.status.value)
    && (filter.reviewed.Some? ==> run.reviewed == filter.reviewed.value)
    && (filter.pinned.Some? ==> (run.id in pinnedIds) == filter.pinned.value)
  }

  function KeptRuns(runs: seq<Run>, filter: Filter, projects: set<nat>, pinnedIds: set<RunId>): seq<Run> {
    if runs == [] then []
    else (if Kept(runs[0], filter, projects, pinnedIds) then [runs[0]] else [])
         + KeptRuns(runs[1..], filter, projects, pinnedIds)
  }

  /** The candidates of a request, in order. */
  function Ordered(s: Store, filter: Filter): seq<Run> {
    var projects := Listable(s, filter);
    Sort(KeptRuns(s.runs, filter, projects, PinnedIds(s, projects)))
  }

  /** Whether a run has an aggregate that passes the evaluation filter. */
  predicate Shown(s: Store, run: Run, filter: Filter) {
    AggregateOf(s, run).Some? && (filter.evaluation.Some? ==> VerdictOf(s, run.id) == filter.evaluation.value)
  }

  /** The aggregates of the shown runs, in order. */
  function Collected(s: Store, runs: seq<Run>, filter: Filter): seq<Aggregate> {
    if runs == [] then []
    else (if Shown(s, runs[0], filter) then [AggregateOf(s, runs[0]).value] else []) + Collected(s, runs[1..], filter)
  }

  // ------------------------------------------------------------------------------ one page

  datatype Cursor = NoCursor | After(id: RunId) | Before(time: nat) | Unreadable

  predicate HasId(runs: seq<Run>, id: RunId) { exists n :: 0 <= n < |runs| && runs[n].id == id }

  function IndexOf(runs: seq<Run>, id: RunId): (n: nat)
    requires HasId(runs, id)
    ensures n < |runs| && runs[n].id == id
  {
    if runs[0].id == id then 0 else 1 + IndexOf(runs[1..], id)
  }

  function Older(runs: seq<Run>, time: nat): seq<Run> {
    if runs == [] then [] else (if runs[0].createdAt < time then [runs[0]] else []) + Older(runs[1..], time)
  }

  /** The candidates after the cursor. A run cursor that is not a candidate is no timestamp either. */
  function From(ordered: seq<Run>, since: Cursor): Result<seq<Run>, ()> {
    match since
    case NoCursor => Success(ordered)
    case After(id) => if HasId(ordered, id) then Success(ordered[IndexOf(ordered, id) + 1..]) else Failure(())
    case Before(time) => Success(Older(ordered, time))
    case Unreadable => Failure(())
  }

  datatype Page = Page(runs: seq<Aggregate>, nextSince: Option<RunId>)

  /** The page is the first `limit` shown runs after the cursor, with a cursor of its own exactly when
      more are left. */
  function PageOf(shown: seq<Aggregate>, limit: nat): Page
    requires limit > 0
  {
    if |shown| <= limit then Page(shown, None) else Page(shown[..limit], Some(shown[limit - 1].run.id))
  }

  /** Whether the lazily loaded aggregate joins the page, and as what. */
  method Expand(s: Store, run: Run, filter: Filter, cache: RunLookupCache) returns (joined: seq<Aggregate>)
    requires cache.Agrees(s)
    modifies cache
    ensures cache.Agrees(s) && joined == if Shown(s, run, filter) then [AggregateOf(s, run).value] else []
  {
    var aggregate := LoadRunAggregate(s, run, cache);
    if aggregate.None? { return []; }
    if filter.evaluation.Some? && aggregate.value.verdict != filter.evaluation.value { return []; }
    return [aggregate.value];
  }

  lemma CollectedStep(s: Store, ordered: seq<Run>, n: nat, filter: Filter, collected: seq<Aggregate>,
                      joined: seq<Aggregate>)
    requires n < |ordered| && joined == if Shown(s, ordered[n], filter) then [AggregateOf(s, ordered[n]).value] else []
    ensures collected + Collected(s, ordered[n..], filter)
            == (collected + joined) + Collected(s, ordered[n + 1..], filter)
  {
    assert ordered[n..][1..] == ordered[n + 1..];
    Reassociate(collected, joined, Collected(s, ordered[n + 1..], filter));
  }

  /** Pulls candidates until there is one more than the page holds, or they run out. */
  method Collect(s: Store, ordered: seq<Run>, filter: Filter, limit: nat) returns (collected: seq<Aggregate>)
    ensures collected <= Collected(s, ordered, filter)
    ensures |collected| <= limit ==> collected == Collected(s, ordered, filter)
  {
    var cache := new RunLookupCache();
    collected := [];
    var n := 0;
    while n < |ordered| && |collected| <= limit
      invariant n <= |ordered| && cache.Agrees(s) && fresh(cache)
      invariant collected + Collected(s, ordered[n..], filter) == Collected(s, ordered, filter)
    {
      var joined := Expand(s, ordered[n], filter, cache);
      CollectedStep(s, ordered, n, filter, collected, joined);
      collected := collected + joined;
      n := n + 1;
    }
    if n == |ordered| { assert ordered[n..] == []; }
  }

  method ListRuns(s: Store, filter: Filter, since: Cursor, limit: nat) returns (r: Result<Page, ()>)
    requires limit > 0
    ensures var from := From(Ordered(s, filter), since);
            r == if from.Failure? then Failure(()) else Success(PageOf(Collected(s, from.value, filter), limit))
  {
    var from := From(Ordered(s, filter), since);
    if from.Failure? { return Failure(()); }
    var collected := Collect(s, from.value, filter, limit);
    ghost var shown := Collected(s, from.value, filter);
    assert forall n :: 0 <= n < |collected| ==> collected[n] == shown[n];
    assert |collected| > limit ==> collected[..limit] == shown[..limit];
    if |collected| > limit { return Success(Page(collected[..limit], Some(collected[limit - 1].run.id))); }
    return Success(Page(collected, None));
  }

  // ------------------------------------------------------------------- following the pages

  predicate DistinctIds(runs: seq<Run>) {
    forall m, n :: 0 <= m < n < |runs| ==> runs[m].id != runs[n].id
  }

  ghost predicate Descending(runs: seq<Run>) {
    forall m, n :: 0 <= m < n < |runs| ==> Earlier(runs[m], runs[n])
  }

  lemma IndexIsUnique(runs: seq<Run>, n: nat)
    requires DistinctIds(runs) && n < |runs|
    ensures HasId(runs, runs[n].id) && IndexOf(runs, runs[n].id) == n
  {
    assert HasId(runs, runs[n].id);
    var k := IndexOf(runs, runs[n].id);
  }

  /** The k-th shown run stands somewhere, and what is shown after it is what is shown later. */
  lemma {:induction false} ShownAfter(s: Store, runs: seq<Run>, filter: Filter, k: nat) returns (n: nat)
    requires k < |Collected(s, runs, filter)|
    ensures n < |runs| && runs[n] == Collected(s, runs, filter)[k].run
    ensures Collected(s, runs[n + 1..], filter) == Collected(s, runs, filter)[k + 1..]
  {
    var shown := Shown(s, runs[0], filter);
    var rest := Collected(s, runs[1..], filter);
    if shown && k == 0 {
      n := 0;
      assert Collected(s, runs, filter)[1..] == rest;
    } else {
      var j := if shown then k - 1 else k;
      var m := ShownAfter(s, runs[1..], filter, j);
      n := m + 1;
      assert runs[1..][m + 1..] == runs[n + 1..];
      assert Collected(s, runs, filter)[k + 1..] == rest[j + 1..];
    }
  }

  /** A page's own cursor leads to what is left. */
  lemma NextPage(s: Store, ordered: seq<Run>, start: nat, filter: Filter, limit: nat) returns (next: nat)
    requires DistinctIds(ordered) && start <= |ordered| && 0 < limit < |Collected(s, ordered[start..], filter)|
    ensures var shown := Collected(s, ordered[start..], filter);
            && start < next <= |ordered|
            && From(ordered, After(shown[limit - 1].run.id)) == Success(ordered[next..])
            && Collected(s, ordered[next..], filter) == shown[limit..]
  {
    var shown := Collected(s, ordered[start..], filter);
    var n := ShownAfter(s, ordered[start..], filter, limit - 1);
    next := start + n + 1;
    RestOfRest(ordered, start, n);
    CursorLeadsOn(ordered, start + n, shown[limit - 1].run);
  }

  lemma RestOfRest(ordered: seq<Run>, start: nat, n: nat)
    requires start + n < |ordered|
    ensures ordered[start..][n + 1..] == ordered[start + n + 1..] && ordered[start..][n] == ordered[start + n]
  {
  }

  lemma CursorLeadsOn(ordered: seq<Run>, n: nat, run: Run)
    requires DistinctIds(ordered) && n < |ordered| && run == ordered[n]
    ensures From(ordered, After(run.id)) == Success(ordered[n + 1..])
  {
    IndexIsUnique(ordered, n);
  }

  /** A page and what its cursor leads to are what was left before it. */
  lemma PageAndRest(s: Store, ordered: seq<Run>, start: nat, filter: Filter, limit: nat) returns (next: nat)
    requires DistinctIds(ordered) && start <= |ordered| && 0 < limit
    ensures var shown := Collected(s, ordered[start..], filter);
            var page := PageOf(shown, limit);
            && |page.runs| <= limit
            && (page.nextSince.None? ==> page.runs == shown)
            && (page.nextSince.Some? ==>
                  && |page.runs| == limit && start < next <= |ordered|
                  && From(ordered, After(page.nextSince.value)) == Success(ordered[next..])
                  && page.runs + Collected(s, ordered[next..], filter) == shown)
  {
    var shown := Collected(s, ordered[start..], filter);
    if |shown| > limit {
      next := NextPage(s, ordered, start, filter, limit);
      assert shown == shown[..limit] + shown[limit..];
    } else {
      next := start;
    }
  }

  lemma {:induction false} AllOlder(runs: seq<Run>, time: nat)
    requires forall n :: 0 <= n < |runs| ==> runs[n].createdAt < time
    ensures Older(runs, time) == runs
  {
    if runs != [] { AllOlder(runs[1..], time); }
  }

  lemma {:induction false} OlderIsSuffix(runs: seq<Run>, time: nat) returns (start: nat)
    requires Descending(runs)
    ensures start <= |runs| && Older(runs, time) == runs[start..]
    ensures forall n :: 0 <= n < |runs| ==> (runs[n].createdAt < time <==> start <= n)
  {
    if runs == [] {
      start := 0;
    } else if runs[0].createdAt < time {
      start := 0;
      assert forall n :: 0 < n < |runs| ==> Earlier(runs[0], runs[n]);
      AllOlder(runs, time);
    } else {
      var rest := OlderIsSuffix(runs[1..], time);
      start := rest + 1;
      assert forall n :: 0 < n < |runs| ==> runs[n] == runs[1..][n - 1];
    }
  }

  /** Every readable cursor stands between two candidates. */
  lemma CursorIsSuffix(ordered: seq<Run>, since: Cursor) returns (start: nat)
    requires Descending(ordered) && From(ordered, since).Success?
    ensures start <= |ordered| && From(ordered, since) == Success(ordered[start..])
  {
    match since {
      case NoCursor => start := 0; assert ordered[0..] == ordered;
      case After(id) => start := IndexOf(ordered, id) + 1;
      case Before(time) => start := OlderIsSuffix(ordered, time);
    }
  }

  /** Pages of `limit` runs each, the last one possibly shorter. */
  predicate InPages(pages: seq<seq<Aggregate>>, limit: nat) {
    forall n :: 0 <= n < |pages| ==> |pages[n]| <= limit && (n < |pages| - 1 ==> |pages[n]| == limit)
  }

  /** One more page, and what its cursor leads to. */
  lemma PageAdded(s: Store, ordered: seq<Run>, start: nat, filter: Filter, limit: nat, pages: seq<seq<Aggregate>>)
    returns (next: nat)
    requires DistinctIds(ordered) && start <= |ordered| && 0 < limit
    requires InPages(pages, limit) && (pages != [] ==> |pages[|pages| - 1]| == limit)
    ensures var shown := Collected(s, ordered[start..], filter);
            var page := PageOf(shown, limit);
            var pages' := pages + [page.runs];
            && InPages(pages', limit)
            && (page.nextSince.None? ==> Flatten(pages') == Flatten(pages) + shown)
            && (page.nextSince.Some? ==>
                  && |page.runs| == limit && start < next <= |ordered|
                  && From(ordered, After(page.nextSince.value)) == Success(ordered[next..])
                  && Flatten(pages') + Collected(s, ordered[next..], filter) == Flatten(pages) + shown)
  {
    next := PageAndRest(s, ordered, start, filter, limit);
    var page := PageOf(Collected(s, ordered[start..], filter), limit);
    FlattenAppend(pages, page.runs);
    if page.nextSince.Some? { Reassociate(Flatten(pages), page.runs, Collected(s, ordered[next..], filter)); }
  }

  /** Following nextSince until it is absent, from any cursor that is not refused, gives every shown run after
      that cursor exactly once, in order, in pages of `limit` runs of which only the last may be shorter. */
  method FollowPages(s: Store, filter: Filter, first: Cursor, limit: nat) returns (pages: seq<seq<Aggregate>>)
    requires limit > 0 && DistinctIds(s.runs) && From(Ordered(s, filter), first).Success?
    ensures Flatten(pages) == Collected(s, From(Ordered(s, filter), first).value, filter)
    ensures pages != [] && InPages(pages, limit)
  {
    OrderedExactly(s, filter);
    ghost var ordered := Ordered(s, filter);
    ghost var start := CursorIsSuffix(ordered, first);
    ghost var all := Collected(s, ordered[start..], filter);
    pages := [];
    var since := first;
    var more := true;
    while more
      invariant start <= |ordered| && From(ordered, since) == Success(ordered[start..])
      invariant InPages(pages, limit) && (pages != [] && more ==> |pages[|pages| - 1]| == limit)
      invariant Flatten(pages) + (if more then Collected(s, ordered[start..], filter) else []) == all
      invariant more || pages != []
      decreases |ordered| - start, more
    {
      var r := ListRuns(s, filter, since, limit);
      ghost var next := PageAdded(s, ordered, start, filter, limit, pages);
      pages := pages + [r.value.runs];
      if r.value.nextSince.None? {
        more := false;
      } else {
        start := next;
        since := After(r.value.nextSince.value);
      }
    }
  }

  lemma Reassociate(a: seq<Aggregate>, b: seq<Aggregate>, c: seq<Aggregate>)
    ensures (a + b) + c == a + (b + c)
  {
  }

  function Flatten(pages: seq<seq<Aggregate>>): seq<Aggregate> {
    if pages == [] then [] else Flatten(pages[..|pages| - 1]) + pages[|pages| - 1]
  }

  lemma FlattenAppend(pages: seq<seq<Aggregate>>, page: seq<Aggregate>)
    ensures Flatten(pages + [page]) == Flatten(pages) + page
  {
    assert (pages + [page])[..|pages|] == pages;
  }

  // ------------------------------------------------------- what is shown, and in what order

  lemma {:induction false} PlaceKeeps(run: Run, runs: seq<Run>)
    requires Descending(runs) && forall n :: 0 <= n < |runs| ==> runs[n].id != run.id
    ensures Descending(Place(run, runs))
    ensures forall r :: r in Place(run, runs) <==> r == run || r in runs
  {
    if runs != [] && !Earlier(run, runs[0]) {
      PlaceKeeps(run, runs[1..]);
      var rest := Place(run, runs[1..]);
      forall n | 0 <= n < |rest| ensures Earlier(runs[0], rest[n]) {
        assert rest[n] in rest;
      }
    }
  }

  lemma {:induction false} SortKeeps(runs: seq<Run>)
    requires DistinctIds(runs)
    ensures Descending(Sort(runs))
    ensures forall r :: r in Sort(runs) <==> r in runs
  {
    if runs != [] {
      SortKeeps(runs[1..]);
      forall n | 0 <= n < |Sort(runs[1..])| ensures Sort(runs[1..])[n].id != runs[0].id {
        assert Sort(runs[1..])[n] in runs[1..];
      }
      PlaceKeeps(runs[0], Sort(runs[1..]));
    }
  }

  lemma {:induction false} KeptExactly(runs: seq<Run>, filter: Filter, projects: set<nat>, pinnedIds: set<RunId>)
    requires DistinctIds(runs)
    ensures DistinctIds(KeptRuns(runs, filter, projects, pinnedIds))
    ensures forall r ::
              r in KeptRuns(runs, filter, projects, pinnedIds) <==> r in runs && Kept(r, filter, projects, pinnedIds)
  {
    if runs != [] {
      KeptExactly(runs[1..], filter, projects, pinnedIds);
      var rest := KeptRuns(runs[1..], filter, projects, pinnedIds);
      forall n | 0 <= n < |rest| ensures rest[n].id != runs[0].id {
        assert rest[n] in runs[1..];
      }
    }
  }

  /** What the filters on projects, attempt rows and pins mean for a run. */
  ghost predicate Passes(s: Store, run: Run, filter: Filter) {
    && run.project in s.projects && (filter.project.Some? ==> run.project == filter.project.value)
    && (filter.status.Some? ==> run.status == filter.status.value)
    && (filter.reviewed.Some? ==> run.reviewed == filter.reviewed.value)
    && (filter.pinned.Some? ==> IsPinned(s, run.id, filter.project) == filter.pinned.value)
  }

  /** Some shot of a listed project has pinned the run. */
  ghost predicate IsPinned(s: Store, id: RunId, project: Option<nat>) {
    exists key :: key in s.shots && key.0 in s.projects && (project.None? || project == Some(key.0))
                  && s.shots[key].pinned == Some(id)
  }

  lemma PinnedExactly(s: Store, filter: Filter, id: RunId)
    ensures id in PinnedIds(s, Listable(s, filter)) <==> IsPinned(s, id, filter.project)
  {
    if IsPinned(s, id, filter.project) {
      var key :| key in s.shots && key.0 in s.projects && (filter.project.None? || filter.project == Some(key.0))
                 && s.shots[key].pinned == Some(id);
      assert key.0 in Listable(s, filter);
    }
  }

  lemma PassesExactly(s: Store, filter: Filter, run: Run)
    ensures Kept(run, filter, Listable(s, filter), PinnedIds(s, Listable(s, filter))) <==> Passes(s, run, filter)
  {
    PinnedExactly(s, filter, run.id);
  }

  /** The candidates are the runs that pass, newest first. */
  lemma OrderedExactly(s: Store, filter: Filter)
    requires DistinctIds(s.runs)
    ensures Descending(Ordered(s, filter)) && DistinctIds(Ordered(s, filter))
    ensures forall r :: r in Ordered(s, filter) <==> r in s.runs && Passes(s, r, filter)
  {
    var projects := Listable(s, filter);
    var kept := KeptRuns(s.runs, filter, projects, PinnedIds(s, projects));
    KeptExactly(s.runs, filter, projects, PinnedIds(s, projects));
    SortKeeps(kept);
    forall r ensures Kept(r, filter, projects, PinnedIds(s, projects)) <==> Passes(s, r, filter) {
      PassesExactly(s, filter, r);
    }
    var ordered := Sort(kept);
    forall m, n | 0 <= m < n < |ordered| ensures ordered[m].id != ordered[n].id {
      assert Earlier(ordered[m], ordered[n]);
      assert ordered[m] in s.runs && ordered[n] in s.runs;
    }
  }

  lemma {:induction false} CollectedExactly(s: Store, runs: seq<Run>, filter: Filter, a: Aggregate)
    ensures a in Collected(s, runs, filter)
            <==> a.run in runs && Shown(s, a.run, filter) && AggregateOf(s, a.run) == Some(a)
  {
    if runs != [] { CollectedExactly(s, runs[1..], filter, a); }
  }

  lemma {:induction false} CollectedDescends(s: Store, runs: seq<Run>, filter: Filter, m: nat, n: nat)
    requires Descending(runs) && m < n < |Collected(s, runs, filter)|
    ensures Earlier(Collected(s, runs, filter)[m].run, Collected(s, runs, filter)[n].run)
  {
    if Shown(s, runs[0], filter) && m == 0 {
      var rest := Collected(s, runs[1..], filter);
      CollectedExactly(s, runs[1..], filter, rest[n - 1]);
    } else {
      var k := if Shown(s, runs[0], filter) then 1 else 0;
      CollectedDescends(s, runs[1..], filter, m - k, n - k);
    }
  }

  predicate Listed(all: seq<Aggregate>, run: Run) { exists n :: 0 <= n < |all| && all[n].run == run }

  lemma ListedExactly(s: Store, runs: seq<Run>, filter: Filter, run: Run)
    ensures Listed(Collected(s, runs, filter), run) <==> run in runs && Shown(s, run, filter)
  {
    var all := Collected(s, runs, filter);
    if Listed(all, run) {
      var n :| 0 <= n < |all| && all[n].run == run;
      CollectedExactly(s, runs, filter, all[n]);
    }
    if run in runs && Shown(s, run, filter) {
      CollectedExactly(s, runs, filter, AggregateOf(s, run).value);
      var n :| 0 <= n < |all| && all[n] == AggregateOf(s, run).value;
      assert all[n].run == run;
    }
  }

  /** A stored run with its project and shot that passes every filter, the evaluation's included. */
  ghost predicate Qualifies(s: Store, run: Run, filter: Filter) {
    && run in s.runs && Passes(s, run, filter) && run.project in s.projects && (run.project, run.shot) in s.shots
    && (filter.evaluation.Some? ==>
          filter.evaluation.value == if run.id in s.evaluations then s.evaluations[run.id] else NotRun)
  }

  ghost predicate NewestFirst(all: seq<Aggregate>) {
    forall m, n :: 0 <= m < n < |all| ==>
      || all[m].run.createdAt > all[n].run.createdAt
      || (all[m].run.createdAt == all[n].run.createdAt && all[m].run.id > all[n].run.id)
  }

  /** From any cursor the pages show the qualifying runs among the candidates behind it, newest first and so
      each once. */
  lemma PagesShow(s: Store, filter: Filter, start: nat, run: Run)
    requires DistinctIds(s.runs) && start <= |Ordered(s, filter)|
    ensures var all := Collected(s, Ordered(s, filter)[start..], filter);
            && (Listed(all, run) <==> run in Ordered(s, filter)[start..] && Qualifies(s, run, filter))
            && NewestFirst(all)
  {
    var behind := Ordered(s, filter)[start..];
    var all := Collected(s, behind, filter);
    OrderedExactly(s, filter);
    ListedExactly(s, behind, filter, run);
    forall m, n | 0 <= m < n < |all| ensures Earlier(all[m].run, all[n].run) {
      CollectedDescends(s, behind, filter, m, n);
    }
  }

  /** Over all its pages a listing shows exactly the runs that pass every filter, each once, newest
      first. */
  lemma PagesShowExactly(s: Store, filter: Filter, run: Run)
    requires DistinctIds(s.runs)
    ensures var all := Collected(s, Ordered(s, filter), filter);
            (Listed(all, run) <==> Qualifies(s, run, filter)) && NewestFirst(all)
  {
    OrderedExactly(s, filter);
    assert Ordered(s, filter)[0..] == Ordered(s, filter);
    PagesShow(s, filter, 0, run);
  }

  /** From a timestamp on, exactly those of them created before it. */
  lemma PagesBeforeExactly(s: Store, filter: Filter, time: nat, run: Run)
    requires DistinctIds(s.runs)
    ensures var from := From(Ordered(s, filter), Before(time));
            && from.Success?
            && (Listed(Collected(s, from.value, filter), run) <==> Qualifies(s, run, filter) && run.createdAt < time)
            && NewestFirst(Collected(s, from.value, filter))
  {
    OrderedExactly(s, filter);
    var ordered := Ordered(s, filter);
    var start := OlderIsSuffix(ordered, time);
    PagesShow(s, filter, start, run);
    assert run in ordered[start..] <==> run in ordered && run.createdAt < time by {
      if run in ordered {
        var n :| 0 <= n < |ordered| && ordered[n] == run;
        assert start <= n ==> ordered[start..][n - start] == run;
      }
      assert forall n :: start <= n < |ordered| ==> ordered[start..][n - start] == ordered[n];
    }
  }

  /** From a run on, which must itself pass the filters on its project and columns, exactly those behind it:
      created earlier, or at the same time with a smaller identifier. */
  lemma PagesAfterExactly(s: Store, filter: Filter, cursor: Run, run: Run)
    requires DistinctIds(s.runs) && cursor in s.runs && Passes(s, cursor, filter)
    ensures var from := From(Ordered(s, filter), After(cursor.id));
            && from.Success?
            && (Listed(Collected(s, from.value, filter), run) <==>
                  Qualifies(s, run, filter)
                  && (run.createdAt < cursor.createdAt || (run.createdAt == cursor.createdAt && run.id < cursor.id)))
            && NewestFirst(Collected(s, from.value, filter))
  {
    OrderedExactly(s, filter);
    var ordered := Ordered(s, filter);
    assert cursor in ordered;
    var n :| 0 <= n < |ordered| && ordered[n] == cursor;
    CursorLeadsOn(ordered, n, cursor);
    PagesShow(s, filter, n + 1, run);
    Behind(ordered, n, run);
  }

  lemma Behind(ordered: seq<Run>, n: nat, run: Run)
    requires Descending(ordered) && n < |ordered|
    ensures run in ordered[n + 1..] <==> run in ordered && Earlier(ordered[n], run)
  {
    if run in ordered {
      var m :| 0 <= m < |ordered| && ordered[m] == run;
      assert n < m ==> ordered[n + 1..][m - n - 1] == run;
      assert m < n ==> Earlier(ordered[m], ordered[n]);
    }
    if run in ordered[n + 1..] {
      var m :| 0 <= m < |ordered[n + 1..]| && ordered[n + 1..][m] == run;
      assert ordered[n + 1 + m] == run;
    }
  }

  /** A run cursor that no candidate has is refused. */
  lemma UnknownCursorIsRefused(s: Store, filter: Filter, id: RunId)
    requires DistinctIds(s.runs)
    ensures From(Ordered(s, filter), After(id)).Failure? <==>
            forall run :: run in s.runs && run.id == id ==> !Passes(s, run, filter)
  {
    OrderedExactly(s, filter);
    var ordered := Ordered(s, filter);
    if HasId(ordered, id) { assert ordered[IndexOf(ordered, id)] in ordered; }
    if run :| run in s.runs && run.id == id && Passes(s, run, filter) {
      assert run in ordered;
      var n :| 0 <= n < |ordered| && ordered[n] == run;
    }
  }

  lemma {:induction false} SortedMembers(events: seq<LogEvent>, event: LogEvent)
    ensures event in BySequence(events) <==> event in events
  {
    if events != [] {
      SortedMembers(events[1..], event);
      InsertMembers(events[0], BySequence(events[1..]));
    }
  }

  lemma {:induction false} ConcerningMembers(
      events: seq<LogEvent>, run: Run, project: Project, revision: Option<nat>, event: LogEvent)
    ensures event in Concerning(events, run, project, revision) <==>
            event in events && Concerns(event, run, project, revision)
  {
    if events != [] { ConcerningMembers(events[1..], run, project, revision, event); }
  }

  /** The aggregate of a run tells exactly the events of its project that name the run, its shot or its
      revision, and the creation of a project that was created for it. */
  lemma AggregateTellsExactly(s: Store, run: Run, event: LogEvent)
    requires AggregateOf(s, run).Some?
    ensures var scoped := run.revision.Some? && (run.project, run.shot, run.revision.value) in s.revisions;
            event in AggregateOf(s, run).value.events <==>
            && run.project in s.events && event in s.events[run.project]
            && (|| run.id in Named(event.run) + Named(event.payloadRun) || run.shot in Named(event.shot)
                || (scoped && run.revision.value in Named(event.revision) + Named(event.workflowRevision))
                || (s.projects[run.project].autoCreated && event.creates))
  {
    var project, revision := s.projects[run.project], FindRevision(s, run);
    ConcerningMembers(EventsOf(s, run.project), run, project, revision, event);
    SortedMembers(Concerning(EventsOf(s, run.project), run, project, revision), event);
  }

  function Named(id: Option<nat>): set<nat> { if id.Some? then {id.value} else {} }
}
