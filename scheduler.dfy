/** One pass of the scheduler service: page through the deployments whose
    schedule is active, in ascending id order, generate each one's upcoming
    runs for a fixed time window, and insert the runs of every page in
    chunks, all inside one transaction. */
module Scheduler {
  import opened Wrappers
  import opened Entities
  import opened Predicates

  // ---------------------------------------------------------------------
  // Scheduled runs and the insert that skips runs already stored
  // ---------------------------------------------------------------------

  /** A flow run proposed by a deployment's schedule. */
  datatype ScheduledRun = ScheduledRun(deploymentId: Id, expectedStartTime: Time)

  /** Runs are unique on their deployment and scheduled start time: inserting
      a run whose key is already stored does nothing. */
  datatype RunKey = RunKey(deploymentId: Id, expectedStartTime: Time)

  function KeyOf(run: ScheduledRun): RunKey {
    RunKey(run.deploymentId, run.expectedStartTime)
  }

  /** The keys of a list of runs. */
  function KeysOf(runs: seq<ScheduledRun>): set<RunKey> {
    if runs == [] then {} else {KeyOf(runs[0])} + KeysOf(runs[1..])
  }

  /** The runs of `runs` that an insert stores when the keys in `seen` are
      already present: each run whose key is new, in order, the first of
      several runs with one key winning. */
  function Dedup(seen: set<RunKey>, runs: seq<ScheduledRun>): seq<ScheduledRun>
    decreases |runs|
  {
    if runs == [] then []
    else if KeyOf(runs[0]) in seen then Dedup(seen, runs[1..])
    else [runs[0]] + Dedup(seen + {KeyOf(runs[0])}, runs[1..])
  }

  lemma {:induction false} KeysOfConcat(a: seq<ScheduledRun>, b: seq<ScheduledRun>)
    ensures KeysOf(a + b) == KeysOf(a) + KeysOf(b)
    decreases |a|
  {
    if a == [] {
      assert a + b == b;
    } else {
      assert (a + b)[1..] == a[1..] + b;
      KeysOfConcat(a[1..], b);
    }
  }

  /** An insert stores only runs it was offered, no more of them than offered,
      and none whose key was already present; the keys it adds are the
      offered keys not yet present. */
  lemma {:induction false} DedupFacts(seen: set<RunKey>, runs: seq<ScheduledRun>)
    ensures |Dedup(seen, runs)| <= |runs|
    ensures forall run :: run in Dedup(seen, runs) ==> run in runs && KeyOf(run) !in seen
    ensures KeysOf(Dedup(seen, runs)) == KeysOf(runs) - seen
    decreases |runs|
  {
    DedupKeys(seen, runs);
    if runs != [] {
      if KeyOf(runs[0]) in seen {
        DedupFacts(seen, runs[1..]);
      } else {
        DedupFacts(seen + {KeyOf(runs[0])}, runs[1..]);
      }
    }
  }

  /** The keys the de-duplicated runs bring are exactly the offered keys not
      yet seen. */
  lemma {:induction false} DedupKeys(seen: set<RunKey>, runs: seq<ScheduledRun>)
    ensures KeysOf(Dedup(seen, runs)) == KeysOf(runs) - seen
    decreases |runs|
  {
    if runs != [] {
      var rest := runs[1..];
      assert runs == [runs[0]] + rest;
      KeysOfConcat([runs[0]], rest);
      if KeyOf(runs[0]) in seen {
        DedupKeys(seen, rest);
      } else {
        var seen' := seen + {KeyOf(runs[0])};
        DedupKeys(seen', rest);
        KeysOfConcat([runs[0]], Dedup(seen', rest));
      }
    }
  }

  /** The stored runs never share a key. */
  lemma {:induction false} DedupDistinct(seen: set<RunKey>, runs: seq<ScheduledRun>)
    ensures forall i, j :: 0 <= i < j < |Dedup(seen, runs)| ==>
      KeyOf(Dedup(seen, runs)[i]) != KeyOf(Dedup(seen, runs)[j])
    decreases |runs|
  {
    if runs != [] && KeyOf(runs[0]) in seen {
      DedupDistinct(seen, runs[1..]);
    } else if runs != [] {
      var seen' := seen + {KeyOf(runs[0])};
      DedupDistinct(seen', runs[1..]);
      DedupFacts(seen', runs[1..]);
      var d := Dedup(seen, runs);
      forall j | 0 < j < |d| ensures KeyOf(d[0]) != KeyOf(d[j]) {
        assert d[j] in Dedup(seen', runs[1..]);
      }
    }
  }

  /** Inserting `a` and then `b` stores what inserting `a + b` stores. */
  lemma {:induction false} DedupConcat(seen: set<RunKey>, a: seq<ScheduledRun>, b: seq<ScheduledRun>)
    ensures Dedup(seen, a + b) == Dedup(seen, a) + Dedup(seen + KeysOf(a), b)
    decreases |a|
  {
    if a == [] {
      assert a + b == b;
      assert seen + KeysOf(a) == seen;
    } else {
      assert (a + b)[1..] == a[1..] + b;
      KeysOfConcat([a[0]], a[1..]);
      assert a == [a[0]] + a[1..];
      if KeyOf(a[0]) in seen {
        DedupConcat(seen, a[1..], b);
        assert seen + KeysOf(a[1..]) == seen + KeysOf(a);
      } else {
        DedupConcat(seen + {KeyOf(a[0])}, a[1..], b);
        assert seen + {KeyOf(a[0])} + KeysOf(a[1..]) == seen + KeysOf(a);
      }
    }
  }

  /** Offering runs whose keys are all present stores nothing. */
  lemma {:induction false} DedupAllSeen(seen: set<RunKey>, runs: seq<ScheduledRun>)
    requires KeysOf(runs) <= seen
    ensures Dedup(seen, runs) == []
    decreases |runs|
  {
    if runs != [] {
      assert runs == [runs[0]] + runs[1..];
      KeysOfConcat([runs[0]], runs[1..]);
      DedupAllSeen(seen, runs[1..]);
    }
  }

  /** A second pass offering the same runs to the store the first pass left
      inserts nothing. */
  lemma RepeatPassInsertsNothing(stored: seq<ScheduledRun>, runs: seq<ScheduledRun>)
    ensures Dedup(KeysOf(stored + Dedup(KeysOf(stored), runs)), runs) == []
  {
    var inserted := Dedup(KeysOf(stored), runs);
    KeysOfConcat(stored, inserted);
    DedupFacts(KeysOf(stored), runs);
    DedupAllSeen(KeysOf(stored + inserted), runs);
  }

  // ---------------------------------------------------------------------
  // Chunks
  // ---------------------------------------------------------------------

  /** The concatenation of a list of chunks. */
  function Flatten<T>(chunks: seq<seq<T>>): seq<T> {
    if chunks == [] then [] else chunks[0] + Flatten(chunks[1..])
  }

  lemma {:induction false} FlattenConcat<T>(a: seq<seq<T>>, b: seq<seq<T>>)
    ensures Flatten(a + b) == Flatten(a) + Flatten(b)
    decreases |a|
  {
    if a == [] {
      assert a + b == b;
    } else {
      assert (a + b)[1..] == a[1..] + b;
      FlattenConcat(a[1..], b);
    }
  }

  /** The chunks a list is inserted in: consecutive slices of `size`
      elements, the last one possibly shorter, and none for an empty list. */
  function Batched<T>(s: seq<T>, size: nat): seq<seq<T>>
    requires size > 0
    decreases |s|
  {
    if s == [] then []
    else if |s| <= size then [s]
    else [s[..size]] + Batched(s[size..], size)
  }

  /** The chunks, put back together, are the runs: nothing lost, nothing
      repeated, order kept. */
  lemma {:induction false} BatchedFlatten<T>(s: seq<T>, size: nat)
    requires size > 0
    ensures Flatten(Batched(s, size)) == s
    decreases |s|
  {
    if s != [] && |s| <= size {
      assert Flatten([s]) == s + Flatten([]);
    } else if s != [] {
      var rest := Batched(s[size..], size);
      BatchedFlatten(s[size..], size);
      assert ([s[..size]] + rest)[1..] == rest;
      assert s[..size] + s[size..] == s;
    }
  }

  /** Every chunk is non-empty and holds at most `size` runs. */
  lemma {:induction false} BatchedSizes<T>(s: seq<T>, size: nat)
    requires size > 0
    ensures forall c :: c in Batched(s, size) ==> 0 < |c| <= size
    decreases |s|
  {
    if s != [] && |s| > size {
      BatchedSizes(s[size..], size);
      assert Batched(s, size) == [s[..size]] + Batched(s[size..], size);
    }
  }

  // ---------------------------------------------------------------------
  // Pages of deployments
  // ---------------------------------------------------------------------

  /** The deployments table in primary-key order. */
  predicate SortedById(ds: seq<Deployment>) {
    forall i, j :: 0 <= i < j < |ds| ==> IdAt(ds, i) < IdAt(ds, j)
  }

  /** The id of the `i`-th deployment; sortedness is stated through it so
      that it applies only where a proof asks about ids by position. */
  function IdAt(ds: seq<Deployment>, i: nat): Id
    requires i < |ds|
  {
    ds[i].id
  }

  /** A deployment the scheduler considers: schedule active and present. */
  predicate IsScheduled(d: Deployment) {
    d.isScheduleActive && d.schedule.Some?
  }

  /** The WHERE clause of the page query; with a cursor the ids must also be
      greater than the last id of the previous page. */
  function PageQuery(lastId: Option<Id>): Pred {
    And([Is(IsScheduleActiveCol, true), IsNotNull(ScheduleCol)]
        + (if lastId.Some? then [Gt(IdCol, lastId.value)] else []))
  }

  lemma PageQuerySelects(lastId: Option<Id>, d: Deployment)
    ensures Selected(PageQuery(lastId), DeploymentRow(d))
        <==> IsScheduled(d) && (lastId.Some? ==> d.id > lastId.value)
  {
    var row := DeploymentRow(d);
    var scheduled := [Is(IsScheduleActiveCol, true), IsNotNull(ScheduleCol)];
    PageClauses(lastId, d);
    assert scheduled[0] == Is(IsScheduleActiveCol, true) && scheduled[1] == IsNotNull(ScheduleCol);
    if lastId.Some? {
      var clauses := scheduled + [Gt(IdCol, lastId.value)];
      assert PageQuery(lastId) == And(clauses);
      AndSelected(clauses, row);
      assert clauses[0] == scheduled[0] && clauses[1] == scheduled[1];
      assert clauses[2] == Gt(IdCol, lastId.value);
    } else {
      assert PageQuery(lastId) == And(scheduled);
      AndSelected(scheduled, row);
    }
  }

  /** What each clause of the page query asks of a deployment. */
  lemma PageClauses(lastId: Option<Id>, d: Deployment)
    ensures Selected(Is(IsScheduleActiveCol, true), DeploymentRow(d)) <==> d.isScheduleActive
    ensures Selected(IsNotNull(ScheduleCol), DeploymentRow(d)) <==> d.schedule.Some?
    ensures lastId.Some? ==> (Selected(Gt(IdCol, lastId.value), DeploymentRow(d)) <==> d.id > lastId.value)
  {
  }

  /** The rows of the table that `where` selects, in table order. */
  function Matching(table: seq<Deployment>, where: Pred): seq<Deployment> {
    if table == [] then []
    else
      var last := table[|table| - 1];
      Matching(table[..|table| - 1], where) + (if Selected(where, DeploymentRow(last)) then [last] else [])
  }

  /** The scheduled deployments, in id order. */
  function Scheduled(table: seq<Deployment>): seq<Deployment> {
    if table == [] then []
    else
      var last := table[|table| - 1];
      Scheduled(table[..|table| - 1]) + (if IsScheduled(last) then [last] else [])
  }

  /** The deployments whose id is above the cursor. */
  function After(ds: seq<Deployment>, lastId: Option<Id>): seq<Deployment> {
    if ds == [] then []
    else
      var last := ds[|ds| - 1];
      After(ds[..|ds| - 1], lastId) + (if lastId.None? || last.id > lastId.value then [last] else [])
  }

  /** The page query selects the scheduled deployments above the cursor. */
  lemma {:induction false} MatchingPageQuery(table: seq<Deployment>, lastId: Option<Id>)
    ensures Matching(table, PageQuery(lastId)) == After(Scheduled(table), lastId)
    decreases |table|
  {
    if table != [] {
      var init, last := table[..|table| - 1], table[|table| - 1];
      MatchingPageQuery(init, lastId);
      PageQuerySelects(lastId, last);
      var s := Scheduled(table);
      if IsScheduled(last) {
        assert s == Scheduled(init) + [last];
        assert s[..|s| - 1] == Scheduled(init) && s[|s| - 1] == last;
        assert After(s, lastId) == After(Scheduled(init), lastId)
          + (if lastId.None? || last.id > lastId.value then [last] else []);
      } else {
        assert s == Scheduled(init);
      }
    }
  }

  /** The scheduled deployments are the table's rows with an active schedule. */
  lemma {:induction false} ScheduledMembers(table: seq<Deployment>)
    ensures forall d :: d in Scheduled(table) <==> d in table && IsScheduled(d)
    decreases |table|
  {
    if table != [] {
      ScheduledMembers(table[..|table| - 1]);
      assert table == table[..|table| - 1] + [table[|table| - 1]];
    }
  }

  lemma {:induction false} ScheduledSorted(table: seq<Deployment>)
    requires SortedById(table)
    ensures SortedById(Scheduled(table))
    decreases |table|
  {
    if table != [] {
      var n := |table|;
      var init, last := table[..n - 1], table[n - 1];
      SortedPrefix(table, n - 1);
      ScheduledSorted(init);
      ScheduledMembers(init);
      var s0 := Scheduled(init);
      if IsScheduled(last) {
        var s := s0 + [last];
        assert Scheduled(table) == s;
        forall i, j | 0 <= i < j < |s| ensures IdAt(s, i) < IdAt(s, j) {
          if j < |s0| {
            assert IdAt(s0, i) < IdAt(s0, j);
          } else {
            assert s0[i] in init;
            var k :| 0 <= k < |init| && init[k] == s0[i];
            assert IdAt(table, k) < IdAt(table, n - 1);
          }
        }
      } else {
        assert Scheduled(table) == s0;
      }
    }
  }

  lemma SortedPrefix(ds: seq<Deployment>, n: nat)
    requires SortedById(ds) && n <= |ds|
    ensures SortedById(ds[..n])
  {
    forall i, j | 0 <= i < j < n ensures IdAt(ds[..n], i) < IdAt(ds[..n], j) {
      assert IdAt(ds, i) < IdAt(ds, j);
    }
  }

  lemma {:induction false} AfterNone(ds: seq<Deployment>)
    ensures After(ds, None) == ds
    decreases |ds|
  {
    if ds != [] {
      AfterNone(ds[..|ds| - 1]);
    }
  }

  /** With the cursor at the `i`-th id of a sorted list, what is above the
      cursor is exactly what follows position `i`. */
  lemma {:induction false} AfterCursor(ds: seq<Deployment>, i: nat)
    requires SortedById(ds) && i < |ds|
    ensures After(ds, Some(ds[i].id)) == ds[i + 1..]
    decreases |ds|
  {
    var init := ds[..|ds| - 1];
    SortedPrefix(ds, |ds| - 1);
    if i == |ds| - 1 {
      forall j | 0 <= j < |init| ensures init[j].id < ds[i].id {
        assert IdAt(ds, j) < IdAt(ds, i);
      }
      AfterNothing(init, ds[i].id);
    } else {
      assert IdAt(ds, i) < IdAt(ds, |ds| - 1);
      AfterCursor(init, i);
      assert init[i + 1..] + [ds[|ds| - 1]] == ds[i + 1..];
    }
  }

  lemma {:induction false} AfterNothing(ds: seq<Deployment>, x: Id)
    requires forall j :: 0 <= j < |ds| ==> ds[j].id < x
    ensures After(ds, Some(x)) == []
    decreases |ds|
  {
    if ds != [] {
      AfterNothing(ds[..|ds| - 1], x);
    }
  }

  /** The pages the loop fetches from the scheduled deployments with page
      size `size`: full pages until one comes back shorter than `size` (so
      an extra empty page is fetched when `size` divides the count). */
  function Paginate(ds: seq<Deployment>, size: nat): seq<seq<Deployment>>
    requires size > 0
    decreases |ds|
  {
    if |ds| < size then [ds] else [ds[..size]] + Paginate(ds[size..], size)
  }

  /** Every scheduled deployment is visited exactly once and in order. */
  lemma {:induction false} PaginateFlatten(ds: seq<Deployment>, size: nat)
    requires size > 0
    ensures Flatten(Paginate(ds, size)) == ds
    decreases |ds|
  {
    if |ds| < size {
      assert Flatten([ds]) == ds + Flatten([]);
    } else {
      var rest := Paginate(ds[size..], size);
      PaginateFlatten(ds[size..], size);
      assert ([ds[..size]] + rest)[1..] == rest;
      assert ds[..size] + ds[size..] == ds;
    }
  }

  /** There are `|ds| / size + 1` pages, stated without division: `size`
      times the page count overshoots the deployment count by at most one
      page. All but the last page are full and the last is short (empty when
      `size` divides `|ds|`). */
  lemma {:induction false} PaginateSizes(ds: seq<Deployment>, size: nat)
    requires size > 0
    ensures (|Paginate(ds, size)| - 1) * size <= |ds| < |Paginate(ds, size)| * size
    ensures forall i :: 0 <= i < |Paginate(ds, size)| - 1 ==> |Paginate(ds, size)[i]| == size
    ensures |Paginate(ds, size)[|Paginate(ds, size)| - 1]| < size
    decreases |ds|
  {
    if |ds| < size {
      assert |Paginate(ds, size)| == 1;
    } else {
      var rest := Paginate(ds[size..], size);
      PaginateSizes(ds[size..], size);
      var n := |rest|;
      assert Paginate(ds, size) == [ds[..size]] + rest;
      assert (n + 1) * size == n * size + size;
      assert forall i :: 0 < i < n + 1 ==> Paginate(ds, size)[i] == rest[i - 1];
    }
  }

  // ---------------------------------------------------------------------
  // Run generation
  // ---------------------------------------------------------------------

  /** The per-deployment generator: the runs a deployment's schedule yields
      between two times, at most a given number of them, or `None` when it
      fails. */
  type Generator = (Id, Time, Time, nat) -> Option<seq<ScheduledRun>>

  /** The runs generated for a list of deployments, concatenated in list
      order, or `None` if any generator call fails. */
  function GenerateAll(gen: Generator, ds: seq<Deployment>, start: Time, end: Time, maxRuns: nat)
    : Option<seq<ScheduledRun>>
  {
    if ds == [] then Some([])
    else match GenerateAll(gen, ds[..|ds| - 1], start, end, maxRuns)
      case None => None
      case Some(runs) =>
        match gen(ds[|ds| - 1].id, start, end, maxRuns)
        case None => None
        case Some(more) => Some(runs + more)
  }

  lemma {:induction false} GenerateAllConcat(gen: Generator, a: seq<Deployment>, b: seq<Deployment>,
                                              start: Time, end: Time, maxRuns: nat)
    ensures GenerateAll(gen, a + b, start, end, maxRuns) ==
      match GenerateAll(gen, a, start, end, maxRuns)
      case None => None
      case Some(x) =>
        match GenerateAll(gen, b, start, end, maxRuns)
        case None => None
        case Some(y) => Some(x + y)
    decreases |b|
  {
    if b == [] {
      assert a + b == a;
      match GenerateAll(gen, a, start, end, maxRuns)
      case None =>
      case Some(x) => assert x + [] == x;
    } else {
      assert (a + b)[..|a + b| - 1] == a + b[..|b| - 1];
      GenerateAllConcat(gen, a, b[..|b| - 1], start, end, maxRuns);
      match GenerateAll(gen, a, start, end, maxRuns)
      case None =>
      case Some(x) =>
        match GenerateAll(gen, b[..|b| - 1], start, end, maxRuns)
        case None =>
        case Some(y) =>
          match gen(b[|b| - 1].id, start, end, maxRuns)
          case None =>
          case Some(z) =>
            assert x + (y + z) == x + y + z;
    }
  }

  /** Generation succeeds exactly when the generator succeeds for every
      deployment. */
  lemma {:induction false} GenerateAllSucceeds(gen: Generator, ds: seq<Deployment>,
                                                start: Time, end: Time, maxRuns: nat)
    ensures GenerateAll(gen, ds, start, end, maxRuns).Some?
        <==> forall i :: 0 <= i < |ds| ==> gen(ds[i].id, start, end, maxRuns).Some?
    decreases |ds|
  {
    if ds != [] {
      GenerateAllSucceeds(gen, ds[..|ds| - 1], start, end, maxRuns);
      assert forall i :: 0 <= i < |ds| - 1 ==> ds[..|ds| - 1][i] == ds[i];
    }
  }

  /** A generator that keeps to its contract (at most `maxRuns` runs, each for
      the deployment asked about and inside the window). */
  ghost predicate GeneratorKeepsWindow(gen: Generator, start: Time, end: Time, maxRuns: nat) {
    forall id: Id, runs: seq<ScheduledRun> :: gen(id, start, end, maxRuns) == Some(runs) ==>
      |runs| <= maxRuns && forall run :: run in runs ==>
        run.deploymentId == id && start <= run.expectedStartTime <= end
  }

  /** With such a generator, every generated run lies inside the window and
      belongs to one of the deployments, and there are at most `maxRuns` per
      deployment. */
  lemma {:induction false} GenerateAllWithinWindow(gen: Generator, ds: seq<Deployment>,
                                                    start: Time, end: Time, maxRuns: nat)
    requires GeneratorKeepsWindow(gen, start, end, maxRuns)
    requires GenerateAll(gen, ds, start, end, maxRuns).Some?
    ensures |GenerateAll(gen, ds, start, end, maxRuns).value| <= |ds| * maxRuns
    ensures forall run :: run in GenerateAll(gen, ds, start, end, maxRuns).value ==>
      start <= run.expectedStartTime <= end
      && exists d :: d in ds && d.id == run.deploymentId
    decreases |ds|
  {
    if ds != [] {
      var init, last := ds[..|ds| - 1], ds[|ds| - 1];
      GenerateAllWithinWindow(gen, init, start, end, maxRuns);
      var more := gen(last.id, start, end, maxRuns).value;
      assert |ds| * maxRuns == |init| * maxRuns + maxRuns;
      forall run | run in GenerateAll(gen, ds, start, end, maxRuns).value
        ensures exists d :: d in ds && d.id == run.deploymentId
      {
        if run in more {
          assert last in ds;
        } else {
          var d :| d in init && d.id == run.deploymentId;
          assert d in ds;
        }
      }
    }
  }

  /** How many of `runs` belong to deployment `id`. */
  function CountFor(runs: seq<ScheduledRun>, id: Id): nat {
    if runs == [] then 0
    else (if runs[0].deploymentId == id then 1 else 0) + CountFor(runs[1..], id)
  }

  lemma {:induction false} CountForConcat(a: seq<ScheduledRun>, b: seq<ScheduledRun>, id: Id)
    ensures CountFor(a + b, id) == CountFor(a, id) + CountFor(b, id)
    decreases |a|
  {
    if a == [] {
      assert a + b == b;
    } else {
      assert (a + b)[1..] == a[1..] + b;
      CountForConcat(a[1..], b, id);
    }
  }

  /** Runs that all belong to deployment `x` count at most their number for
      `x` and nothing for any other deployment. */
  lemma {:induction false} CountForOne(runs: seq<ScheduledRun>, x: Id, id: Id)
    requires forall run :: run in runs ==> run.deploymentId == x
    ensures CountFor(runs, id) <= |runs|
    ensures x != id ==> CountFor(runs, id) == 0
    decreases |runs|
  {
    if runs != [] {
      assert runs[0] in runs;
      assert forall run :: run in runs[1..] ==> run in runs;
      CountForOne(runs[1..], x, id);
    }
  }

  /** With such a generator and a list of deployments with distinct ids (as
      the scheduled deployments are, in id order), each deployment gets at
      most `maxRuns` of the generated runs, and an id that is not listed gets
      none. */
  lemma {:induction false} GenerateAllPerDeployment(gen: Generator, ds: seq<Deployment>,
                                                     start: Time, end: Time, maxRuns: nat, id: Id)
    requires GeneratorKeepsWindow(gen, start, end, maxRuns)
    requires SortedById(ds)
    requires GenerateAll(gen, ds, start, end, maxRuns).Some?
    ensures CountFor(GenerateAll(gen, ds, start, end, maxRuns).value, id) <= maxRuns
    ensures (forall d :: d in ds ==> d.id != id) ==>
      CountFor(GenerateAll(gen, ds, start, end, maxRuns).value, id) == 0
    decreases |ds|
  {
    if ds != [] {
      var n := |ds|;
      var init, last := ds[..n - 1], ds[n - 1];
      SortedPrefix(ds, n - 1);
      GenerateAllPerDeployment(gen, init, start, end, maxRuns, id);
      var before := GenerateAll(gen, init, start, end, maxRuns).value;
      var more := gen(last.id, start, end, maxRuns).value;
      CountForConcat(before, more, id);
      CountForOne(more, last.id, id);
      if last.id == id {
        forall d | d in init ensures d.id != id {
          var k :| 0 <= k < |init| && init[k] == d;
          assert IdAt(ds, k) < IdAt(ds, n - 1);
        }
      } else {
        assert last in ds;
      }
    }
  }

  /** An insert stores no more runs of a deployment than it is offered. */
  lemma {:induction false} DedupCount(seen: set<RunKey>, runs: seq<ScheduledRun>, id: Id)
    ensures CountFor(Dedup(seen, runs), id) <= CountFor(runs, id)
    decreases |runs|
  {
    if runs != [] {
      if KeyOf(runs[0]) in seen {
        DedupCount(seen, runs[1..], id);
      } else {
        var seen' := seen + {KeyOf(runs[0])};
        DedupCount(seen', runs[1..], id);
        CountForConcat([runs[0]], Dedup(seen', runs[1..]), id);
      }
    }
  }

  /** A pass over a table in id order inserts at most `maxRuns` runs for each
      deployment, and none for a deployment that is not scheduled. */
  lemma PassRunsPerDeployment(gen: Generator, table: seq<Deployment>, stored: seq<ScheduledRun>,
                              start: Time, end: Time, maxRuns: nat, id: Id)
    requires GeneratorKeepsWindow(gen, start, end, maxRuns)
    requires SortedById(table)
    requires GenerateAll(gen, Scheduled(table), start, end, maxRuns).Some?
    ensures CountFor(Dedup(KeysOf(stored), GenerateAll(gen, Scheduled(table), start, end, maxRuns).value), id)
      <= maxRuns
    ensures (forall d :: d in table && IsScheduled(d) ==> d.id != id) ==>
      CountFor(Dedup(KeysOf(stored), GenerateAll(gen, Scheduled(table), start, end, maxRuns).value), id) == 0
  {
    ScheduledSorted(table);
    ScheduledMembers(table);
    GenerateAllPerDeployment(gen, Scheduled(table), start, end, maxRuns, id);
    DedupCount(KeysOf(stored), GenerateAll(gen, Scheduled(table), start, end, maxRuns).value, id);
  }

  // ---------------------------------------------------------------------
  // The session: flow runs table, deployments table, one transaction
  // ---------------------------------------------------------------------

  datatype Error =
    | GeneratorFailed(deploymentId: Id) // a schedule's run generation raised
    | EmptyPageIndex                    // deployments[-1] on an empty page

  /** A database session. `flowRuns` is the flow run table as the session
      sees it; `savedRuns` is what it held when the open transaction began,
      which rolling back restores. */
  class Session {
    var deployments: seq<Deployment>
    var flowRuns: seq<ScheduledRun>
    var savedRuns: seq<ScheduledRun>
    var inTransaction: bool

    predicate Valid()
      reads this
    {
      SortedById(deployments)
    }

    constructor (deployments: seq<Deployment>, flowRuns: seq<ScheduledRun>)
      requires SortedById(deployments)
      ensures Valid() && !inTransaction
      ensures this.deployments == deployments && this.flowRuns == flowRuns
    {
      this.deployments := deployments;
      this.flowRuns := flowRuns;
      savedRuns := flowRuns;
      inTransaction := false;
    }

    method Begin()
      requires !inTransaction
      modifies this
      ensures inTransaction && savedRuns == flowRuns
      ensures deployments == old(deployments) && flowRuns == old(flowRuns)
    {
      inTransaction := true;
      savedRuns := flowRuns;
    }

    /** Insert the runs whose keys are not yet stored; returns those runs. */
    method Insert(batch: seq<ScheduledRun>) returns (inserted: seq<ScheduledRun>)
      requires inTransaction
      modifies this`flowRuns
      ensures inserted == Dedup(KeysOf(old(flowRuns)), batch)
      ensures flowRuns == old(flowRuns) + inserted
    {
      inserted := Dedup(KeysOf(flowRuns), batch);
      flowRuns := flowRuns + inserted;
    }

    method Commit()
      requires inTransaction
      modifies this`inTransaction
      ensures !inTransaction
    {
      inTransaction := false;
    }

    method Rollback()
      requires inTransaction
      modifies this
      ensures !inTransaction && flowRuns == old(savedRuns)
      ensures deployments == old(deployments) && savedRuns == old(savedRuns)
    {
      inTransaction := false;
      flowRuns := savedRuns;
    }
  }

  // ---------------------------------------------------------------------
  // The scheduler
  // ---------------------------------------------------------------------

  class Scheduler {
    const deploymentBatchSize: nat
    const maxRuns: nat
    const maxScheduledTime: nat
    const insertBatchSize: nat

    constructor (deploymentBatchSize: nat, maxRuns: nat, maxScheduledTime: nat, insertBatchSize: nat)
      ensures this.deploymentBatchSize == deploymentBatchSize && this.maxRuns == maxRuns
      ensures this.maxScheduledTime == maxScheduledTime && this.insertBatchSize == insertBatchSize
    {
      this.deploymentBatchSize := deploymentBatchSize;
      this.maxRuns := maxRuns;
      this.maxScheduledTime := maxScheduledTime;
      this.insertBatchSize := insertBatchSize;
    }

    /** The runs of every deployment of a page, concatenated in page order,
        all generated for the window `[now, now + maxScheduledTime]` with at
        most `maxRuns` each; fails at the first deployment whose generation
        fails. */
    method CollectRuns(gen: Generator, page: seq<Deployment>, now: Time)
      returns (result: Result<seq<ScheduledRun>, Error>)
      ensures result.Success? <==> GenerateAll(gen, page, now, now + maxScheduledTime, maxRuns).Some?
      ensures result.Success? ==>
        result.value == GenerateAll(gen, page, now, now + maxScheduledTime, maxRuns).value
      ensures result.Failure? ==>
        exists i :: 0 <= i < |page| && result.error == GeneratorFailed(page[i].id)
          && gen(page[i].id, now, now + maxScheduledTime, maxRuns).None?
    {
      var allRuns := [];
      var i := 0;
      while i < |page|
        invariant 0 <= i <= |page|
        invariant GenerateAll(gen, page[..i], now, now + maxScheduledTime, maxRuns) == Some(allRuns)
      {
        var runs := gen(page[i].id, now, now + maxScheduledTime, maxRuns);
        if runs.None? {
          GenerateAllFailsFrom(gen, page, i, now, now + maxScheduledTime, maxRuns);
          return Failure(GeneratorFailed(page[i].id));
        }
        assert page[..i + 1][..i] == page[..i];
        allRuns := allRuns + runs.value;
        i := i + 1;
      }
      assert page[..i] == page;
      return Success(allRuns);
    }

    /** Insert a page's runs in chunks of `insertBatchSize`, the chunks being
        `Batched(runs, insertBatchSize)` inserted one after another; the number
        returned is the sum of the chunk inserts' sizes, and the table gains
        what inserting all the runs at once would add. */
    method InsertRuns(session: Session, runs: seq<ScheduledRun>)
      returns (count: nat, ghost chunks: seq<seq<ScheduledRun>>)
      requires session.inTransaction && insertBatchSize > 0
      modifies session`flowRuns
      ensures chunks == Batched(runs, insertBatchSize) && Flatten(chunks) == runs
      ensures forall c :: c in chunks ==> 0 < |c| <= insertBatchSize
      ensures session.flowRuns == old(session.flowRuns) + Dedup(KeysOf(old(session.flowRuns)), runs)
      ensures count == |Dedup(KeysOf(old(session.flowRuns)), runs)|
    {
      ghost var start := session.flowRuns;
      var batches := Batched(runs, insertBatchSize);
      chunks := batches;
      BatchedFlatten(runs, insertBatchSize);
      BatchedSizes(runs, insertBatchSize);
      count := 0;
      var j := 0;
      while j < |batches|
        invariant 0 <= j <= |batches|
        invariant session.flowRuns == start + Dedup(KeysOf(start), Flatten(batches[..j]))
        invariant count == |Dedup(KeysOf(start), Flatten(batches[..j]))|
      {
        ChunkStep(start, batches, j, session.flowRuns);
        var inserted := session.Insert(batches[j]);
        count := count + |inserted|;
        j := j + 1;
      }
      assert batches[..j] == batches;
    }

    /** One pass at time `now`, in one transaction. On success the flow run
        table has gained exactly the new runs of every scheduled deployment,
        and the count returned is how many; on failure the transaction is
        rolled back and the table is as it was. */
    method RunOnce(session: Session, gen: Generator, now: Time)
      returns (result: Result<nat, Error>, ghost pages: seq<seq<Deployment>>)
      requires session.Valid() && !session.inTransaction
      requires insertBatchSize > 0
      modifies session
      ensures !session.inTransaction && session.deployments == old(session.deployments)
      ensures result.Success? <==>
        deploymentBatchSize > 0
        && GenerateAll(gen, Scheduled(old(session.deployments)), now, now + maxScheduledTime, maxRuns).Some?
      ensures result.Success? ==>
        var runs := GenerateAll(gen, Scheduled(old(session.deployments)), now, now + maxScheduledTime, maxRuns).value;
        && session.flowRuns == old(session.flowRuns) + Dedup(KeysOf(old(session.flowRuns)), runs)
        && result.value == |Dedup(KeysOf(old(session.flowRuns)), runs)|
        && pages == Paginate(Scheduled(old(session.deployments)), deploymentBatchSize)
      ensures result.Failure? ==> session.flowRuns == old(session.flowRuns)
    {
      session.Begin();
      result, pages := SchedulePass(session, gen, now);
      if result.Success? {
        session.Commit();
      } else {
        session.Rollback();
      }
    }

    /** The body of the transaction: page through the scheduled deployments
        with the id cursor, generating and inserting each page's runs, until
        a page comes back short. */
    method SchedulePass(session: Session, gen: Generator, now: Time)
      returns (result: Result<nat, Error>, ghost pages: seq<seq<Deployment>>)
      requires session.Valid() && session.inTransaction
      requires insertBatchSize > 0
      modifies session`flowRuns
      ensures result.Success? <==>
        deploymentBatchSize > 0
        && GenerateAll(gen, Scheduled(session.deployments), now, now + maxScheduledTime, maxRuns).Some?
      ensures result.Success? ==>
        var runs := GenerateAll(gen, Scheduled(session.deployments), now, now + maxScheduledTime, maxRuns).value;
        && session.flowRuns == old(session.flowRuns) + Dedup(KeysOf(old(session.flowRuns)), runs)
        && result.value == |Dedup(KeysOf(old(session.flowRuns)), runs)|
        && pages == Paginate(Scheduled(session.deployments), deploymentBatchSize)
    {
      ghost var table := session.deployments;
      ghost var q := Scheduled(table);
      ghost var base := session.flowRuns;
      // the deployments of the pages fetched so far, and those still to come
      ghost var visited: seq<Deployment> := [];
      ghost var rest := q;
      // the runs generated so far
      ghost var done: seq<ScheduledRun> := [];
      pages := [];
      var total := 0;
      var lastId: Option<Id> := None;
      while true
        invariant session.inTransaction && session.deployments == table
        invariant visited + rest == q
        invariant lastId == LastIdOf(visited)
        invariant GenerateAll(gen, visited, now, now + maxScheduledTime, maxRuns) == Some(done)
        invariant deploymentBatchSize > 0 ==>
          pages + Paginate(rest, deploymentBatchSize) == Paginate(q, deploymentBatchSize)
        invariant session.flowRuns == base + Dedup(KeysOf(base), done)
        invariant total == |Dedup(KeysOf(base), done)|
        decreases |rest|
      {
        var outcome;
        outcome, lastId, total, visited, rest, done, pages :=
          PassStep(session, gen, now, lastId, total, base, visited, rest, done, pages);
        if outcome.Some? {
          return outcome.value, pages;
        }
      }
    }

    /** One iteration of the paging loop: fetch, generate and insert a page;
        then stop on a failure or a short page, or move the cursor to the
        last id of the page. `visited` and `rest` split the scheduled
        deployments at the cursor, `done` are the runs generated so far
        (inserted on top of `base`) and `pages` the pages fetched. */
    method PassStep(session: Session, gen: Generator, now: Time, lastId: Option<Id>, total: nat,
                    ghost base: seq<ScheduledRun>, ghost visited: seq<Deployment>, ghost rest: seq<Deployment>,
                    ghost done: seq<ScheduledRun>, ghost pages: seq<seq<Deployment>>)
      returns (outcome: Option<Result<nat, Error>>, nextId: Option<Id>, nextTotal: nat,
               ghost visited': seq<Deployment>, ghost rest': seq<Deployment>,
               ghost done': seq<ScheduledRun>, ghost pages': seq<seq<Deployment>>)
      requires session.inTransaction && insertBatchSize > 0
      requires session.Valid() && visited + rest == Scheduled(session.deployments)
      requires lastId == LastIdOf(visited)
      requires GenerateAll(gen, visited, now, now + maxScheduledTime, maxRuns) == Some(done)
      requires deploymentBatchSize > 0 ==>
        pages + Paginate(rest, deploymentBatchSize) == Paginate(visited + rest, deploymentBatchSize)
      requires session.flowRuns == base + Dedup(KeysOf(base), done)
      requires total == |Dedup(KeysOf(base), done)|
      modifies session`flowRuns
      ensures outcome.None? ==>
        && visited' + rest' == visited + rest && |rest'| < |rest|
        && nextId == LastIdOf(visited')
        && GenerateAll(gen, visited', now, now + maxScheduledTime, maxRuns) == Some(done')
        && deploymentBatchSize > 0
        && pages' + Paginate(rest', deploymentBatchSize) == Paginate(visited + rest, deploymentBatchSize)
        && session.flowRuns == base + Dedup(KeysOf(base), done')
        && nextTotal == |Dedup(KeysOf(base), done')|
      ensures outcome.Some? && outcome.value.Success? ==>
        && deploymentBatchSize > 0
        && GenerateAll(gen, visited + rest, now, now + maxScheduledTime, maxRuns) == Some(done')
        && session.flowRuns == base + Dedup(KeysOf(base), done')
        && outcome.value.value == |Dedup(KeysOf(base), done')|
        && pages' == Paginate(visited + rest, deploymentBatchSize)
      ensures outcome.Some? && outcome.value.Failure? ==>
        !(deploymentBatchSize > 0 && GenerateAll(gen, visited + rest, now, now + maxScheduledTime, maxRuns).Some?)
    {
      var page, collected, inserted := SchedulePage(session, gen, now, lastId, visited, rest, base, done);
      nextId, nextTotal, visited', rest', done', pages' := lastId, total, visited, rest, done, pages;
      if collected.Failure? {
        return Some(Failure(collected.error)), nextId, nextTotal, visited', rest', done', pages';
      }
      nextTotal := total + inserted;
      done' := done + collected.value;
      if |page| < deploymentBatchSize {
        // a short page is the last one
        LastPage(gen, visited, rest, page, pages, done', now, now + maxScheduledTime, maxRuns, deploymentBatchSize);
        pages' := pages + [page];
        outcome := Some(Success(nextTotal));
      } else if |page| == 0 {
        // a full page is empty only when the batch size is zero
        outcome := Some(Failure(EmptyPageIndex));
      } else {
        // record the last deployment id
        nextId := Some(page[|page| - 1].id);
        PageAdvance(visited, rest, page, pages, deploymentBatchSize);
        visited', rest' := visited + page, rest[|page|..];
        pages' := pages + [page];
        outcome := None;
      }
    }

    /** One page of the pass: query the next scheduled deployments after the
        cursor, generate their runs and, when generation succeeds, insert
        them. The page is the next `deploymentBatchSize` deployments still to
        come, or all of them when fewer remain; the generation and the
        inserts so far (`done` on top of `base`) are extended by the page's. */
    method SchedulePage(session: Session, gen: Generator, now: Time, lastId: Option<Id>,
                        ghost visited: seq<Deployment>, ghost rest: seq<Deployment>,
                        ghost base: seq<ScheduledRun>, ghost done: seq<ScheduledRun>)
      returns (page: seq<Deployment>, collected: Result<seq<ScheduledRun>, Error>, inserted: nat)
      requires session.inTransaction && insertBatchSize > 0
      requires session.Valid() && visited + rest == Scheduled(session.deployments)
      requires lastId == LastIdOf(visited)
      requires GenerateAll(gen, visited, now, now + maxScheduledTime, maxRuns) == Some(done)
      requires session.flowRuns == base + Dedup(KeysOf(base), done)
      modifies session`flowRuns
      ensures |page| <= deploymentBatchSize && |page| <= |rest| && page == rest[..|page|]
      ensures |page| < deploymentBatchSize ==> page == rest
      ensures collected.Success? <==> GenerateAll(gen, page, now, now + maxScheduledTime, maxRuns).Some?
      ensures collected.Success? ==>
        && GenerateAll(gen, visited + page, now, now + maxScheduledTime, maxRuns) == Some(done + collected.value)
        && session.flowRuns == base + Dedup(KeysOf(base), done + collected.value)
        && |Dedup(KeysOf(base), done)| + inserted == |Dedup(KeysOf(base), done + collected.value)|
      ensures collected.Failure? ==>
        && GenerateAll(gen, visited + rest, now, now + maxScheduledTime, maxRuns).None?
        && session.flowRuns == old(session.flowRuns)
    {
      NextPage(session.deployments, visited, rest, lastId);
      page := Take(Matching(session.deployments, PageQuery(lastId)), deploymentBatchSize);
      collected := CollectRuns(gen, page, now);
      inserted := 0;
      if collected.Success? {
        PageSucceeds(gen, visited, page, done, collected.value, now, now + maxScheduledTime, maxRuns);
        InsertStep(base, done, collected.value);
        ghost var chunks;
        inserted, chunks := InsertRuns(session, collected.value);
      } else {
        PageFails(gen, visited, rest, page, now, now + maxScheduledTime, maxRuns);
      }
    }
  }

  /** The cursor after the pages fetched so far: the id of the last
      deployment visited, none before the first page. */
  function LastIdOf(visited: seq<Deployment>): Option<Id> {
    if visited == [] then None else Some(visited[|visited| - 1].id)
  }

  /** With the cursor after the deployments visited so far, the page query
      selects exactly the scheduled deployments still to come. */
  lemma NextPage(table: seq<Deployment>, visited: seq<Deployment>, rest: seq<Deployment>, lastId: Option<Id>)
    requires SortedById(table) && visited + rest == Scheduled(table)
    requires lastId == LastIdOf(visited)
    ensures Matching(table, PageQuery(lastId)) == rest
  {
    ScheduledSorted(table);
    MatchingPageQuery(table, lastId);
    RestAfterCursor(Scheduled(table), visited, rest, lastId);
  }

  /** In a sorted list split into a visited part and the rest, what is above
      the cursor after the visited part is the rest. */
  lemma RestAfterCursor(q: seq<Deployment>, visited: seq<Deployment>, rest: seq<Deployment>, lastId: Option<Id>)
    requires SortedById(q) && visited + rest == q
    requires lastId == LastIdOf(visited)
    ensures After(q, lastId) == rest
  {
    if visited == [] {
      AfterNone(q);
      assert q == rest;
    } else {
      var i := |visited| - 1;
      assert q[i] == visited[i];
      AfterCursor(q, i);
      assert q[i + 1..] == rest;
    }
  }

  /** A page whose generation fails makes the whole pass's generation fail. */
  lemma PageFails(gen: Generator, visited: seq<Deployment>, rest: seq<Deployment>, page: seq<Deployment>,
                  start: Time, end: Time, maxRuns: nat)
    requires |page| <= |rest| && page == rest[..|page|]
    requires GenerateAll(gen, page, start, end, maxRuns).None?
    ensures GenerateAll(gen, visited + rest, start, end, maxRuns).None?
  {
    GenerateAllSucceeds(gen, page, start, end, maxRuns);
    var i :| 0 <= i < |page| && gen(page[i].id, start, end, maxRuns).None?;
    assert (visited + rest)[|visited| + i] == page[i];
    GenerateAllFailsFrom(gen, visited + rest, |visited| + i, start, end, maxRuns);
  }

  /** A short page is the last one: it holds all the deployments still to
      come, so the pass has generated the runs of every scheduled deployment
      and fetched all its pages. */
  lemma LastPage(gen: Generator, visited: seq<Deployment>, rest: seq<Deployment>, page: seq<Deployment>,
                 pages: seq<seq<Deployment>>, done: seq<ScheduledRun>, start: Time, end: Time, maxRuns: nat,
                 size: nat)
    requires |page| < size && page == rest
    requires GenerateAll(gen, visited + page, start, end, maxRuns) == Some(done)
    ensures GenerateAll(gen, visited + rest, start, end, maxRuns) == Some(done)
    ensures pages + Paginate(rest, size) == pages + [page]
  {
  }

  /** A page whose generation succeeds extends the runs generated so far. */
  lemma PageSucceeds(gen: Generator, visited: seq<Deployment>, page: seq<Deployment>,
                     done: seq<ScheduledRun>, runs: seq<ScheduledRun>, start: Time, end: Time, maxRuns: nat)
    requires GenerateAll(gen, visited, start, end, maxRuns) == Some(done)
    requires GenerateAll(gen, page, start, end, maxRuns) == Some(runs)
    ensures GenerateAll(gen, visited + page, start, end, maxRuns) == Some(done + runs)
  {
    GenerateAllConcat(gen, visited, page, start, end, maxRuns);
  }

  /** A full page moves from the deployments still to come to those visited,
      and from the pages still to come to those fetched. */
  lemma PageAdvance(visited: seq<Deployment>, rest: seq<Deployment>, page: seq<Deployment>,
                    pages: seq<seq<Deployment>>, size: nat)
    requires 0 < |page| == size <= |rest| && page == rest[..size]
    ensures visited + page + rest[size..] == visited + rest
    ensures LastIdOf(visited + page) == Some(page[|page| - 1].id)
    ensures Paginate(rest, size) == [page] + Paginate(rest[size..], size)
    ensures pages + [page] + Paginate(rest[size..], size) == pages + Paginate(rest, size)
  {
    assert page + rest[size..] == rest;
    assert (visited + page)[|visited + page| - 1] == page[|page| - 1];
  }

  /** The first `n` elements, or all of them when there are fewer. */
  function Take<T>(s: seq<T>, n: nat): (r: seq<T>)
    ensures |r| <= n && |r| <= |s| && r == s[..|r|]
    ensures |r| < n ==> r == s
  {
    if |s| <= n then s else s[..n]
  }

  /** A failing generator call for the `i`-th deployment makes the whole
      generation fail. */
  lemma GenerateAllFailsFrom(gen: Generator, ds: seq<Deployment>, i: nat,
                             start: Time, end: Time, maxRuns: nat)
    requires i < |ds| && gen(ds[i].id, start, end, maxRuns).None?
    ensures GenerateAll(gen, ds, start, end, maxRuns).None?
  {
    GenerateAllSucceeds(gen, ds, start, end, maxRuns);
  }

  /** Inserting the next chunk continues the inserts of the chunks before it. */
  lemma ChunkStep(start: seq<ScheduledRun>, chunks: seq<seq<ScheduledRun>>, j: nat, stored: seq<ScheduledRun>)
    requires j < |chunks| && stored == start + Dedup(KeysOf(start), Flatten(chunks[..j]))
    ensures stored + Dedup(KeysOf(stored), chunks[j]) == start + Dedup(KeysOf(start), Flatten(chunks[..j + 1]))
    ensures |Dedup(KeysOf(start), Flatten(chunks[..j]))| + |Dedup(KeysOf(stored), chunks[j])|
      == |Dedup(KeysOf(start), Flatten(chunks[..j + 1]))|
  {
    var offered := Flatten(chunks[..j]);
    assert Flatten(chunks[..j + 1]) == offered + chunks[j] by {
      assert chunks[..j + 1] == chunks[..j] + [chunks[j]];
      FlattenConcat(chunks[..j], [chunks[j]]);
      assert Flatten([chunks[j]]) == chunks[j] + Flatten([]);
    }
    InsertStep(start, offered, chunks[j]);
    var before := Dedup(KeysOf(start), offered);
    var added := Dedup(KeysOf(stored), chunks[j]);
    assert |start + before + added| == |start| + |before| + |added|;
  }

  /** One chunk insert continues a pass: the store after inserting `batch`
      is what inserting everything offered so far would give. */
  lemma InsertStep(base: seq<ScheduledRun>, offered: seq<ScheduledRun>, batch: seq<ScheduledRun>)
    ensures base + Dedup(KeysOf(base), offered)
        + Dedup(KeysOf(base + Dedup(KeysOf(base), offered)), batch)
      == base + Dedup(KeysOf(base), offered + batch)
  {
    var seen := KeysOf(base);
    var stored := Dedup(seen, offered);
    DedupKeys(seen, offered);
    KeysOfConcat(base, stored);
    assert KeysOf(base + stored) == seen + KeysOf(offered);
    DedupConcat(seen, offered, batch);
    var more := Dedup(seen + KeysOf(offered), batch);
    assert base + stored + more == base + (stored + more);
  }
}
