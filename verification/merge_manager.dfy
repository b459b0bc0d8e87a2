/**
 * The weekly merge orchestrator: the three-phase execution plan, the one run
 * that may be active at a time, the events it emits while it runs, and the
 * capped history of completed runs.
 *
 * The remote side of each repository merge is an executor: a function from
 * (repository, direction) to what `processMerge` resolved to or the error it
 * threw. The order in which the concurrent merges of the parallel phase
 * settle is a permutation given by the caller. Clock readings are
 * parameters.
 */
module Orchestrator {
  import opened Wrappers
  import opened JsText
  import opened Decimal
  import Config
  import GitHub

  type MergeRecord = GitHub.MergeRecord

  const MaxHistory := 50
  const DefaultHistoryLimit := 10
  const TotalPhases := 3
  const AlreadyRunning := "이미 실행 중인 프로세스가 있습니다."

  // ---------------------------------------------------------------------
  // The repository list read by the constructor without a config manager
  // ---------------------------------------------------------------------

  predicate NonEmpty(s: string) {
    s != ""
  }

  /** `(REPOSITORIES || '').split(',').map(trim).filter(Boolean)`. */
  function TrimmedRepositories(raw: Option<string>): (r: seq<string>)
    ensures forall i :: 0 <= i < |r| ==> r[i] != "" && ',' !in r[i] && IsTrimmed(r[i])
  {
    var text := if Truthy(raw) then raw.value else "";
    var pieces := Split(text, ',');
    var trimmed := Map(pieces, Trim);
    var r := Filter(trimmed, NonEmpty);
    assert forall i :: 0 <= i < |r| ==> ',' !in r[i] && IsTrimmed(r[i]) by {
      forall i | 0 <= i < |r| ensures ',' !in r[i] && IsTrimmed(r[i]) {
        var k :| 0 <= k < |trimmed| && trimmed[k] == r[i];
        assert ',' !in pieces[k];
      }
    }
    r
  }

  /** Trimming every piece and then dropping the empty ones keeps the same
      pieces, in the same order, as dropping the blank ones and trimming what
      is left. */
  lemma {:induction false} TrimThenFilter(pieces: seq<string>)
    ensures Filter(Map(pieces, Trim), NonEmpty) == Map(Filter(pieces, Config.NonBlank), Trim)
  {
    if pieces != [] {
      TrimThenFilter(pieces[1..]);
      var m := Map(pieces, Trim);
      assert m[1..] == Map(pieces[1..], Trim);
      assert NonEmpty(m[0]) <==> Config.NonBlank(pieces[0]);
      if Config.NonBlank(pieces[0]) {
        var kept := Filter(pieces[1..], Config.NonBlank);
        assert Filter(pieces, Config.NonBlank) == [pieces[0]] + kept;
        assert Map([pieces[0]] + kept, Trim)[1..] == Map(kept, Trim);
      }
    }
  }

  /** Both ways the constructor reads `REPOSITORIES` find the same
      repositories in the same order; the list read through the config
      manager keeps the white space around each name, the direct read trims
      it. */
  lemma RepositoryListsAgree(env: Config.Env)
    ensures TrimmedRepositories(Config.Lookup(env, Config.RepositoriesKey))
            == Map(Config.Repositories(env), Trim)
  {
    var raw := Config.Lookup(env, Config.RepositoriesKey);
    var text := if Truthy(raw) then raw.value else "";
    assert Config.Get(env, Config.RepositoriesKey, Some("")).value == text;
    var pieces := Split(text, ',');
    TrimThenFilter(pieces);
    assert TrimmedRepositories(raw) == Filter(Map(pieces, Trim), NonEmpty);
    assert Config.Repositories(env) == Filter(pieces, Config.NonBlank);
  }

  // ---------------------------------------------------------------------
  // The execution plan
  // ---------------------------------------------------------------------

  datatype Plan = Plan(phase1: seq<string>, phase2: seq<string>, phase3: seq<string>)

  predicate Distinct(s: seq<string>) {
    forall i, j :: 0 <= i < j < |s| ==> s[i] != s[j]
  }

  /** `getExecutionOrder()`: the core library first, then the external API,
      then the three remaining services. */
  function ExecutionOrder(): (p: Plan)
    ensures |p.phase1| == 1 && |p.phase2| == 1 && |p.phase3| == 3
  {
    Plan(["danal-core"], ["smart-settlement-extapi"],
         ["smart-settlement-batch", "smart-settlement-api", "smart-settlement-merchant-interface"])
  }

  /** No repository appears twice in the plan, so each is merged once per run. */
  lemma ExecutionOrderDistinct()
    ensures Distinct(AllRepositories())
  {
    assert "danal-core"[0] != "smart-settlement-extapi"[0];
    assert "smart-settlement-extapi"[17] != "smart-settlement-batch"[17];
    assert "smart-settlement-extapi"[17] != "smart-settlement-api"[17];
    assert |"smart-settlement-extapi"| != |"smart-settlement-merchant-interface"|;
    assert "smart-settlement-batch"[17] != "smart-settlement-api"[17];
    assert |"smart-settlement-batch"| != |"smart-settlement-merchant-interface"|;
    assert |"smart-settlement-api"| != |"smart-settlement-merchant-interface"|;
  }

  /** The repositories of phase `n` (none outside 1..3). */
  function PhaseRepos(n: nat): seq<string> {
    match n
    case 1 => ExecutionOrder().phase1
    case 2 => ExecutionOrder().phase2
    case 3 => ExecutionOrder().phase3
    case _ => []
  }

  /** Only the third phase runs its repositories concurrently. */
  predicate IsParallel(n: nat) {
    n == 3
  }

  // ---------------------------------------------------------------------
  // Runs, executors and events
  // ---------------------------------------------------------------------

  datatype RunStatus = Running | Completed | Failed | Cancelled

  /** The `currentProcess` object; `endTime`, `duration` and `error` are
      absent until the run ends. */
  datatype Run = Run(id: string, direction: string, status: RunStatus, startTime: int,
                     endTime: Option<int>, duration: Option<int>, results: seq<MergeRecord>,
                     currentPhase: nat, totalPhases: nat, error: Option<string>)

  /** What awaiting `processMerge(repo, direction)` gives: the record it
      resolved to, or the message of what it threw and the instant of the catch. */
  datatype ExecReply = Returned(record: MergeRecord) | Thrown(message: string, at: string)

  type Executor = (string, string) -> ExecReply

  /** An executor whose records are about the repository and direction asked for. */
  ghost predicate Echoes(exec: Executor) {
    forall repo, direction :: exec(repo, direction).Returned? ==>
      exec(repo, direction).record.repo == repo && exec(repo, direction).record.direction == direction
  }

  datatype Event =
    | ProcessStarted(run: Run)
    | PhaseStarted(phase: nat, repositories: seq<string>, parallel: bool)
    | RepositoryStarted(repo: string, direction: string)
    | RepositoryCompleted(record: MergeRecord)
    | RepositoryFailed(record: MergeRecord)
    | PhaseCompleted(phase: nat, results: seq<MergeRecord>)
    | ProcessCompleted(run: Run)
    | ProcessFailed(run: Run)
    | ProcessCancelled(run: Run)

  predicate IsSettlement(e: Event) {
    e.RepositoryCompleted? || e.RepositoryFailed?
  }

  predicate IsPhaseStart(e: Event) {
    e.PhaseStarted?
  }

  /** The record `executeRepository` returns for a reply. */
  function Outcome(repo: string, direction: string, reply: ExecReply): MergeRecord {
    match reply
    case Returned(record) => record
    case Thrown(message, at) => GitHub.Failed(repo, direction, message, at)
  }

  /** The event `executeRepository` emits once the reply is in. */
  function Settled(repo: string, direction: string, reply: ExecReply): (e: Event)
    ensures IsSettlement(e)
    ensures e.RepositoryFailed? <==> reply.Thrown?
    ensures e.record == Outcome(repo, direction, reply)
  {
    match reply
    case Returned(record) => RepositoryCompleted(record)
    case Thrown(_, _) => RepositoryFailed(Outcome(repo, direction, reply))
  }

  /** The clock readings of one run: `Date.now()` for the id, then
      `new Date()` at the start and at the end. */
  datatype Clock = Clock(idMillis: nat, startMillis: int, endMillis: int)

  /** `getDuration()`: the elapsed milliseconds in whole seconds, halves
      rounded up (`Math.round`). The `!startTime` guard never fires, since
      the start is a `Date` object. */
  function Duration(start: int, end: int): (r: int)
    ensures 1000 * r - 500 <= end - start < 1000 * r + 500
  {
    (end - start + 500) / 1000
  }

  /** Rounding to seconds never decreases as the end moves later. */
  lemma DurationMonotone(start: int, end1: int, end2: int)
    requires end1 <= end2
    ensures Duration(start, end1) <= Duration(start, end2)
  {
  }

  /** A listener that throws: on `process-started` when `at` is 0, on the
      `phase-started` event of phase `at` otherwise. */
  datatype Fault = Fault(at: nat, message: string)

  function FaultAt(fault: Option<Fault>, n: nat): Option<string> {
    if fault.Some? && fault.value.at == n then Some(fault.value.message) else None
  }

  /** A fault on an event some run emits. */
  predicate Fires(fault: Option<Fault>) {
    fault.Some? && fault.value.at <= TotalPhases
  }

  // ---------------------------------------------------------------------
  // What one phase does
  // ---------------------------------------------------------------------

  /** The results of a phase, one per repository, in the order of the plan. */
  function PhaseResults(repos: seq<string>, direction: string, exec: Executor): (r: seq<MergeRecord>)
    decreases |repos|
    ensures |r| == |repos|
    ensures forall i :: 0 <= i < |repos| ==> r[i] == Outcome(repos[i], direction, exec(repos[i], direction))
  {
    if repos == [] then []
    else
      var last := repos[|repos| - 1];
      PhaseResults(repos[..|repos| - 1], direction, exec) + [Outcome(last, direction, exec(last, direction))]
  }

  /** The events of a sequential phase between its start and its end: each
      repository starts and settles before the next one starts. */
  function SerialEvents(repos: seq<string>, direction: string, exec: Executor): (r: seq<Event>)
    decreases |repos|
    ensures |r| == 2 * |repos|
    ensures forall i :: 0 <= i < |r| ==> r[i].RepositoryStarted? || IsSettlement(r[i])
    ensures forall k :: 0 <= k < |repos| ==>
              r[2 * k] == RepositoryStarted(repos[k], direction)
              && r[2 * k + 1] == Settled(repos[k], direction, exec(repos[k], direction))
  {
    if repos == [] then []
    else
      var last := repos[|repos| - 1];
      SerialEvents(repos[..|repos| - 1], direction, exec)
        + [RepositoryStarted(last, direction), Settled(last, direction, exec(last, direction))]
  }

  /** The `repository-started` events of a parallel phase, in list order. */
  function LaunchEvents(repos: seq<string>, direction: string): (r: seq<Event>)
    decreases |repos|
    ensures |r| == |repos|
    ensures forall k :: 0 <= k < |repos| ==> r[k] == RepositoryStarted(repos[k], direction)
  {
    if repos == [] then []
    else LaunchEvents(repos[..|repos| - 1], direction) + [RepositoryStarted(repos[|repos| - 1], direction)]
  }

  predicate InRange(order: seq<nat>, n: nat) {
    forall k :: 0 <= k < |order| ==> order[k] < n
  }

  /** Every index below `n` exactly once. */
  predicate IsPermutation(order: seq<nat>, n: nat) {
    && |order| == n
    && InRange(order, n)
    && (forall k, l :: 0 <= k < l < |order| ==> order[k] != order[l])
    && (forall j :: 0 <= j < n ==> j in order)
  }

  /** The settlement events of a parallel phase, in the order the calls finish. */
  function SettleEvents(repos: seq<string>, direction: string, exec: Executor, order: seq<nat>): (r: seq<Event>)
    requires InRange(order, |repos|)
    decreases |order|
    ensures |r| == |order|
    ensures forall k :: 0 <= k < |order| ==>
              r[k] == Settled(repos[order[k]], direction, exec(repos[order[k]], direction))
  {
    if order == [] then []
    else
      var j := order[|order| - 1];
      SettleEvents(repos, direction, exec, order[..|order| - 1])
        + [Settled(repos[j], direction, exec(repos[j], direction))]
  }

  /** Everything phase `n` emits when no listener throws. */
  function PhaseEvents(n: nat, repos: seq<string>, direction: string, parallel: bool,
                       exec: Executor, settle: seq<nat>): seq<Event>
    requires parallel ==> IsPermutation(settle, |repos|)
  {
    [PhaseStarted(n, repos, parallel)]
    + PhaseMiddle(repos, direction, parallel, exec, settle)
    + [PhaseCompleted(n, PhaseResults(repos, direction, exec))]
  }

  /** The repository events of a phase. */
  function PhaseMiddle(repos: seq<string>, direction: string, parallel: bool,
                       exec: Executor, settle: seq<nat>): seq<Event>
    requires parallel ==> IsPermutation(settle, |repos|)
  {
    if parallel then LaunchEvents(repos, direction) + SettleEvents(repos, direction, exec, settle)
    else SerialEvents(repos, direction, exec)
  }

  /** What phase `n` emits: only its start when a `phase-started` listener
      throws `fault`, everything otherwise. */
  function PhaseTrace(n: nat, repos: seq<string>, direction: string, parallel: bool,
                      exec: Executor, settle: seq<nat>, fault: Option<string>): seq<Event>
    requires parallel ==> IsPermutation(settle, |repos|)
  {
    if fault.Some? then [PhaseStarted(n, repos, parallel)]
    else PhaseEvents(n, repos, direction, parallel, exec, settle)
  }

  /** What phase `n` adds to the run's results: nothing when it throws. */
  function PhaseOutput(repos: seq<string>, direction: string, exec: Executor, fault: Option<string>): seq<MergeRecord> {
    if fault.Some? then [] else PhaseResults(repos, direction, exec)
  }

  /** In a parallel phase every repository starts before any of them settles. */
  lemma ParallelLaunchesFirst(n: nat, repos: seq<string>, direction: string, exec: Executor, settle: seq<nat>)
    requires IsPermutation(settle, |repos|)
    ensures var ev := PhaseEvents(n, repos, direction, true, exec, settle);
            forall i, j :: 0 <= i < |ev| && 0 <= j < |ev| && ev[i].RepositoryStarted? && IsSettlement(ev[j]) ==> i < j
  {
    var ev := PhaseEvents(n, repos, direction, true, exec, settle);
    var launch := LaunchEvents(repos, direction);
    var done := SettleEvents(repos, direction, exec, settle);
    assert ev == [PhaseStarted(n, repos, true)] + launch + done + [PhaseCompleted(n, PhaseResults(repos, direction, exec))];
  }

  /** `0, 1, …, n - 1`: the order in which a sequential phase settles. */
  function Indices(n: nat): (r: seq<nat>)
    ensures |r| == n && forall k :: 0 <= k < n ==> r[k] == k
  {
    if n == 0 then [] else Indices(n - 1) + [n - 1]
  }

  /** In a phase every repository settles exactly once: the settlements are
      those of the repositories in list order, permuted by the settling order
      in a parallel phase, and exactly in list order in a sequential one. */
  lemma SettlementsPerPhase(n: nat, repos: seq<string>, direction: string, parallel: bool,
                            exec: Executor, settle: seq<nat>)
    requires parallel ==> IsPermutation(settle, |repos|)
    ensures var settled := Filter(PhaseEvents(n, repos, direction, parallel, exec, settle), IsSettlement);
            && multiset(settled) == multiset(SettleEvents(repos, direction, exec, Indices(|repos|)))
            && (!parallel ==> settled == SettleEvents(repos, direction, exec, Indices(|repos|)))
            && |settled| == |repos|
  {
    var middle := PhaseMiddle(repos, direction, parallel, exec, settle);
    assert PhaseEvents(n, repos, direction, parallel, exec, settle)
           == [PhaseStarted(n, repos, parallel)] + middle + [PhaseCompleted(n, PhaseResults(repos, direction, exec))];
    FilterBetween(PhaseStarted(n, repos, parallel), middle, PhaseCompleted(n, PhaseResults(repos, direction, exec)),
                  IsSettlement);
    if parallel {
      ParallelSettlements(repos, direction, exec, settle);
    } else {
      SerialSettlements(repos, direction, exec);
      assert Filter(middle, IsSettlement) == SettleEvents(repos, direction, exec, Indices(|repos|));
    }
  }

  /** The settlements of a parallel phase are those of its repositories in
      list order, rearranged by the settling order. */
  lemma ParallelSettlements(repos: seq<string>, direction: string, exec: Executor, settle: seq<nat>)
    requires IsPermutation(settle, |repos|)
    ensures var settled := Filter(LaunchEvents(repos, direction) + SettleEvents(repos, direction, exec, settle),
                                  IsSettlement);
            && multiset(settled) == multiset(SettleEvents(repos, direction, exec, Indices(|repos|)))
            && |settled| == |repos|
  {
    LaunchesThenSettlements(LaunchEvents(repos, direction), SettleEvents(repos, direction, exec, settle));
    PermutedSettlements(repos, direction, exec, settle);
  }

  /** Keeping the settlements of launches followed by settlements keeps the settlements. */
  lemma LaunchesThenSettlements(launch: seq<Event>, done: seq<Event>)
    requires forall i :: 0 <= i < |launch| ==> launch[i].RepositoryStarted?
    requires forall i :: 0 <= i < |done| ==> IsSettlement(done[i])
    ensures Filter(launch + done, IsSettlement) == done
  {
    FilterAppend(launch, done, IsSettlement);
    FilterNone(launch);
    FilterAll(done, IsSettlement);
  }

  /** Settling in a permuted order settles the same repositories, each as often. */
  lemma PermutedSettlements(repos: seq<string>, direction: string, exec: Executor, settle: seq<nat>)
    requires IsPermutation(settle, |repos|)
    ensures multiset(SettleEvents(repos, direction, exec, settle))
            == multiset(SettleEvents(repos, direction, exec, Indices(|repos|)))
  {
    var all := SettleEvents(repos, direction, exec, Indices(|repos|));
    assert SettleEvents(repos, direction, exec, settle) == Pick(all, settle);
    assert Pick(all, Indices(|repos|)) == all;
    PermutationIndices(settle, |repos|);
    PickMultiset(all, settle, Indices(|repos|));
  }

  lemma {:induction false} FilterNone(launch: seq<Event>)
    requires forall i :: 0 <= i < |launch| ==> launch[i].RepositoryStarted?
    ensures Filter(launch, IsSettlement) == []
  {
    if launch != [] {
      FilterNone(launch[1..]);
    }
  }

  /** A sequential phase settles its repositories in list order. */
  lemma {:induction false} SerialSettlements(repos: seq<string>, direction: string, exec: Executor)
    decreases |repos|
    ensures var settled := Filter(SerialEvents(repos, direction, exec), IsSettlement);
            && |settled| == |repos|
            && forall k :: 0 <= k < |repos| ==> settled[k] == Settled(repos[k], direction, exec(repos[k], direction))
  {
    if repos != [] {
      var init := repos[..|repos| - 1];
      var last := repos[|repos| - 1];
      SerialSettlements(init, direction, exec);
      var pair := [RepositoryStarted(last, direction), Settled(last, direction, exec(last, direction))];
      FilterAppend(SerialEvents(init, direction, exec), pair, IsSettlement);
      assert pair[1..] == [pair[1]];
      assert Filter(pair, IsSettlement) == [pair[1]];
      var prior := Filter(SerialEvents(init, direction, exec), IsSettlement);
      var settled := Filter(SerialEvents(repos, direction, exec), IsSettlement);
      assert settled == prior + [pair[1]];
      forall k | 0 <= k < |repos|
        ensures settled[k] == Settled(repos[k], direction, exec(repos[k], direction))
      {
        if k < |init| {
          assert settled[k] == prior[k] && init[k] == repos[k];
        }
      }
    }
  }

  /** `order.map(k => xs[k])`. */
  function Pick<T>(xs: seq<T>, order: seq<nat>): (r: seq<T>)
    requires InRange(order, |xs|)
    ensures |r| == |order| && forall k :: 0 <= k < |order| ==> r[k] == xs[order[k]]
  {
    seq(|order|, k requires 0 <= k < |order| => xs[order[k]])
  }

  /** Picking in one order or in a rearrangement of it gives the same
      elements, each as often. */
  lemma {:induction false} PickMultiset<T>(xs: seq<T>, o1: seq<nat>, o2: seq<nat>)
    requires InRange(o1, |xs|) && InRange(o2, |xs|)
    requires multiset(o1) == multiset(o2)
    decreases |o1|
    ensures multiset(Pick(xs, o1)) == multiset(Pick(xs, o2))
  {
    if o1 == [] {
      assert |o2| == |multiset(o2)| == 0;
    } else {
      var i1 := o1[..|o1| - 1];
      var j := o1[|o1| - 1];
      var p := MatchLast(o1, o2);
      var before, after := o2[..p], o2[p + 1..];
      PickMultiset(xs, i1, before + after);
      PickStep(xs, i1, j, before, after);
    }
  }

  /** Where the last element of `o1` sits in a rearrangement `o2` of it;
      what is left on both sides is again a rearrangement. */
  lemma MatchLast(o1: seq<nat>, o2: seq<nat>) returns (p: nat)
    requires o1 != [] && multiset(o1) == multiset(o2)
    ensures p < |o2| && o2[p] == o1[|o1| - 1]
    ensures o1 == o1[..|o1| - 1] + [o1[|o1| - 1]]
    ensures o2 == o2[..p] + [o2[p]] + o2[p + 1..]
    ensures multiset(o1[..|o1| - 1]) == multiset(o2[..p] + o2[p + 1..])
  {
    var j := o1[|o1| - 1];
    assert o1 == o1[..|o1| - 1] + [j];
    assert j in multiset(o2);
    p :| 0 <= p < |o2| && o2[p] == j;
    assert o2 == o2[..p] + [j] + o2[p + 1..];
    MultisetInsert(o1[..|o1| - 1], j, o2[..p], o2[p + 1..]);
  }

  /** Putting the same index back on both sides keeps the picked elements equal as multisets. */
  lemma PickStep<T>(xs: seq<T>, a: seq<nat>, j: nat, c: seq<nat>, d: seq<nat>)
    requires InRange(a, |xs|) && InRange(c, |xs|) && InRange(d, |xs|) && j < |xs|
    requires multiset(Pick(xs, a)) == multiset(Pick(xs, c + d))
    ensures InRange(a + [j], |xs|) && InRange(c + [j] + d, |xs|)
    ensures multiset(Pick(xs, a + [j])) == multiset(Pick(xs, c + [j] + d))
  {
    PickAppend(xs, c, d);
    PickAppend(xs, a, [j]);
    PickAppend(xs, c, [j]);
    PickAppend(xs, c + [j], d);
    assert Pick(xs, [j]) == [xs[j]];
    MultisetInsert(Pick(xs, a), xs[j], Pick(xs, c), Pick(xs, d));
  }

  /** Adding the same element to both sides keeps two sequences' multisets
      equal, and removing it does too. */
  lemma MultisetInsert<T>(a: seq<T>, x: T, c: seq<T>, d: seq<T>)
    ensures multiset(a + [x]) == multiset(c + [x] + d) <==> multiset(a) == multiset(c + d)
  {
    assert multiset(a + [x]) == multiset(a) + multiset{x};
    assert multiset(c + [x] + d) == multiset(c + d) + multiset{x};
    assert multiset(a) == multiset(a + [x]) - multiset{x};
    assert multiset(c + d) == multiset(c + [x] + d) - multiset{x};
  }
  lemma PickAppend<T>(xs: seq<T>, a: seq<nat>, b: seq<nat>)
    requires InRange(a, |xs|) && InRange(b, |xs|)
    ensures InRange(a + b, |xs|)
    ensures Pick(xs, a + b) == Pick(xs, a) + Pick(xs, b)
  {
    var ab := a + b;
    assert forall k :: 0 <= k < |ab| ==> ab[k] == if k < |a| then a[k] else b[k - |a|];
  }
  /** A permutation holds every index below `n` exactly once. */
  lemma PermutationIndices(order: seq<nat>, n: nat)
    requires IsPermutation(order, n)
    ensures multiset(order) == multiset(Indices(n))
  {
    var ix := Indices(n);
    forall x: nat ensures multiset(order)[x] == multiset(ix)[x] {
      DistinctCount(order, x);
      DistinctCount(ix, x);
      if x < n {
        assert ix[x] == x;
      }
    }
  }

  lemma {:induction false} DistinctCount(s: seq<nat>, x: nat)
    requires forall k, l :: 0 <= k < l < |s| ==> s[k] != s[l]
    ensures multiset(s)[x] == if x in s then 1 else 0
  {
    if s != [] {
      var init := s[..|s| - 1];
      DistinctCount(init, x);
      assert s == init + [s[|s| - 1]];
      assert s[|s| - 1] !in init;
    }
  }

  // ---------------------------------------------------------------------
  // What one run does
  // ---------------------------------------------------------------------

  /** The `currentProcess` object a run starts with. */
  function InitialRun(direction: string, clock: Clock): (r: Run)
    ensures r.status == Running && r.results == [] && r.currentPhase == 1 && r.totalPhases == TotalPhases
    ensures r.direction == direction && r.startTime == clock.startMillis
    ensures r.endTime.None? && r.duration.None? && r.error.None?
  {
    Run(RunId(direction, clock.idMillis), direction, Running, clock.startMillis, None, None, [], 1, TotalPhases, None)
  }

  /** The id `${direction}-${Date.now()}`. */
  function RunId(direction: string, millis: nat): string {
    direction + "-" + NatToDecimal(millis)
  }

  /** A run id is the direction, a dash, and the start time in decimal digits. */
  lemma RunIdFormat(direction: string, millis: nat)
    ensures var id := RunId(direction, millis);
            && |id| > |direction| + 1 && id[..|direction| + 1] == direction + "-"
            && AllDigits(id[|direction| + 1..]) && RadixValue(id[|direction| + 1..], 10) == millis
  {
    var stamp := NatToDecimal(millis);
    NatToDecimalValue(millis);
    assert RunId(direction, millis)[|direction| + 1..] == stamp;
  }

  /** Two runs in the same direction started at different milliseconds get different ids. */
  lemma RunIdsDiffer(direction: string, c1: Clock, c2: Clock)
    requires c1.idMillis != c2.idMillis
    ensures InitialRun(direction, c1).id != InitialRun(direction, c2).id
  {
    RunIdFormat(direction, c1.idMillis);
    RunIdFormat(direction, c2.idMillis);
  }

  /** The results of the first `m` phases (all three when `m` is 3 or more), phase after phase. */
  function PlanResults(m: nat, direction: string, exec: Executor): seq<MergeRecord> {
    var r1 := PhaseResults(PhaseRepos(1), direction, exec);
    var r2 := PhaseResults(PhaseRepos(2), direction, exec);
    var r3 := PhaseResults(PhaseRepos(3), direction, exec);
    if m == 0 then [] else if m == 1 then r1 else if m == 2 then r1 + r2 else r1 + r2 + r3
  }

  /** The events of the first `m` phases (all three when `m` is 3 or more), phase after phase. */
  function PlanEvents(m: nat, direction: string, exec: Executor, settle: seq<nat>): seq<Event>
    requires IsPermutation(settle, |ExecutionOrder().phase3|)
  {
    var e1 := PhaseEvents(1, PhaseRepos(1), direction, false, exec, settle);
    var e2 := PhaseEvents(2, PhaseRepos(2), direction, false, exec, settle);
    var e3 := PhaseEvents(3, PhaseRepos(3), direction, true, exec, settle);
    if m == 0 then [] else if m == 1 then e1 else if m == 2 then e1 + e2 else e1 + e2 + e3
  }

  /** The run a completed process returns and archives. */
  function CompletedRun(direction: string, clock: Clock, exec: Executor): Run {
    InitialRun(direction, clock).(status := Completed, currentPhase := TotalPhases,
                                  results := PlanResults(TotalPhases, direction, exec),
                                  endTime := Some(clock.endMillis),
                                  duration := Some(Duration(clock.startMillis, clock.endMillis)))
  }

  function CompletedEvents(direction: string, clock: Clock, exec: Executor, settle: seq<nat>): seq<Event>
    requires IsPermutation(settle, |ExecutionOrder().phase3|)
  {
    [ProcessStarted(InitialRun(direction, clock))]
    + PlanEvents(TotalPhases, direction, exec, settle)
    + [ProcessCompleted(CompletedRun(direction, clock, exec))]
  }

  /** The phases that ran to their end before the listener threw. */
  function PhasesBefore(f: Fault): nat {
    if f.at == 0 then 0 else f.at - 1
  }

  /** The run a structural failure throws: the phase it reached and the
      results of the phases before it. */
  function FailedRun(direction: string, clock: Clock, exec: Executor, f: Fault): Run {
    InitialRun(direction, clock).(status := Failed, currentPhase := if f.at == 0 then 1 else f.at,
                                  results := PlanResults(PhasesBefore(f), direction, exec),
                                  error := Some(f.message),
                                  endTime := Some(clock.endMillis),
                                  duration := Some(Duration(clock.startMillis, clock.endMillis)))
  }

  function FailedEvents(direction: string, clock: Clock, exec: Executor, settle: seq<nat>, f: Fault): seq<Event>
    requires IsPermutation(settle, |ExecutionOrder().phase3|)
  {
    [ProcessStarted(InitialRun(direction, clock))]
    + PlanEvents(PhasesBefore(f), direction, exec, settle)
    + (if f.at == 0 then [] else [PhaseStarted(f.at, PhaseRepos(f.at), IsParallel(f.at))])
    + [ProcessFailed(FailedRun(direction, clock, exec, f))]
  }

  /** All five repositories, in plan order. */
  function AllRepositories(): seq<string> {
    ExecutionOrder().phase1 + ExecutionOrder().phase2 + ExecutionOrder().phase3
  }

  lemma PlanResultsAll(direction: string, exec: Executor)
    ensures PlanResults(TotalPhases, direction, exec) == PhaseResults(AllRepositories(), direction, exec)
  {
    var all := AllRepositories();
    var r := PlanResults(TotalPhases, direction, exec);
    assert |r| == |all|;
    forall i | 0 <= i < |all| ensures r[i] == PhaseResults(all, direction, exec)[i] {
    }
  }

  /** A completed run holds one result per repository of the plan, in plan
      order (danal-core, then smart-settlement-extapi, then the three
      services), whatever order the parallel calls finished in. */
  lemma CompletedRunFollowsPlan(direction: string, clock: Clock, exec: Executor)
    requires Echoes(exec)
    ensures var r := CompletedRun(direction, clock, exec);
            && r.status == Completed && r.currentPhase == r.totalPhases
            && |r.results| == |AllRepositories()| == 5
            && forall i :: 0 <= i < 5 ==>
                 r.results[i].repo == AllRepositories()[i] && r.results[i].direction == direction
  {
    PlanResultsAll(direction, exec);
    var all := AllRepositories();
    forall i | 0 <= i < 5
      ensures PhaseResults(all, direction, exec)[i].repo == all[i]
      ensures PhaseResults(all, direction, exec)[i].direction == direction
    {
      var reply := exec(all[i], direction);
      if reply.Returned? {
        assert reply.record.repo == all[i];
      }
    }
  }

  /** The trace of a completed run opens with `process-started` and ends
      with `process-completed` carrying the completed run. */
  lemma CompletedEventsEnds(direction: string, clock: Clock, exec: Executor, settle: seq<nat>)
    requires IsPermutation(settle, |ExecutionOrder().phase3|)
    ensures var ev := CompletedEvents(direction, clock, exec, settle);
            && ev[0] == ProcessStarted(InitialRun(direction, clock))
            && ev[|ev| - 1] == ProcessCompleted(CompletedRun(direction, clock, exec))
  {
  }

  /** The trace of a completed run holds the three `phase-started` events, in
      plan order, the third one parallel. */
  lemma CompletedPhaseStarts(direction: string, clock: Clock, exec: Executor, settle: seq<nat>)
    requires IsPermutation(settle, |ExecutionOrder().phase3|)
    ensures Filter(CompletedEvents(direction, clock, exec, settle), IsPhaseStart)
            == [PhaseStarted(1, PhaseRepos(1), false), PhaseStarted(2, PhaseRepos(2), false),
                PhaseStarted(3, PhaseRepos(3), true)]
  {
    PlanPhaseStarts(direction, exec, settle);
    FilterBetween(ProcessStarted(InitialRun(direction, clock)),
                  PlanEvents(TotalPhases, direction, exec, settle),
                  ProcessCompleted(CompletedRun(direction, clock, exec)), IsPhaseStart);
  }

  /** The three phases open with their `phase-started` events, in plan order. */
  lemma PlanPhaseStarts(direction: string, exec: Executor, settle: seq<nat>)
    requires IsPermutation(settle, |ExecutionOrder().phase3|)
    ensures Filter(PlanEvents(TotalPhases, direction, exec, settle), IsPhaseStart)
            == [PhaseStarted(1, PhaseRepos(1), false), PhaseStarted(2, PhaseRepos(2), false),
                PhaseStarted(3, PhaseRepos(3), true)]
  {
    var e1 := PhaseEvents(1, PhaseRepos(1), direction, false, exec, settle);
    var e2 := PhaseEvents(2, PhaseRepos(2), direction, false, exec, settle);
    var e3 := PhaseEvents(3, PhaseRepos(3), direction, true, exec, settle);
    PhaseStartsPerPhase(1, PhaseRepos(1), direction, false, exec, settle);
    PhaseStartsPerPhase(2, PhaseRepos(2), direction, false, exec, settle);
    PhaseStartsPerPhase(3, PhaseRepos(3), direction, true, exec, settle);
    FilterAppend(e1, e2, IsPhaseStart);
    FilterAppend(e1 + e2, e3, IsPhaseStart);
  }

  lemma FilterRejected<T>(x: T, p: T -> bool)
    requires !p(x)
    ensures Filter([x], p) == []
  {
    assert [x][1..] == [];
  }

  /** A completed run's trace settles each of the five repositories once. */
  lemma CompletedEventsSettleAll(direction: string, clock: Clock, exec: Executor, settle: seq<nat>)
    requires IsPermutation(settle, |ExecutionOrder().phase3|)
    ensures |Filter(CompletedEvents(direction, clock, exec, settle), IsSettlement)| == 5
  {
    PlanSettlements(direction, exec, settle);
    FilterBetween(ProcessStarted(InitialRun(direction, clock)),
                  PlanEvents(TotalPhases, direction, exec, settle),
                  ProcessCompleted(CompletedRun(direction, clock, exec)), IsSettlement);
  }

  /** The three phases together settle the five repositories. */
  lemma PlanSettlements(direction: string, exec: Executor, settle: seq<nat>)
    requires IsPermutation(settle, |ExecutionOrder().phase3|)
    ensures |Filter(PlanEvents(TotalPhases, direction, exec, settle), IsSettlement)| == 5
  {
    var e1 := PhaseEvents(1, PhaseRepos(1), direction, false, exec, settle);
    var e2 := PhaseEvents(2, PhaseRepos(2), direction, false, exec, settle);
    var e3 := PhaseEvents(3, PhaseRepos(3), direction, true, exec, settle);
    SettlementsPerPhase(1, PhaseRepos(1), direction, false, exec, settle);
    SettlementsPerPhase(2, PhaseRepos(2), direction, false, exec, settle);
    SettlementsPerPhase(3, PhaseRepos(3), direction, true, exec, settle);
    FilterAppend(e1, e2, IsSettlement);
    FilterAppend(e1 + e2, e3, IsSettlement);
  }

  /** Filtering drops rejected events at both ends. */
  lemma FilterBetween<T>(x: T, mid: seq<T>, y: T, p: T -> bool)
    requires !p(x) && !p(y)
    ensures Filter([x] + mid + [y], p) == Filter(mid, p)
  {
    FilterAppend([x] + mid, [y], p);
    FilterAppend([x], mid, p);
    FilterRejected(x, p);
    FilterRejected(y, p);
  }

  /** A phase emits exactly one `phase-started` event, its first. */
  lemma PhaseStartsPerPhase(n: nat, repos: seq<string>, direction: string, parallel: bool,
                            exec: Executor, settle: seq<nat>)
    requires parallel ==> IsPermutation(settle, |repos|)
    ensures Filter(PhaseEvents(n, repos, direction, parallel, exec, settle), IsPhaseStart)
            == [PhaseStarted(n, repos, parallel)]
  {
    var middle := PhaseMiddle(repos, direction, parallel, exec, settle);
    var first := [PhaseStarted(n, repos, parallel)];
    var last := [PhaseCompleted(n, PhaseResults(repos, direction, exec))];
    FilterAppend(first + middle, last, IsPhaseStart);
    FilterAppend(first, middle, IsPhaseStart);
    assert Filter(first, IsPhaseStart) == first;
    assert Filter(last, IsPhaseStart) == [];
    NoPhaseStart(middle);
  }

  lemma {:induction false} NoPhaseStart(middle: seq<Event>)
    requires forall i :: 0 <= i < |middle| ==> middle[i].RepositoryStarted? || IsSettlement(middle[i])
    ensures Filter(middle, IsPhaseStart) == []
  {
    if middle != [] {
      NoPhaseStart(middle[1..]);
    }
  }

  /** A `phase-started` listener throws during the run. */
  predicate StopsInPhase(fault: Option<Fault>) {
    fault.Some? && 1 <= fault.value.at <= TotalPhases
  }

  /** The phase a run reaches before it ends or stops. */
  function PhaseReached(fault: Option<Fault>): nat {
    if StopsInPhase(fault) then fault.value.at else TotalPhases
  }

  /** The number of phases that run to their end. */
  function PhasesDone(fault: Option<Fault>): nat {
    if StopsInPhase(fault) then fault.value.at - 1 else TotalPhases
  }

  /** The events of the three `executePhase` calls. */
  function PhasesTrace(direction: string, exec: Executor, settle: seq<nat>, fault: Option<Fault>): seq<Event>
    requires IsPermutation(settle, |ExecutionOrder().phase3|)
  {
    PlanEvents(PhasesDone(fault), direction, exec, settle)
    + (if StopsInPhase(fault) then [PhaseStarted(fault.value.at, PhaseRepos(fault.value.at), IsParallel(fault.value.at))]
       else [])
  }

  /** Regrouping concatenations. */
  lemma Regroup<T>(a: seq<T>, b: seq<T>, c: seq<T>, d: seq<T>)
    ensures a + b + c == a + (b + c)
    ensures a + b + c + d == a + (b + c + d)
    ensures a + [] == a
  {
  }

  lemma PhasesStep1(direction: string, exec: Executor, settle: seq<nat>, fault: Option<Fault>,
                    r0: seq<MergeRecord>, e0: seq<Event>)
    requires IsPermutation(settle, |ExecutionOrder().phase3|)
    requires FaultAt(fault, 1).Some?
    ensures StopsInPhase(fault) && PhaseReached(fault) == 1
    ensures r0 + PhaseOutput(PhaseRepos(1), direction, exec, FaultAt(fault, 1))
            == r0 + PlanResults(PhasesDone(fault), direction, exec)
    ensures e0 + PhaseTrace(1, PhaseRepos(1), direction, false, exec, settle, FaultAt(fault, 1))
            == e0 + PhasesTrace(direction, exec, settle, fault)
  {
  }

  lemma PhasesStep2(direction: string, exec: Executor, settle: seq<nat>, fault: Option<Fault>,
                    r0: seq<MergeRecord>, e0: seq<Event>)
    requires IsPermutation(settle, |ExecutionOrder().phase3|)
    requires FaultAt(fault, 1).None? && FaultAt(fault, 2).Some?
    ensures StopsInPhase(fault) && PhaseReached(fault) == 2
    ensures r0 + PhaseResults(PhaseRepos(1), direction, exec)
               + PhaseOutput(PhaseRepos(2), direction, exec, FaultAt(fault, 2))
            == r0 + PlanResults(PhasesDone(fault), direction, exec)
    ensures e0 + PhaseEvents(1, PhaseRepos(1), direction, false, exec, settle)
               + PhaseTrace(2, PhaseRepos(2), direction, false, exec, settle, FaultAt(fault, 2))
            == e0 + PhasesTrace(direction, exec, settle, fault)
  {
    Regroup(r0, PhaseResults(PhaseRepos(1), direction, exec), [], []);
    Regroup(e0, PhaseEvents(1, PhaseRepos(1), direction, false, exec, settle),
            [PhaseStarted(2, PhaseRepos(2), false)], []);
  }

  lemma PhasesStep3(direction: string, exec: Executor, settle: seq<nat>, fault: Option<Fault>,
                    r0: seq<MergeRecord>, e0: seq<Event>)
    requires IsPermutation(settle, |ExecutionOrder().phase3|)
    requires FaultAt(fault, 1).None? && FaultAt(fault, 2).None?
    ensures PhaseReached(fault) == 3
    ensures r0 + PhaseResults(PhaseRepos(1), direction, exec)
               + PhaseResults(PhaseRepos(2), direction, exec)
               + PhaseOutput(PhaseRepos(3), direction, exec, FaultAt(fault, 3))
            == r0 + PlanResults(PhasesDone(fault), direction, exec)
    ensures e0 + PhaseEvents(1, PhaseRepos(1), direction, false, exec, settle)
               + PhaseEvents(2, PhaseRepos(2), direction, false, exec, settle)
               + PhaseTrace(3, PhaseRepos(3), direction, true, exec, settle, FaultAt(fault, 3))
            == e0 + PhasesTrace(direction, exec, settle, fault)
  {
    var r1 := PhaseResults(PhaseRepos(1), direction, exec);
    var r2 := PhaseResults(PhaseRepos(2), direction, exec);
    var e1 := PhaseEvents(1, PhaseRepos(1), direction, false, exec, settle);
    var e2 := PhaseEvents(2, PhaseRepos(2), direction, false, exec, settle);
    if FaultAt(fault, 3).Some? {
      assert StopsInPhase(fault) && PhasesDone(fault) == 2;
      Regroup(r0, r1, r2, []);
      Regroup(e0, e1, e2, [PhaseStarted(3, PhaseRepos(3), true)]);
    } else {
      assert !StopsInPhase(fault);
      Regroup(r0, r1, r2, PhaseResults(PhaseRepos(3), direction, exec));
      var e3 := PhaseEvents(3, PhaseRepos(3), direction, true, exec, settle);
      Regroup(e0, e1, e2, e3);
      Regroup(e1 + e2 + e3, [], [], []);
    }
  }

  /** The run and trace the method builds for a run no listener stops are
      the completed run and its trace. */
  lemma CompletedTrace(direction: string, clock: Clock, exec: Executor, settle: seq<nat>,
                       fault: Option<Fault>, e0: seq<Event>)
    requires IsPermutation(settle, |ExecutionOrder().phase3|)
    requires FaultAt(fault, 0).None? && !StopsInPhase(fault)
    ensures !Fires(fault)
    ensures var init := InitialRun(direction, clock);
            var c := init.(currentPhase := PhaseReached(fault),
                           results := init.results + PlanResults(PhasesDone(fault), direction, exec));
            c.(status := Completed, endTime := Some(clock.endMillis),
               duration := Some(Duration(c.startTime, clock.endMillis)))
            == CompletedRun(direction, clock, exec)
    ensures e0 + [ProcessStarted(InitialRun(direction, clock))] + PhasesTrace(direction, exec, settle, fault)
               + [ProcessCompleted(CompletedRun(direction, clock, exec))]
            == e0 + CompletedEvents(direction, clock, exec, settle)
  {
    assert PhasesDone(fault) == TotalPhases && PhaseReached(fault) == TotalPhases;
    var p := PlanEvents(TotalPhases, direction, exec, settle);
    assert PhasesTrace(direction, exec, settle, fault) == p by {
      Regroup(p, [], [], []);
    }
    var r := PlanResults(TotalPhases, direction, exec);
    assert [] + r == r;
    Regroup(e0, [ProcessStarted(InitialRun(direction, clock))], p,
            [ProcessCompleted(CompletedRun(direction, clock, exec))]);
  }

  /** The run and trace the method builds when a `phase-started` listener
      throws are the failed run and its trace. */
  lemma FailedTrace(direction: string, clock: Clock, exec: Executor, settle: seq<nat>,
                    fault: Option<Fault>, e0: seq<Event>)
    requires IsPermutation(settle, |ExecutionOrder().phase3|)
    requires FaultAt(fault, 0).None? && StopsInPhase(fault)
    ensures Fires(fault)
    ensures var init := InitialRun(direction, clock);
            var c := init.(currentPhase := PhaseReached(fault),
                           results := init.results + PlanResults(PhasesDone(fault), direction, exec));
            c.(status := Failed, error := Some(fault.value.message), endTime := Some(clock.endMillis),
               duration := Some(Duration(c.startTime, clock.endMillis)))
            == FailedRun(direction, clock, exec, fault.value)
    ensures e0 + [ProcessStarted(InitialRun(direction, clock))] + PhasesTrace(direction, exec, settle, fault)
               + [ProcessFailed(FailedRun(direction, clock, exec, fault.value))]
            == e0 + FailedEvents(direction, clock, exec, settle, fault.value)
  {
    var f := fault.value;
    var p := PlanEvents(PhasesDone(fault), direction, exec, settle);
    var s := [PhaseStarted(f.at, PhaseRepos(f.at), IsParallel(f.at))];
    Regroup([], PlanResults(PhasesDone(fault), direction, exec), [], []);
    Regroup(e0, [ProcessStarted(InitialRun(direction, clock))], p + s,
            [ProcessFailed(FailedRun(direction, clock, exec, f))]);
    Regroup([ProcessStarted(InitialRun(direction, clock))], p, s, []);
  }

  /** A `process-started` listener that throws fails the run before any phase. */
  lemma FailedAtStart(direction: string, clock: Clock, exec: Executor, settle: seq<nat>,
                      fault: Option<Fault>, e0: seq<Event>)
    requires IsPermutation(settle, |ExecutionOrder().phase3|)
    requires FaultAt(fault, 0).Some?
    ensures Fires(fault)
    ensures var init := InitialRun(direction, clock);
            init.(status := Failed, error := Some(fault.value.message), endTime := Some(clock.endMillis),
                  duration := Some(Duration(init.startTime, clock.endMillis)))
            == FailedRun(direction, clock, exec, fault.value)
    ensures e0 + [ProcessStarted(InitialRun(direction, clock))]
               + [ProcessFailed(FailedRun(direction, clock, exec, fault.value))]
            == e0 + FailedEvents(direction, clock, exec, settle, fault.value)
  {
    var x := [ProcessStarted(InitialRun(direction, clock))];
    var y := [ProcessFailed(FailedRun(direction, clock, exec, fault.value))];
    Regroup(x, [], [], []);
    Regroup(e0, x, y, []);
  }

  // ---------------------------------------------------------------------
  // The orchestrator's state
  // ---------------------------------------------------------------------

  /** How `executeWeeklyMerge` ends: it throws the busy error, returns the
      completed run, or throws the failed run. */
  datatype RunOutcome = Rejected(message: string) | Finished(run: Run) | Aborted(run: Run)

  class MergeManager {
    const repositories: seq<string>
    var current: Option<Run>
    var history: seq<Run>
    ghost var events: seq<Event>

    /** The history is capped and holds completed runs only; the active run,
        if any, is running. */
    ghost predicate Valid()
      reads this
    {
      && |history| <= MaxHistory
      && (forall i :: 0 <= i < |history| ==> history[i].status == Completed)
      && (current.Some? ==> current.value.status == Running)
    }

    /** `new MergeManager(configManager)`; `withConfig` says whether a config
        manager is passed. */
    constructor (env: Config.Env, withConfig: bool)
      ensures Valid()
      ensures repositories == if withConfig then Config.Repositories(env)
                              else TrimmedRepositories(Config.Lookup(env, Config.RepositoriesKey))
      ensures current == None && history == [] && events == []
    {
      repositories := if withConfig then Config.Repositories(env)
                      else TrimmedRepositories(Config.Lookup(env, Config.RepositoriesKey));
      current := None;
      history := [];
      events := [];
    }

    /** `getCurrentProcessStatus()`: the active run, which is always running. */
    function CurrentProcessStatus(): (r: Option<Run>)
      requires Valid()
      reads this
      ensures r.Some? ==> r.value.status == Running
      ensures r.None? <==> current.None?
      ensures r == current
    {
      current
    }

    /** `getProcessHistory(limit)` (`None` for the default of 10), with
        `slice(0, limit)` semantics for a negative limit. */
    function GetProcessHistory(limit: Option<int>): (r: seq<Run>)
      requires Valid()
      reads this
      ensures var n := limit.GetOr(DefaultHistoryLimit);
              && (0 <= n ==> r == history[..if n < |history| then n else |history|])
              && (n < 0 ==> r == history[..if |history| + n > 0 then |history| + n else 0])
      ensures forall i :: 0 <= i < |r| ==> r[i].status == Completed
    {
      SliceHead(history, limit.GetOr(DefaultHistoryLimit))
    }

    /** The synchronous start of `executeRepository`. */
    method Launch(repo: string, direction: string)
      modifies this`events
      ensures events == old(events) + [RepositoryStarted(repo, direction)]
    {
      events := events + [RepositoryStarted(repo, direction)];
    }

    /** The rest of `executeRepository` once the merge has settled: a thrown
        error becomes a failed record. */
    method Settle(repo: string, direction: string, reply: ExecReply) returns (rec: MergeRecord)
      modifies this`events
      ensures rec == Outcome(repo, direction, reply)
      ensures reply.Thrown? ==> rec.Failed? && rec.repo == repo && rec.error == reply.message
      ensures events == old(events) + [Settled(repo, direction, reply)]
    {
      match reply
      case Returned(record) =>
        rec := record;
        events := events + [RepositoryCompleted(rec)];
      case Thrown(message, at) =>
        rec := GitHub.Failed(repo, direction, message, at);
        events := events + [RepositoryFailed(rec)];
    }

    /** `executeRepository(repo, direction)`: never throws. */
    method ExecuteRepository(repo: string, direction: string, exec: Executor) returns (rec: MergeRecord)
      modifies this`events
      ensures rec == Outcome(repo, direction, exec(repo, direction))
      ensures events == old(events) + [RepositoryStarted(repo, direction), Settled(repo, direction, exec(repo, direction))]
    {
      Launch(repo, direction);
      rec := Settle(repo, direction, exec(repo, direction));
    }

    /** The concurrent branch of `executePhase`: every call is started, in
        list order, up to its first `await`; the calls then settle in the
        order `settle` gives, and `Promise.all` lists the results in the
        order of the repositories. */
    method RunParallel(repos: seq<string>, direction: string, exec: Executor, settle: seq<nat>)
      returns (results: seq<MergeRecord>)
      requires IsPermutation(settle, |repos|)
      modifies this`events
      ensures results == PhaseResults(repos, direction, exec)
      ensures events == old(events) + PhaseMiddle(repos, direction, true, exec, settle)
    {
      ghost var e0 := events;
      LaunchAll(repos, direction);
      var settled := SettleAll(repos, direction, exec, settle);
      results := seq(|repos|, j requires 0 <= j < |repos| && j in settled => settled[j]);
      Regroup(e0, LaunchEvents(repos, direction), SettleEvents(repos, direction, exec, settle), []);
    }

    /** The synchronous part of every call of the parallel phase, in list order. */
    method LaunchAll(repos: seq<string>, direction: string)
      modifies this`events
      ensures events == old(events) + LaunchEvents(repos, direction)
    {
      var i := 0;
      while i < |repos|
        invariant 0 <= i <= |repos|
        invariant events == old(events) + LaunchEvents(repos[..i], direction)
      {
        Launch(repos[i], direction);
        assert repos[..i + 1][..i] == repos[..i];
        i := i + 1;
      }
      assert repos[..|repos|] == repos;
    }

    /** The calls of the parallel phase settling in the order `settle`;
        `settled` maps each list position to its record. */
    method SettleAll(repos: seq<string>, direction: string, exec: Executor, settle: seq<nat>)
      returns (settled: map<nat, MergeRecord>)
      requires IsPermutation(settle, |repos|)
      modifies this`events
      ensures forall j :: 0 <= j < |repos| ==> j in settled
      ensures forall j :: j in settled ==>
                j < |repos| && settled[j] == Outcome(repos[j], direction, exec(repos[j], direction))
      ensures events == old(events) + SettleEvents(repos, direction, exec, settle)
    {
      settled := map[];
      var k := 0;
      while k < |settle|
        invariant 0 <= k <= |settle|
        invariant forall j :: j in settled ==>
                    j < |repos| && settled[j] == Outcome(repos[j], direction, exec(repos[j], direction))
        invariant forall l :: 0 <= l < k ==> settle[l] in settled
        invariant events == old(events) + SettleEvents(repos, direction, exec, settle[..k])
      {
        var j := settle[k];
        var rec := Settle(repos[j], direction, exec(repos[j], direction));
        settled := settled[j := rec];
        assert settle[..k + 1][..k] == settle[..k];
        k := k + 1;
      }
      assert settle[..|settle|] == settle;
      forall j | 0 <= j < |repos| ensures j in settled {
        assert j in settle;
        var l :| 0 <= l < |settle| && settle[l] == j;
      }
    }

    /** The sequential branch of `executePhase`: each repository is awaited
        before the next one starts. */
    method RunSerial(repos: seq<string>, direction: string, exec: Executor)
      returns (results: seq<MergeRecord>)
      modifies this`events
      ensures results == PhaseResults(repos, direction, exec)
      ensures events == old(events) + PhaseMiddle(repos, direction, false, exec, [])
    {
      results := [];
      var i := 0;
      while i < |repos|
        invariant 0 <= i <= |repos|
        invariant results == PhaseResults(repos[..i], direction, exec)
        invariant events == old(events) + SerialEvents(repos[..i], direction, exec)
      {
        var rec := ExecuteRepository(repos[i], direction, exec);
        assert repos[..i + 1][..i] == repos[..i];
        results := results + [rec];
        i := i + 1;
      }
      assert repos[..|repos|] == repos;
    }

    /** `executePhase(n, repos, direction, parallel)`. `fault` is the message
        a `phase-started` listener throws, if one does. */
    method ExecutePhase(n: nat, repos: seq<string>, direction: string, parallel: bool,
                        exec: Executor, settle: seq<nat>, fault: Option<string>)
      returns (ok: bool, results: seq<MergeRecord>)
      requires current.Some?
      requires parallel ==> IsPermutation(settle, |repos|)
      modifies this
      ensures ok <==> fault.None?
      ensures results == PhaseOutput(repos, direction, exec, fault)
      ensures current == Some(old(current).value.(currentPhase := n, results := old(current).value.results + results))
      ensures events == old(events) + PhaseTrace(n, repos, direction, parallel, exec, settle, fault)
      ensures history == old(history)
    {
      var started := current.value.(currentPhase := n);
      current := Some(started);
      ghost var e0 := events;
      var opening := PhaseStarted(n, repos, parallel);
      events := events + [opening];
      if fault.Some? {
        Regroup(started.results, [], [], []);
        return false, [];
      }
      if parallel {
        results := RunParallel(repos, direction, exec, settle);
      } else {
        results := RunSerial(repos, direction, exec);
      }
      ghost var middle := PhaseMiddle(repos, direction, parallel, exec, settle);
      current := Some(started.(results := started.results + results));
      var closing := PhaseCompleted(n, results);
      events := events + [closing];
      Regroup(e0, [opening], middle, [closing]);
      ok := true;
    }

    /** The three `executePhase` calls of a run, up to the phase whose
        `phase-started` listener throws. */
    method RunPhases(direction: string, exec: Executor, settle: seq<nat>, fault: Option<Fault>)
      returns (ok: bool)
      requires current.Some?
      requires IsPermutation(settle, |ExecutionOrder().phase3|)
      modifies this
      ensures ok <==> !StopsInPhase(fault)
      ensures current == Some(old(current).value.(currentPhase := PhaseReached(fault),
                                                  results := old(current).value.results
                                                             + PlanResults(PhasesDone(fault), direction, exec)))
      ensures events == old(events) + PhasesTrace(direction, exec, settle, fault)
      ensures history == old(history)
    {
      var plan := ExecutionOrder();
      ghost var c0 := current.value;
      ghost var e0 := events;
      var results: seq<MergeRecord>;
      ok, results := ExecutePhase(1, plan.phase1, direction, false, exec, settle, FaultAt(fault, 1));
      if ok {
        ghost var c1 := current.value;
        ghost var e1 := events;
        ok, results := ExecutePhase(2, plan.phase2, direction, false, exec, settle, FaultAt(fault, 2));
        if ok {
          ghost var c2 := current.value;
          ghost var e2 := events;
          ok, results := ExecutePhase(3, plan.phase3, direction, true, exec, settle, FaultAt(fault, 3));
          PhasesStep3(direction, exec, settle, fault, c0.results, e0);
        } else {
          PhasesStep2(direction, exec, settle, fault, c0.results, e0);
        }
      } else {
        PhasesStep1(direction, exec, settle, fault, c0.results, e0);
      }
    }

    /** `executeWeeklyMerge(direction)`. `fault` is a listener that throws on
        `process-started` or on a `phase-started` event; `settle` is the order
        in which the parallel phase's merges finish. */
    method ExecuteWeeklyMerge(direction: string, clock: Clock, exec: Executor, settle: seq<nat>,
                              fault: Option<Fault>)
      returns (outcome: RunOutcome)
      requires Valid()
      requires IsPermutation(settle, |ExecutionOrder().phase3|)
      modifies this
      ensures Valid()
      ensures old(current).Some? ==>
                && outcome == Rejected(AlreadyRunning)
                && current == old(current) && history == old(history) && events == old(events)
      ensures old(current).None? ==> current == None
      ensures old(current).None? && !Fires(fault) ==>
                && outcome == Finished(CompletedRun(direction, clock, exec))
                && history == BoundedPrepend(old(history), outcome.run, MaxHistory)
                && events == old(events) + CompletedEvents(direction, clock, exec, settle)
      ensures old(current).None? && Fires(fault) ==>
                && outcome == Aborted(FailedRun(direction, clock, exec, fault.value))
                && history == old(history)
                && events == old(events) + FailedEvents(direction, clock, exec, settle, fault.value)
    {
      if current.Some? {
        return Rejected(AlreadyRunning);
      }
      ghost var e0 := events;
      var run := InitialRun(direction, clock);
      current := Some(run);
      events := events + [ProcessStarted(run)];
      if FaultAt(fault, 0).Some? {
        FailedAtStart(direction, clock, exec, settle, fault, e0);
        var failed := FailRun(fault.value.message, clock.endMillis);
        return Aborted(failed);
      }
      var ok := RunPhases(direction, exec, settle, fault);
      if ok {
        CompletedTrace(direction, clock, exec, settle, fault, e0);
        var done := CompleteRun(clock.endMillis);
        outcome := Finished(done);
      } else {
        FailedTrace(direction, clock, exec, settle, fault, e0);
        var failed := FailRun(fault.value.message, clock.endMillis);
        outcome := Aborted(failed);
      }
    }

    /** The end of a run that got through its three phases: it is marked
        completed, emitted, archived at the front of the history and
        forgotten. */
    method CompleteRun(endMillis: int) returns (done: Run)
      requires Valid() && current.Some?
      modifies this
      ensures Valid()
      ensures var c := old(current).value;
              done == c.(status := Completed, endTime := Some(endMillis),
                         duration := Some(Duration(c.startTime, endMillis)))
      ensures current == None
      ensures history == BoundedPrepend(old(history), done, MaxHistory)
      ensures events == old(events) + [ProcessCompleted(done)]
    {
      var c := current.value;
      done := c.(status := Completed, endTime := Some(endMillis), duration := Some(Duration(c.startTime, endMillis)));
      current := Some(done);
      events := events + [ProcessCompleted(done)];
      var h := BoundedPrepend(history, done, MaxHistory);
      forall i | 0 <= i < |h| ensures h[i].status == Completed {
        if i > 0 {
          assert h[i] == h[1..][i - 1] == history[i - 1];
        }
      }
      history := h;
      current := None;
    }

    /** The end of a run a listener's error stopped: it is marked failed with
        the error's message, emitted and forgotten, and not archived. */
    method FailRun(message: string, endMillis: int) returns (failed: Run)
      requires Valid() && current.Some?
      modifies this
      ensures Valid()
      ensures var c := old(current).value;
              failed == c.(status := Failed, error := Some(message), endTime := Some(endMillis),
                           duration := Some(Duration(c.startTime, endMillis)))
      ensures current == None && history == old(history)
      ensures events == old(events) + [ProcessFailed(failed)]
    {
      var c := current.value;
      failed := c.(status := Failed, error := Some(message), endTime := Some(endMillis),
                   duration := Some(Duration(c.startTime, endMillis)));
      current := Some(failed);
      events := events + [ProcessFailed(failed)];
      current := None;
    }

    /** `stopCurrentProcess()`: marks the active run cancelled, emits it and
        forgets it; the history is not touched. */
    method StopCurrentProcess(endMillis: int) returns (stopped: bool)
      requires Valid()
      modifies this
      ensures Valid()
      ensures stopped <==> old(current).Some?
      ensures current == None && history == old(history)
      ensures !stopped ==> events == old(events)
      ensures stopped ==>
                var c := old(current).value;
                events == old(events) + [ProcessCancelled(c.(status := Cancelled, endTime := Some(endMillis),
                                                             duration := Some(Duration(c.startTime, endMillis))))]
    {
      if current.None? {
        return false;
      }
      var c := current.value;
      var cancelled := c.(status := Cancelled, endTime := Some(endMillis),
                          duration := Some(Duration(c.startTime, endMillis)));
      current := Some(cancelled);
      events := events + [ProcessCancelled(cancelled)];
      current := None;
      stopped := true;
    }
  }

  /** The history after a series of completed runs: the newest run first,
      at most 50, the oldest evicted first. */
  lemma HistoryKeepsNewest(runs: seq<Run>)
    ensures BoundedPrependAll([], runs, MaxHistory)
            == Reverse(runs)[..if |runs| <= MaxHistory then |runs| else MaxHistory]
  {
    var rev := Reverse(runs);
    BoundedPrependAllNewestFirst([], runs, MaxHistory);
    Regroup(rev, [], [], []);
  }

  // ---------------------------------------------------------------------
  // The executor the service provides
  // ---------------------------------------------------------------------

  /** The remote replies one repository's merge sees. */
  datatype Remote = Remote(baseReply: GitHub.Reply<string>,
                           createRef: GitHub.RefRequest -> GitHub.Reply<()>,
                           createPull: GitHub.PullRequestSpec -> GitHub.Reply<GitHub.PullRequestRef>)

  /** `githubService.processMerge` as an executor; it catches every error,
      so it never throws. */
  function MergeExecutor(tokenConfigured: bool, titleDate: GitHub.CalendarDate, branchDate: GitHub.CalendarDate,
                         finishedAt: string -> string, remote: string -> Remote): (exec: Executor)
    requires GitHub.ValidDate(titleDate) && GitHub.ValidDate(branchDate)
    ensures Echoes(exec)
    ensures forall repo, direction :: exec(repo, direction).Returned?
  {
    var exec := (repo: string, direction: string) =>
      Returned(GitHub.ProcessMerge(tokenConfigured, repo, direction, titleDate, branchDate, finishedAt(repo),
                                   remote(repo).baseReply, remote(repo).createRef, remote(repo).createPull));
    assert forall repo, direction :: (exec(repo, direction)
      == Returned(GitHub.ProcessMerge(tokenConfigured, repo, direction, titleDate, branchDate, finishedAt(repo),
                                      remote(repo).baseReply, remote(repo).createRef, remote(repo).createPull)));
    exec
  }

  /** A run in an unsupported direction still completes: every repository's
      record is a failure naming the direction, yet the run's status is
      `completed` and it is archived. */
  lemma UnsupportedDirectionCompletes(tokenConfigured: bool, titleDate: GitHub.CalendarDate,
                                      branchDate: GitHub.CalendarDate, finishedAt: string -> string,
                                      remote: string -> Remote, direction: string, clock: Clock)
    requires GitHub.ValidDate(titleDate) && GitHub.ValidDate(branchDate)
    requires direction != GitHub.MasterToRelease && direction != GitHub.ReleaseToDevelop
    ensures var r := CompletedRun(direction, clock, MergeExecutor(tokenConfigured, titleDate, branchDate, finishedAt, remote));
            && r.status == Completed
            && |r.results| == 5
            && forall i :: 0 <= i < 5 ==>
                 r.results[i].Failed? && r.results[i].error == GitHub.UnsupportedDirectionPrefix + direction
  {
    var exec := MergeExecutor(tokenConfigured, titleDate, branchDate, finishedAt, remote);
    PlanResultsAll(direction, exec);
    CompletedRunFollowsPlan(direction, clock, exec);
  }

  // ---------------------------------------------------------------------
  // Rate-limit classification
  // ---------------------------------------------------------------------

  datatype LimitStatus = Good | Warning | Critical

  /** `testRateLimit`'s status: good above 100 remaining calls, warning above
      50, critical otherwise. */
  function RateLimitStatus(remaining: int): (s: LimitStatus)
    ensures s == Good <==> remaining > 100
    ensures s == Warning <==> 50 < remaining <= 100
    ensures s == Critical <==> remaining <= 50
  {
    if remaining > 100 then Good else if remaining > 50 then Warning else Critical
  }
}
