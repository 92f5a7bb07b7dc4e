/** Durable dispatch of product runs to a pool of workers: generations fence the
    executors, expiring leases bound their absence, and a global capacity limits how many
    runs execute at once.  Every operation is one atomic step; workers, users and the
    clock interleave freely. */
module ExecutionDispatch {
  import opened Wrappers

  const LEASE_SECONDS := 30
  const MAX_EXECUTIONS := 2

  datatype Status = Running | WaitingHuman | Ready | Aborted | Failed

  // executor: the generation that owns the run; claimed: the generation last handed to a worker.
  datatype Run = Run(
    product: bool, adaptive: bool, status: Status, executor: nat,
    requestedAt: Option<int>, claimed: nat, worker: Option<int>, lease: Option<int>)

  datatype Claim = Claim(run: int, generation: nat, worker: int)

  // The log of claims is a history variable: no step reads it.
  datatype System = System(runs: map<int, Run>, now: int, log: seq<Claim>)

  predicate Active(r: Run) { r.status == Running || r.status == WaitingHuman }

  predicate Dispatchable(r: Run) {
    r.status == Running && r.product && r.adaptive && r.requestedAt.Some?
  }

  predicate LeaseLive(r: Run, now: int) { r.lease.Some? && r.lease.value > now }

  predicate Candidate(r: Run) { Dispatchable(r) && r.claimed != r.executor && r.worker.None? }

  predicate Occupies(r: Run, now: int) { Dispatchable(r) && LeaseLive(r, now) }

  predicate Executes(r: Run, now: int) { r.status == Running && LeaseLive(r, now) }

  function Candidates(s: System): set<int> { set id | id in s.runs && Candidate(s.runs[id]) }

  // The slots the claim counts.
  function Occupied(s: System): set<int> { set id | id in s.runs && Occupies(s.runs[id], s.now) }

  // Runs that execute right now: running, with a lease that has not expired.
  function Live(s: System): set<int> { set id | id in s.runs && Executes(s.runs[id], s.now) }

  ghost predicate First(s: System, id: int) {
    && id in Candidates(s)
    && forall other :: other in Candidates(s) ==>
         s.runs[id].requestedAt.value <= s.runs[other].requestedAt.value
  }

  function Put(s: System, id: int, r: Run): System { s.(runs := s.runs[id := r]) }

  // ---------- the dispatch operations ----------

  datatype RequestResult = Requested | Unchanged | InvalidDispatch

  function Request(s: System, id: int, reused: bool): (System, RequestResult)
    requires id in s.runs
  {
    var r := s.runs[id];
    if !r.product || !r.adaptive then (s, InvalidDispatch)
    else if r.status != Running then (s, Unchanged)
    else if r.claimed == r.executor || (reused && r.requestedAt.Some?) then (s, Unchanged)
    else (Put(s, id, r.(requestedAt := Some(s.now), worker := None, lease := None)), Requested)
  }

  // The claim of a first candidate; the caller has found it.
  function Take(s: System, worker: int, id: int): System
    requires id in s.runs
  {
    var r := s.runs[id];
    Put(s, id, r.(claimed := r.executor, worker := Some(worker), lease := Some(s.now + LEASE_SECONDS)))
      .(log := s.log + [Claim(id, r.executor, worker)])
  }

  ghost predicate CanClaim(s: System, id: int) { |Occupied(s)| < MAX_EXECUTIONS && First(s, id) }

  predicate Owns(r: Run, generation: nat, worker: int) {
    r.status == Running && r.executor == generation && r.claimed == generation && r.worker == Some(worker)
  }

  function Renew(s: System, id: int, generation: nat, worker: int): (System, bool) {
    if id in s.runs && Owns(s.runs[id], generation, worker) && LeaseLive(s.runs[id], s.now)
    then (Put(s, id, s.runs[id].(lease := Some(s.now + LEASE_SECONDS))), true)
    else (s, false)
  }

  function Interrupted(r: Run): Run { r.(status := Failed, executor := r.executor + 1, lease := None) }

  function Fail(s: System, id: int, generation: nat, worker: int, onlyIfExpired: bool): (System, bool) {
    if id !in s.runs || !Owns(s.runs[id], generation, worker) then (s, false)
    else if onlyIfExpired && LeaseLive(s.runs[id], s.now) then (s, false)
    else (Put(s, id, Interrupted(s.runs[id])), true)
  }

  // What the reaper's query selects.
  predicate Expired(r: Run, now: int) {
    && r.status == Running && r.product && r.worker.Some? && r.claimed == r.executor
    && r.lease.Some? && r.lease.value <= now
  }

  function Reaped(runs: map<int, Run>, now: int): map<int, Run> {
    map id | id in runs :: if Expired(runs[id], now) then Interrupted(runs[id]) else runs[id]
  }

  // ---------- steps ----------

  datatype Event =
    | Start(id: int, product: bool, adaptive: bool, dispatched: bool)
    | RequestEvent(id: int, reused: bool)
    | Continue(id: int)
    | ClaimEvent(worker: int, id: int)
    | RenewEvent(id: int, generation: nat, worker: int)
    | FailEvent(id: int, generation: nat, worker: int, onlyIfExpired: bool)
    | Wait(id: int, generation: nat)
    | Finish(id: int, generation: nat, ready: bool)
    | Abort(id: int)
    | Recover(id: int)
    | Tick(seconds: nat)

  const NEW_RUN := Run(true, true, Running, 1, None, 0, None, None)

  ghost function Apply(s: System, e: Event): System {
    match e
    case Start(id, product, adaptive, dispatched) =>
      if id in s.runs then s
      else
        var s' := Put(s, id, NEW_RUN.(product := product, adaptive := adaptive));
        if !dispatched then s' else if Request(s', id, false).1 == InvalidDispatch then s else Request(s', id, false).0
    case RequestEvent(id, reused) => if id in s.runs then Request(s, id, reused).0 else s
    case Continue(id) =>
      // The human answer and the new dispatch are one transaction.
      if id !in s.runs || s.runs[id].status != WaitingHuman then s
      else
        var s' := Put(s, id, s.runs[id].(status := Running, executor := s.runs[id].executor + 1));
        if Request(s', id, false).1 == InvalidDispatch then s else Request(s', id, false).0
    case ClaimEvent(worker, id) => if CanClaim(s, id) then Take(s, worker, id) else s
    case RenewEvent(id, generation, worker) => Renew(s, id, generation, worker).0
    case FailEvent(id, generation, worker, onlyIfExpired) => Fail(s, id, generation, worker, onlyIfExpired).0
    case Wait(id, generation) =>
      if id in s.runs && Active(s.runs[id]) && s.runs[id].executor == generation
      then Put(s, id, s.runs[id].(status := WaitingHuman)) else s
    case Finish(id, generation, ready) =>
      if id in s.runs && Active(s.runs[id]) && s.runs[id].executor == generation
      then Put(s, id, s.runs[id].(status := if ready then Ready else Failed, executor := generation + 1)) else s
    case Abort(id) =>
      if id in s.runs && Active(s.runs[id])
      then Put(s, id, s.runs[id].(status := Aborted, executor := s.runs[id].executor + 1)) else s
    case Recover(id) =>
      if id in s.runs && s.runs[id].status == Running
      then Put(s, id, s.runs[id].(executor := s.runs[id].executor + 1)) else s
    case Tick(seconds) => s.(now := s.now + seconds)
  }

  ghost function After(s: System, es: seq<Event>): System {
    if es == [] then s else Apply(After(s, es[..|es| - 1]), es[|es| - 1])
  }

  ghost predicate Initial(s: System) { s.runs == map[] && s.log == [] }

  // ---------- the invariant ----------

  ghost predicate RunOk(r: Run) {
    && r.claimed <= r.executor
    && (r.worker.None? ==> r.lease.None? && r.claimed < r.executor)
    && (r.lease.Some? ==> r.product && r.adaptive && r.requestedAt.Some?)
    && (r.status == Running && r.claimed == r.executor ==> r.lease.Some?)
  }

  ghost predicate ClaimOk(s: System, c: Claim) {
    && c.run in s.runs
    && c.generation <= s.runs[c.run].claimed
    && (c.generation == s.runs[c.run].claimed ==>
          s.runs[c.run].worker == Some(c.worker) || s.runs[c.run].claimed < s.runs[c.run].executor)
  }

  ghost predicate RunsOk(s: System) { forall id :: id in s.runs ==> RunOk(s.runs[id]) }

  ghost predicate LogOk(s: System) {
    && (forall k :: 0 <= k < |s.log| ==> ClaimOk(s, s.log[k]))
    && (forall j, k :: 0 <= j < k < |s.log| ==>
          s.log[j].run != s.log[k].run || s.log[j].generation != s.log[k].generation)
  }

  ghost predicate Capacity(s: System) { |Live(s)| <= MAX_EXECUTIONS }

  ghost predicate Inv(s: System) { RunsOk(s) && LogOk(s) && Capacity(s) }

  lemma Member<T>(a: set<T>) returns (x: T)
    requires a != {}
    ensures x in a
  {
    x :| x in a;
  }

  lemma LiveIsOccupied(s: System)
    requires RunsOk(s)
    ensures Live(s) == Occupied(s)
  {
    forall id | id in s.runs ensures Executes(s.runs[id], s.now) <==> Occupies(s.runs[id], s.now) {
      assert RunOk(s.runs[id]);
    }
  }

  lemma StepKeepsRuns(s: System, e: Event)
    requires RunsOk(s)
    ensures RunsOk(Apply(s, e))
  {
  }

  lemma StepKeepsLog(s: System, e: Event)
    requires RunsOk(s) && LogOk(s)
    ensures LogOk(Apply(s, e))
  {
    var s' := Apply(s, e);
    forall k | 0 <= k < |s.log| ensures ClaimOk(s', s.log[k]) {
      assert ClaimOk(s, s.log[k]) && RunOk(s.runs[s.log[k].run]);
    }
  }

  // Every step but a claim can only remove runs from the executing set.
  lemma OnlyClaimsAdd(s: System, e: Event)
    requires RunsOk(s) && !e.ClaimEvent?
    ensures Live(Apply(s, e)) <= Live(s)
  {
    var s' := Apply(s, e);
    forall id | id in Live(s') ensures id in Live(s) {
      assert id in s'.runs && Executes(s'.runs[id], s'.now);
      assert id in s.runs ==> RunOk(s.runs[id]);
    }
  }

  lemma StepKeepsCapacity(s: System, e: Event)
    requires RunsOk(s) && Capacity(s)
    ensures Capacity(Apply(s, e))
  {
    var s' := Apply(s, e);
    if !e.ClaimEvent? {
      OnlyClaimsAdd(s, e);
      SubsetSize(Live(s'), Live(s));
    } else if s' != s {
      LiveIsOccupied(s);
      assert Live(s') <= Live(s) + {e.id};
      SubsetSize(Live(s'), Live(s) + {e.id});
    }
  }

  /** The protocol invariant holds in every reachable state. */
  lemma {:induction false} InvReachable(s: System, es: seq<Event>)
    requires Initial(s)
    ensures Inv(After(s, es))
  {
    if es == [] {
      assert Live(s) == {};
    } else {
      var before := After(s, es[..|es| - 1]);
      InvReachable(s, es[..|es| - 1]);
      StepKeepsRuns(before, es[|es| - 1]);
      StepKeepsLog(before, es[|es| - 1]);
      StepKeepsCapacity(before, es[|es| - 1]);
    }
  }

  /** Global capacity: at most two runs execute under a live lease, in every history. */
  lemma CapacityRespected(s: System, es: seq<Event>)
    requires Initial(s)
    ensures |Live(After(s, es))| <= MAX_EXECUTIONS
  {
    InvReachable(s, es);
  }

  /** Fencing: no history hands one generation of a run to two workers, and no other worker
      ever renews or fails a generation it was not handed. */
  lemma OneWorkerPerGeneration(s: System, es: seq<Event>, j: nat, k: nat, other: int, onlyIfExpired: bool)
    requires Initial(s) && j < |After(s, es).log| && k < |After(s, es).log|
    ensures var s' := After(s, es); var c := s'.log[j];
      && (s'.log[k].run == c.run && s'.log[k].generation == c.generation ==> j == k)
      && (other != c.worker ==>
            !Renew(s', c.run, c.generation, other).1 && !Fail(s', c.run, c.generation, other, onlyIfExpired).1)
  {
    InvReachable(s, es);
    assert ClaimOk(After(s, es), After(s, es).log[j]);
  }

  /** No step takes a run's generation back. */
  lemma GenerationsGrow(s: System, e: Event, id: int)
    requires RunsOk(s) && id in s.runs
    ensures id in Apply(s, e).runs
    ensures s.runs[id].executor <= Apply(s, e).runs[id].executor
    ensures s.runs[id].claimed <= Apply(s, e).runs[id].claimed
  {
    assert RunOk(s.runs[id]);
  }

  /** Nor does any history, and no run is ever forgotten. */
  lemma {:induction false} GenerationsGrowForever(s: System, es: seq<Event>, id: int)
    requires RunsOk(s) && id in s.runs
    ensures RunsOk(After(s, es)) && id in After(s, es).runs
    ensures s.runs[id].executor <= After(s, es).runs[id].executor
    ensures s.runs[id].claimed <= After(s, es).runs[id].claimed
  {
    if es != [] {
      GenerationsGrowForever(s, es[..|es| - 1], id);
      StepKeepsRuns(After(s, es[..|es| - 1]), es[|es| - 1]);
      GenerationsGrow(After(s, es[..|es| - 1]), es[|es| - 1], id);
    }
  }

  /** A request that takes effect, and a continuation after a human answer, leave the run
      waiting for a worker under a generation nobody has claimed. */
  lemma RequestedIsClaimable(s: System, id: int, reused: bool)
    requires id in s.runs && RunOk(s.runs[id])
    ensures Request(s, id, reused).1 == Requested ==> Candidate(Request(s, id, reused).0.runs[id])
    ensures s.runs[id].status == WaitingHuman && s.runs[id].product && s.runs[id].adaptive ==>
      Candidate(Apply(s, Continue(id)).runs[id])
  {
  }

  /** A claim makes the worker the owner for exactly one lease period: after so many seconds its
      heartbeat is accepted if and only if the period is not over. */
  lemma LeasePeriod(s: System, worker: int, id: int, seconds: nat)
    requires CanClaim(s, id)
    ensures var s', g := Take(s, worker, id), s.runs[id].executor;
      && Owns(s'.runs[id], g, worker)
      && (Renew(Apply(s', Tick(seconds)), id, g, worker).1 <==> seconds < LEASE_SECONDS)
      && (Fail(Apply(s', Tick(seconds)), id, g, worker, true).1 <==> seconds >= LEASE_SECONDS)
  {
  }

  // ---------- expiry is final ----------

  // The lease of this generation has run out, or the generation is over.
  ghost predicate Lapsed(s: System, id: int, generation: nat) {
    && id in s.runs
    && generation <= s.runs[id].claimed
    && (s.runs[id].executor == generation && s.runs[id].status == Running ==>
          s.runs[id].lease.Some? && s.runs[id].lease.value <= s.now)
    && (s.runs[id].executor == generation ==> s.runs[id].claimed == generation)
  }

  lemma LapsedStays(s: System, e: Event, id: int, generation: nat)
    requires RunsOk(s) && Lapsed(s, id, generation)
    ensures Lapsed(Apply(s, e), id, generation)
  {
    assert RunOk(s.runs[id]);
  }

  lemma {:induction false} LapsedForever(s: System, es: seq<Event>, id: int, generation: nat)
    requires RunsOk(s) && Lapsed(s, id, generation)
    ensures RunsOk(After(s, es)) && Lapsed(After(s, es), id, generation)
  {
    if es != [] {
      LapsedForever(s, es[..|es| - 1], id, generation);
      StepKeepsRuns(After(s, es[..|es| - 1]), es[|es| - 1]);
      LapsedStays(After(s, es[..|es| - 1]), es[|es| - 1], id, generation);
    }
  }

  /** An expired lease is never revived for its generation: whatever happens between the
      reaper's snapshot and its locked re-check, the heartbeat is refused, and the re-check
      spares a run exactly when someone else has already ended that generation. */
  lemma ExpiryIsFinal(s: System, es: seq<Event>, id: int)
    requires RunsOk(s) && id in s.runs && Expired(s.runs[id], s.now)
    ensures var s', generation, worker := After(s, es), s.runs[id].executor, s.runs[id].worker.value;
      && !Renew(s', id, generation, worker).1
      && (Fail(s', id, generation, worker, true).1 <==> id in s'.runs && Owns(s'.runs[id], generation, worker))
      && (Fail(s', id, generation, worker, true).1 ==> Expired(s'.runs[id], s'.now))
  {
    LapsedForever(s, es, id, s.runs[id].executor);
    assert RunOk(After(s, es).runs[id]);
  }

  // ---------- the operations as they run ----------

  lemma {:induction false} EarliestExists(s: System, among: set<int>) returns (id: int)
    requires among != {} && among <= Candidates(s)
    ensures id in among
    ensures forall other :: other in among ==> s.runs[id].requestedAt.value <= s.runs[other].requestedAt.value
    decreases among
  {
    id := Member(among);
    if among != {id} {
      var later := EarliestExists(s, among - {id});
      if s.runs[later].requestedAt.value < s.runs[id].requestedAt.value { id := later; }
    }
  }

  class Dispatcher {
    var runs: map<int, Run>
    var now: int
    ghost var log: seq<Claim>

    ghost function View(): System
      reads this
    {
      System(runs, now, log)
    }

    constructor (now: int)
      ensures Initial(View())
    {
      this.runs, this.now, this.log := map[], now, [];
    }

    method RequestExecution(id: int, reused: bool) returns (result: RequestResult)
      requires id in runs
      modifies this
      ensures (View(), result) == Request(old(View()), id, reused)
    {
      var run := runs[id];
      if !run.product || !run.adaptive { return InvalidDispatch; }
      if run.status != Running { return Unchanged; }
      if run.claimed == run.executor || (reused && run.requestedAt.Some?) { return Unchanged; }
      runs := runs[id := run.(requestedAt := Some(now), worker := None, lease := None)];
      return Requested;
    }

    /** The earliest request wins, and only while a slot is free; nothing is claimed
        exactly when the pool is full or nothing waits. */
    method ClaimExecution(worker: int) returns (claimed: Option<int>)
      modifies this
      ensures claimed.None? <==> |Occupied(old(View()))| >= MAX_EXECUTIONS || Candidates(old(View())) == {}
      ensures claimed.None? ==> View() == old(View())
      ensures claimed.Some? ==> CanClaim(old(View()), claimed.value) && View() == Take(old(View()), worker, claimed.value)
    {
      var occupied := set id | id in runs && Occupies(runs[id], now);
      assert occupied == Occupied(View());
      if |occupied| >= MAX_EXECUTIONS { return None; }
      var waiting := set id | id in runs && Candidate(runs[id]);
      assert waiting == Candidates(View());
      if waiting == {} { return None; }
      ghost var first := EarliestExists(View(), waiting);
      var id :| id in waiting && forall other :: other in waiting ==>
        runs[id].requestedAt.value <= runs[other].requestedAt.value;
      log := log + [Claim(id, runs[id].executor, worker)];
      runs := runs[id := runs[id].(claimed := runs[id].executor, worker := Some(worker), lease := Some(now + LEASE_SECONDS))];
      return Some(id);
    }

    method RenewExecution(id: int, generation: nat, worker: int) returns (renewed: bool)
      modifies this
      ensures (View(), renewed) == Renew(old(View()), id, generation, worker)
    {
      if id !in runs || !Owns(runs[id], generation, worker) || !LeaseLive(runs[id], now) { return false; }
      runs := runs[id := runs[id].(lease := Some(now + LEASE_SECONDS))];
      return true;
    }

    method FailExecution(id: int, generation: nat, worker: int, onlyIfExpired: bool) returns (failed: bool)
      modifies this
      ensures (View(), failed) == Fail(old(View()), id, generation, worker, onlyIfExpired)
    {
      if id !in runs || !Owns(runs[id], generation, worker) { return false; }
      if onlyIfExpired && LeaseLive(runs[id], now) { return false; }
      runs := runs[id := Interrupted(runs[id])];
      return true;
    }

    /** The reaper ends every run whose lease has expired and touches no other. */
    method ReapExecutions()
      modifies this
      ensures View() == old(View()).(runs := Reaped(old(runs), now))
    {
      ghost var before := runs;
      var todo := set id | id in runs && Expired(runs[id], now);
      while todo != {}
        invariant runs.Keys == before.Keys && forall id :: id in todo ==> id in before && Expired(before[id], now)
        invariant now == old(now) && log == old(log)
        invariant forall id :: id in before ==>
          runs[id] == if Expired(before[id], now) && id !in todo then Interrupted(before[id]) else before[id]
        decreases todo
      {
        ghost var some := Member(todo);
        var id :| id in todo;
        var failed := FailExecution(id, runs[id].claimed, runs[id].worker.value, true);
        todo := todo - {id};
      }
      ghost var reaped := Reaped(before, now);
      assert reaped.Keys == before.Keys;
      assert forall id :: id in before ==> runs[id] == reaped[id];
      assert runs == reaped;
    }
  }
}
