/** Bounded fan-out over indexes 0..n-1: a semaphore channel, a wait group, one goroutine per
    index and, in the federated search, a result channel with one place per repository. The
    two users differ in who acquires the semaphore: the loop that spawns, or the worker. */
module FanOut {

  datatype Discipline = SpawnerAcquires | WorkerAcquires

  /** A goroutine: started, in its body, body done and result sent, slot given back, counted off. */
  datatype Worker = Unborn | Born | Running | Returned | Released | Finished

  /** The calling goroutine: about to add index i, about to acquire for it, waiting, done. */
  datatype Caller = Add(i: nat) | Acquire(i: nat) | Wait | Gone

  datatype State = State(
    discipline: Discipline, limit: nat, n: nat,
    caller: Caller, workers: seq<Worker>, sem: nat, group: nat, results: seq<nat>)

  datatype Turn = CallerTurn | WorkerTurn(j: nat)

  function ClampLimit(limit: int, n: nat): int {
    var l := if limit <= 0 then 8 else limit;
    if l > n then n else l
  }

  function Start(d: Discipline, limit: nat, n: nat): State {
    State(d, limit, n, if n == 0 then Wait else Add(0), seq(n, _ => Unborn), 0, 0, [])
  }

  function NextIndex(s: State, i: nat): Caller { if i + 1 == s.n then Wait else Add(i + 1) }

  /** A turn is enabled unless it would block: on a full semaphore, a full result channel, or
      a wait group that is not yet at zero. */
  predicate CanTurn(s: State, t: Turn) {
    match t
    case CallerTurn =>
      (match s.caller
       case Add(i) => i < |s.workers|
       case Acquire(i) => i < |s.workers| && s.sem < s.limit
       case Wait => s.group == 0
       case Gone => false)
    case WorkerTurn(j) =>
      j < |s.workers| &&
      (match s.workers[j]
       case Unborn => false
       case Born => s.discipline == WorkerAcquires ==> s.sem < s.limit
       case Running => |s.results| < s.n
       case Returned => s.sem > 0
       case Released => s.group > 0
       case Finished => false)
  }

  function Step(s: State, t: Turn): State
    requires CanTurn(s, t)
  {
    match t
    case CallerTurn =>
      (match s.caller
       case Add(i) =>
         if s.discipline == SpawnerAcquires then s.(group := s.group + 1, caller := Acquire(i))
         else s.(group := s.group + 1, workers := s.workers[i := Born], caller := NextIndex(s, i))
       case Acquire(i) => s.(sem := s.sem + 1, workers := s.workers[i := Born], caller := NextIndex(s, i))
       case Wait => s.(caller := Gone))
    case WorkerTurn(j) =>
      (match s.workers[j]
       case Born =>
         s.(sem := if s.discipline == WorkerAcquires then s.sem + 1 else s.sem, workers := s.workers[j := Running])
       case Running => s.(results := s.results + [j], workers := s.workers[j := Returned])
       case Returned => s.(sem := s.sem - 1, workers := s.workers[j := Released])
       case Released => s.(group := s.group - 1, workers := s.workers[j := Finished]))
  }

  // ---- counting workers ----

  predicate HoldsSlot(d: Discipline, w: Worker) {
    w == Running || w == Returned || (d == SpawnerAcquires && w == Born)
  }

  predicate Pending(w: Worker) { w != Unborn && w != Finished }

  predicate Sent(w: Worker) { w == Returned || w == Released || w == Finished }

  function Count(ws: seq<Worker>, p: Worker -> bool): nat {
    if ws == [] then 0 else (if p(ws[0]) then 1 else 0) + Count(ws[1..], p)
  }

  lemma {:induction false} CountOfUpdate(ws: seq<Worker>, j: nat, w: Worker, p: Worker -> bool)
    requires j < |ws|
    ensures Count(ws[j := w], p) == Count(ws, p) - (if p(ws[j]) then 1 else 0) + (if p(w) then 1 else 0)
  {
    if j == 0 {
      assert ws[j := w][1..] == ws[1..];
    } else {
      assert ws[j := w][1..] == ws[1..][j - 1 := w];
      CountOfUpdate(ws[1..], j - 1, w, p);
    }
  }

  lemma {:induction false} CountBounds(ws: seq<Worker>, p: Worker -> bool)
    ensures Count(ws, p) <= |ws|
    ensures Count(ws, p) == 0 <==> forall j | 0 <= j < |ws| :: !p(ws[j])
    ensures Count(ws, p) == |ws| <==> forall j | 0 <= j < |ws| :: p(ws[j])
  {
    if ws != [] {
      CountBounds(ws[1..], p);
      assert forall j | 1 <= j < |ws| :: ws[j] == ws[1..][j - 1];
      assert forall j | 0 <= j < |ws| - 1 :: ws[1..][j] == ws[j + 1];
    }
  }

  lemma {:induction false} CountMonotone(ws: seq<Worker>, p: Worker -> bool, q: Worker -> bool)
    requires forall w :: p(w) ==> q(w)
    ensures Count(ws, p) <= Count(ws, q)
  {
    if ws != [] { CountMonotone(ws[1..], p, q); }
  }

  // ---- what every reachable state keeps ----

  function Spawned(s: State): nat {
    match s.caller case Add(i) => i case Acquire(i) => i case Wait => s.n case Gone => s.n
  }

  ghost predicate Inv(s: State) {
    && |s.workers| == s.n && s.limit > 0
    && (s.caller.Add? || s.caller.Acquire? ==> s.caller.i < s.n)
    && (s.caller.Acquire? ==> s.discipline == SpawnerAcquires)
    && (forall j | 0 <= j < s.n :: s.workers[j] == Unborn <==> j >= Spawned(s))
    && s.sem == Count(s.workers, w => HoldsSlot(s.discipline, w)) <= s.limit
    && s.group == Count(s.workers, w => Pending(w)) + (if s.caller.Acquire? then 1 else 0)
    && (s.caller == Gone ==> s.group == 0)
    && |s.results| == Count(s.workers, w => Sent(w))
    && (forall j: nat | j < s.n :: j in s.results <==> Sent(s.workers[j]))
    && (forall k | 0 <= k < |s.results| :: s.results[k] < s.n)
    && (forall k, m | 0 <= k < m < |s.results| :: s.results[k] != s.results[m])
  }

  lemma {:induction false} AllUnborn(n: nat, p: Worker -> bool)
    requires !p(Unborn)
    ensures Count(seq(n, _ => Unborn), p) == 0
  {
    CountBounds(seq(n, _ => Unborn), p);
  }

  lemma StartKeeps(d: Discipline, limit: nat, n: nat)
    requires limit > 0
    ensures Inv(Start(d, limit, n))
  {
    AllUnborn(n, w => HoldsSlot(d, w));
    AllUnborn(n, w => Pending(w));
    AllUnborn(n, w => Sent(w));
  }

  lemma UpdateAll(s: State, j: nat, w: Worker)
    requires j < |s.workers|
    ensures forall p: Worker -> bool ::
      Count(s.workers[j := w], p) == Count(s.workers, p) - (if p(s.workers[j]) then 1 else 0) + (if p(w) then 1 else 0)
  {
    forall p: Worker -> bool
      ensures Count(s.workers[j := w], p) == Count(s.workers, p) - (if p(s.workers[j]) then 1 else 0) + (if p(w) then 1 else 0)
    {
      CountOfUpdate(s.workers, j, w, p);
    }
  }

  lemma SpawnKeeps(s: State)
    requires Inv(s) && CanTurn(s, CallerTurn)
    requires s.caller.Acquire? || (s.caller.Add? && s.discipline == WorkerAcquires)
    ensures Inv(Step(s, CallerTurn))
  {
    UpdateAll(s, s.caller.i, Born);
    assert s.workers[s.caller.i] == Unborn;
  }

  lemma CallerTurnKeeps(s: State)
    requires Inv(s) && CanTurn(s, CallerTurn)
    ensures Inv(Step(s, CallerTurn))
  {
    if s.caller.Acquire? || (s.caller.Add? && s.discipline == WorkerAcquires) { SpawnKeeps(s); }
  }

  lemma SendKeeps(s: State, j: nat)
    requires Inv(s) && CanTurn(s, WorkerTurn(j)) && s.workers[j] == Running
    ensures Inv(Step(s, WorkerTurn(j)))
  {
    var t := Step(s, WorkerTurn(j));
    CountOfUpdate(s.workers, j, Returned, w => HoldsSlot(s.discipline, w));
    CountOfUpdate(s.workers, j, Returned, w => Pending(w));
    CountOfUpdate(s.workers, j, Returned, w => Sent(w));
    assert j !in s.results;
    assert t.results[|s.results|] == j;
    forall k: nat | k < s.n ensures k in t.results <==> Sent(t.workers[k]) {
      assert k in s.results <==> Sent(s.workers[k]);
    }
  }

  lemma WorkerTurnKeeps(s: State, j: nat)
    requires Inv(s) && CanTurn(s, WorkerTurn(j))
    ensures Inv(Step(s, WorkerTurn(j)))
  {
    if s.workers[j] == Running {
      SendKeeps(s, j);
    } else {
      var w := Step(s, WorkerTurn(j)).workers[j];
      CountOfUpdate(s.workers, j, w, x => HoldsSlot(s.discipline, x));
      CountOfUpdate(s.workers, j, w, x => Pending(x));
      CountOfUpdate(s.workers, j, w, x => Sent(x));
    }
  }

  lemma StepKeeps(s: State, t: Turn)
    requires Inv(s) && CanTurn(s, t)
    ensures Inv(Step(s, t))
  {
    if t.CallerTurn? { CallerTurnKeeps(s); } else { WorkerTurnKeeps(s, t.j); }
  }

  /** At most `limit` bodies are in flight. */
  lemma BoundedInFlight(s: State)
    requires Inv(s)
    ensures Count(s.workers, w => w == Running) <= s.limit
  {
    CountMonotone(s.workers, w => w == Running, w => HoldsSlot(s.discipline, w));
  }

  /** A worker with a result never finds the channel full. */
  lemma ResultNeverBlocks(s: State, j: nat)
    requires Inv(s) && j < s.n && s.workers[j] == Running
    ensures CanTurn(s, WorkerTurn(j))
  {
    CountBounds(s.workers, w => Sent(w));
  }

  lemma GiveBackNeverBlocks(s: State, j: nat)
    requires Inv(s) && j < s.n && (s.workers[j] == Returned || s.workers[j] == Released)
    ensures CanTurn(s, WorkerTurn(j))
  {
    CountBounds(s.workers, w => HoldsSlot(s.discipline, w));
    CountBounds(s.workers, w => Pending(w));
  }

  /** No deadlock: until the call has returned somebody can take a turn. */
  lemma SomeoneCanTurn(s: State)
    requires Inv(s) && s.caller != Gone
    ensures exists t :: CanTurn(s, t)
  {
    if exists j :: 0 <= j < s.n && (s.workers[j] == Running || s.workers[j] == Returned || s.workers[j] == Released) {
      var j :| 0 <= j < s.n && (s.workers[j] == Running || s.workers[j] == Returned || s.workers[j] == Released);
      if s.workers[j] == Running { ResultNeverBlocks(s, j); } else { GiveBackNeverBlocks(s, j); }
      assert CanTurn(s, WorkerTurn(j));
    } else if exists j :: 0 <= j < s.n && s.workers[j] == Born {
      var j :| 0 <= j < s.n && s.workers[j] == Born;
      CountBounds(s.workers, w => HoldsSlot(s.discipline, w));
      assert CanTurn(s, WorkerTurn(j));
    } else {
      CountBounds(s.workers, w => HoldsSlot(s.discipline, w));
      CountBounds(s.workers, w => Pending(w));
      assert CanTurn(s, CallerTurn);
    }
  }

  // ---- termination and result ----

  function WorkerFuel(w: Worker): nat {
    match w case Unborn => 5 case Born => 4 case Running => 3 case Returned => 2 case Released => 1 case Finished => 0
  }

  function TotalFuel(ws: seq<Worker>): nat {
    if ws == [] then 0 else WorkerFuel(ws[0]) + TotalFuel(ws[1..])
  }

  function CallerFuel(s: State): int {
    match s.caller
    case Add(i) => 2 * (s.n - i) + 1
    case Acquire(i) => 2 * (s.n - i)
    case Wait => 1
    case Gone => 0
  }

  lemma {:induction false} FuelOfUpdate(ws: seq<Worker>, j: nat, w: Worker)
    requires j < |ws|
    ensures TotalFuel(ws[j := w]) == TotalFuel(ws) - WorkerFuel(ws[j]) + WorkerFuel(w)
  {
    if j == 0 {
      assert ws[j := w][1..] == ws[1..];
    } else {
      assert ws[j := w][1..] == ws[1..][j - 1 := w];
      FuelOfUpdate(ws[1..], j - 1, w);
    }
  }

  lemma {:induction false} FuelOfStart(n: nat)
    ensures TotalFuel(seq(n, _ => Unborn)) == 5 * n
  {
    if n > 0 {
      FuelOfStart(n - 1);
      assert seq(n, _ => Unborn)[1..] == seq(n - 1, _ => Unborn);
    }
  }

  lemma StepBurnsFuel(s: State, t: Turn)
    requires Inv(s) && CanTurn(s, t)
    ensures var u := Step(s, t);
      0 <= TotalFuel(u.workers) + CallerFuel(u) < TotalFuel(s.workers) + CallerFuel(s)
  {
    var u := Step(s, t);
    if t.WorkerTurn? {
      FuelOfUpdate(s.workers, t.j, u.workers[t.j]);
    } else if s.caller.Acquire? || (s.caller.Add? && s.discipline == WorkerAcquires) {
      assert s.workers[s.caller.i] == Unborn;
      FuelOfUpdate(s.workers, s.caller.i, Born);
    }
  }

  ghost predicate TurnAt(states: seq<State>, turns: seq<Turn>, k: nat)
    requires |states| == |turns| + 1 && k < |turns|
  {
    CanTurn(states[k], turns[k]) && states[k + 1] == Step(states[k], turns[k])
  }

  ghost predicate IsSchedule(states: seq<State>, turns: seq<Turn>, d: Discipline, limit: nat, n: nat) {
    && |states| == |turns| + 1 && states[0] == Start(d, limit, n) && limit > 0
    && forall k | 0 <= k < |turns| :: TurnAt(states, turns, k)
  }

  lemma {:induction false} ScheduleKeeps(states: seq<State>, turns: seq<Turn>, d: Discipline, limit: nat, n: nat, k: nat)
    requires IsSchedule(states, turns, d, limit, n) && k < |states|
    ensures Inv(states[k]) && states[k].n == n && states[k].limit == limit
    ensures 0 <= TotalFuel(states[k].workers) + CallerFuel(states[k]) <= 7 * n + 1 - k
  {
    if k == 0 {
      StartKeeps(d, limit, n);
      FuelOfStart(n);
    } else {
      ScheduleKeeps(states, turns, d, limit, n, k - 1);
      assert TurnAt(states, turns, k - 1);
      StepKeeps(states[k - 1], turns[k - 1]);
      StepBurnsFuel(states[k - 1], turns[k - 1]);
    }
  }

  /** Under either discipline and in every schedule: never more than `limit` bodies in flight;
      at most 7n+1 turns; a schedule that cannot continue has returned; and when the call has
      returned, every worker is finished and the results hold every index exactly once. */
  lemma FanOutIsBoundedAndComplete(states: seq<State>, turns: seq<Turn>, d: Discipline, limit: nat, n: nat)
    requires IsSchedule(states, turns, d, limit, n)
    ensures |turns| <= 7 * n + 1
    ensures forall k | 0 <= k < |states| :: Count(states[k].workers, w => w == Running) <= limit
    ensures var last := states[|turns|];
      && ((forall t :: !CanTurn(last, t)) ==> last.caller == Gone)
      && (last.caller == Gone ==>
            && (forall j | 0 <= j < n :: j < |last.workers| && last.workers[j] == Finished)
            && |last.results| == n
            && (forall j: nat | j < n :: j in last.results)
            && (forall k, m | 0 <= k < m < n :: last.results[k] != last.results[m]))
  {
    forall k | 0 <= k < |states| ensures Count(states[k].workers, w => w == Running) <= limit {
      ScheduleKeeps(states, turns, d, limit, n, k);
      BoundedInFlight(states[k]);
    }
    var last := states[|turns|];
    ScheduleKeeps(states, turns, d, limit, n, |turns|);
    if last.caller != Gone {
      SomeoneCanTurn(last);
    } else {
      CountBounds(last.workers, w => Pending(w));
      CountBounds(last.workers, w => Sent(w));
      assert forall j | 0 <= j < n :: !Pending(last.workers[j]) && last.workers[j] != Unborn;
    }
  }

  /** Run over n > 1 indices with any requested limit: no more bodies in flight than asked for,
      the default of 8 standing in for none, nor more than there are indices. */
  lemma RequestedLimitHolds(states: seq<State>, turns: seq<Turn>, limit: int, n: nat)
    requires n > 1 && IsSchedule(states, turns, SpawnerAcquires, ClampLimit(limit, n), n)
    ensures forall k | 0 <= k < |states| :: Count(states[k].workers, w => w == Running) <= (if limit <= 0 then 8 else limit)
    ensures forall k | 0 <= k < |states| :: Count(states[k].workers, w => w == Running) <= n
  {
    FanOutIsBoundedAndComplete(states, turns, SpawnerAcquires, ClampLimit(limit, n), n);
  }

  /** The first k indices have their bodies in flight, and no other was begun. */
  function Underway(limit: nat, n: nat, k: nat): State {
    State(SpawnerAcquires, limit, n, if k == n then Wait else Add(k),
          seq(n, j requires 0 <= j < n => if j < k then Running else Unborn), k, k, [])
  }

  lemma OneMoreUnderway(limit: nat, n: nat, k: nat) returns (s1: State, s2: State)
    requires k < limit && k < n
    ensures CanTurn(Underway(limit, n, k), CallerTurn) && s1 == Step(Underway(limit, n, k), CallerTurn)
    ensures CanTurn(s1, CallerTurn) && s2 == Step(s1, CallerTurn)
    ensures CanTurn(s2, WorkerTurn(k)) && Step(s2, WorkerTurn(k)) == Underway(limit, n, k + 1)
  {
    s1 := Step(Underway(limit, n, k), CallerTurn);
    s2 := Step(s1, CallerTurn);
    assert Step(s2, WorkerTurn(k)).workers == Underway(limit, n, k + 1).workers;
  }

  lemma ScheduleGrows(states: seq<State>, turns: seq<Turn>, limit: nat, n: nat, t: Turn, next: State)
    requires IsSchedule(states, turns, SpawnerAcquires, limit, n)
    requires CanTurn(states[|turns|], t) && next == Step(states[|turns|], t)
    ensures IsSchedule(states + [next], turns + [t], SpawnerAcquires, limit, n)
  {
    forall k | 0 <= k < |turns + [t]| ensures TurnAt(states + [next], turns + [t], k) {
      if k < |turns| { assert TurnAt(states, turns, k); }
    }
  }

  lemma {:induction false} UnderwayIsReached(limit: nat, n: nat, k: nat) returns (states: seq<State>, turns: seq<Turn>)
    requires k <= limit && k <= n && limit > 0
    ensures IsSchedule(states, turns, SpawnerAcquires, limit, n) && states[|turns|] == Underway(limit, n, k)
  {
    if k == 0 {
      states, turns := [Start(SpawnerAcquires, limit, n)], [];
      assert Start(SpawnerAcquires, limit, n).workers == Underway(limit, n, 0).workers;
    } else {
      states, turns := UnderwayIsReached(limit, n, k - 1);
      var s1, s2 := OneMoreUnderway(limit, n, k - 1);
      ScheduleGrows(states, turns, limit, n, CallerTurn, s1);
      ScheduleGrows(states + [s1], turns + [CallerTurn], limit, n, CallerTurn, s2);
      states, turns := states + [s1] + [s2], turns + [CallerTurn] + [CallerTurn];
      ScheduleGrows(states, turns, limit, n, WorkerTurn(k - 1), Underway(limit, n, k));
      states, turns := states + [Underway(limit, n, k)], turns + [WorkerTurn(k - 1)];
    }
  }

  lemma {:induction false} CountOfFirst(ws: seq<Worker>, k: nat)
    requires k <= |ws| && forall j | 0 <= j < |ws| :: ws[j] == if j < k then Running else Unborn
    ensures Count(ws, w => w == Running) == k
  {
    if ws != [] {
      assert forall j | 0 <= j < |ws| - 1 :: ws[1..][j] == ws[j + 1];
      CountOfFirst(ws[1..], if k == 0 then 0 else k - 1);
    }
  }

  /** And that many do come to be in flight at once in some schedule: the limit is no lower. */
  lemma RequestedLimitIsReached(limit: int, n: nat) returns (states: seq<State>, turns: seq<Turn>)
    requires n > 1
    ensures IsSchedule(states, turns, SpawnerAcquires, ClampLimit(limit, n), n)
    ensures var asked := if limit <= 0 then 8 else limit;
      Count(states[|turns|].workers, w => w == Running) == if asked > n then n else asked
  {
    var k: nat := if limit <= 0 then if 8 > n then n else 8 else if limit > n then n else limit;
    states, turns := UnderwayIsReached(ClampLimit(limit, n), n, k);
    CountOfFirst(states[|turns|].workers, k);
  }
}
