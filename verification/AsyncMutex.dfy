/** The asynchronous mutex: a flag and a queue of sleeping acquirers. A released lock is not
    handed over; the acquirer at the head of the queue is woken and looks again, and anyone
    may take the lock before it does. */
module AsyncMutex {

  /** One caller of withLock, between two turns of the event loop. */
  datatype Task = Idle | Waiting | Woken | Holding | Done

  datatype Run = Run(locked: bool, queue: seq<nat>, tasks: seq<Task>)

  class Mutex {
    var locked: bool
    var waitQueue: seq<nat>

    constructor ()
      ensures !locked && waitQueue == []
    {
      locked, waitQueue := false, [];
    }

    /** One turn of acquire's loop, by an arriving or a woken caller: take the lock or go to sleep. */
    method TryAcquire(who: nat) returns (held: bool)
      modifies this
      ensures held == !old(locked) && locked
      ensures waitQueue == if held then old(waitQueue) else old(waitQueue) + [who]
    {
      if locked {
        waitQueue := waitQueue + [who];
        return false;
      }
      locked := true;
      return true;
    }

    /** The closure acquire returns: unlock, and wake the caller that has slept longest. */
    method Release() returns (woken: seq<nat>)
      modifies this
      ensures !locked
      ensures old(waitQueue) == woken + waitQueue && |woken| == if old(waitQueue) == [] then 0 else 1
    {
      locked := false;
      woken := [];
      if |waitQueue| > 0 {
        woken := [waitQueue[0]];
        waitQueue := waitQueue[1..];
      }
    }
  }

  function Start(n: nat): Run { Run(false, [], seq(n, _ => Idle)) }

  predicate CanStep(s: Run, i: nat) {
    i < |s.tasks| && (s.tasks[i] == Idle || s.tasks[i] == Woken || s.tasks[i] == Holding)
  }

  /** The next turn of task i: a look at the lock, or the end of the critical section. */
  function Step(s: Run, i: nat): Run
    requires CanStep(s, i)
  {
    if s.tasks[i] == Holding then
      if s.queue == [] || s.queue[0] >= |s.tasks| then Run(false, s.queue, s.tasks[i := Done])
      else Run(false, s.queue[1..], s.tasks[i := Done][s.queue[0] := Woken])
    else if s.locked then Run(true, s.queue + [i], s.tasks[i := Waiting])
    else Run(true, s.queue, s.tasks[i := Holding])
  }

  /** The methods above do to the mutex what a step says. */
  method Turn(m: Mutex, s: Run, i: nat) returns (t: Run)
    requires CanStep(s, i) && m.locked == s.locked && m.waitQueue == s.queue
    requires s.queue != [] ==> s.queue[0] < |s.tasks|
    modifies m
    ensures t == Step(s, i) && m.locked == t.locked && m.waitQueue == t.queue
  {
    if s.tasks[i] == Holding {
      var woken := m.Release();
      t := Run(m.locked, m.waitQueue, s.tasks[i := Done]);
      if |woken| > 0 {
        t := t.(tasks := t.tasks[woken[0] := Woken]);
      }
    } else {
      var held := m.TryAcquire(i);
      t := Run(m.locked, m.waitQueue, s.tasks[i := if held then Holding else Waiting]);
    }
  }

  ghost predicate AtMostOneHolder(s: Run) {
    forall i, j | 0 <= i < j < |s.tasks| :: !(s.tasks[i] == Holding && s.tasks[j] == Holding)
  }

  /** The lock is set exactly while someone holds it; the queue lists exactly the sleepers, each
      once; and sleepers are never forgotten: if the lock is free someone is awake to take it. */
  ghost predicate Inv(s: Run) {
    && AtMostOneHolder(s)
    && (s.locked <==> exists i :: 0 <= i < |s.tasks| && s.tasks[i] == Holding)
    && (forall k | 0 <= k < |s.queue| :: s.queue[k] < |s.tasks| && s.tasks[s.queue[k]] == Waiting)
    && (forall j, k | 0 <= j < k < |s.queue| :: s.queue[j] != s.queue[k])
    && (forall i | 0 <= i < |s.tasks| && s.tasks[i] == Waiting :: i in s.queue)
    && (s.queue != [] && !s.locked ==> exists i :: 0 <= i < |s.tasks| && s.tasks[i] == Woken)
  }

  lemma StartKeeps(n: nat)
    ensures Inv(Start(n))
  {}

  lemma ReleaseKeeps(s: Run, i: nat)
    requires Inv(s) && CanStep(s, i) && s.tasks[i] == Holding
    ensures Inv(Step(s, i))
  {
    var t := Step(s, i);
    assert forall j | 0 <= j < |t.tasks| :: t.tasks[j] != Holding;
    if s.queue != [] {
      var w := s.queue[0];
      assert s.tasks[w] == Waiting && t.tasks[w] == Woken;
      forall k | 0 <= k < |t.queue| ensures t.queue[k] < |t.tasks| && t.tasks[t.queue[k]] == Waiting {
        assert t.queue[k] == s.queue[k + 1];
      }
      forall j | 0 <= j < |t.tasks| && t.tasks[j] == Waiting ensures j in t.queue {
        assert j in s.queue && j != w;
      }
    }
  }

  lemma SleepKeeps(s: Run, i: nat)
    requires Inv(s) && CanStep(s, i) && s.tasks[i] != Holding && s.locked
    ensures Inv(Step(s, i))
  {
    var t := Step(s, i);
    assert t.queue == s.queue + [i];
    assert i !in s.queue;
    forall j | 0 <= j < |t.tasks| && t.tasks[j] == Waiting ensures j in t.queue {
      if j == i { assert t.queue[|s.queue|] == i; } else { assert j in s.queue; }
    }
    var h :| 0 <= h < |s.tasks| && s.tasks[h] == Holding;
    assert t.tasks[h] == Holding;
    assert forall j | 0 <= j < |t.tasks| :: t.tasks[j] == Holding ==> s.tasks[j] == Holding;
  }

  lemma TakeKeeps(s: Run, i: nat)
    requires Inv(s) && CanStep(s, i) && !s.locked
    ensures Inv(Step(s, i))
  {
    var t := Step(s, i);
    assert s.tasks[i] != Holding;
    assert t.tasks[i] == Holding;
    assert forall j | 0 <= j < |t.tasks| && j != i :: t.tasks[j] == s.tasks[j];
  }

  lemma StepKeeps(s: Run, i: nat)
    requires Inv(s) && CanStep(s, i)
    ensures Inv(Step(s, i))
  {
    if s.tasks[i] == Holding {
      ReleaseKeeps(s, i);
    } else if s.locked {
      SleepKeeps(s, i);
    } else {
      TakeKeeps(s, i);
    }
  }

  // ---- every caller finishes ----

  function Fuel(t: Task): nat {
    match t
    case Idle => 3 case Woken => 3 case Waiting => 2 case Holding => 2 case Done => 0
  }

  function TotalFuel(tasks: seq<Task>): nat {
    if tasks == [] then 0 else Fuel(tasks[0]) + TotalFuel(tasks[1..])
  }

  lemma {:induction false} FuelOfUpdate(tasks: seq<Task>, i: nat, t: Task)
    requires i < |tasks|
    ensures TotalFuel(tasks[i := t]) == TotalFuel(tasks) - Fuel(tasks[i]) + Fuel(t)
  {
    if i == 0 {
      assert tasks[i := t][1..] == tasks[1..];
    } else {
      assert tasks[i := t][1..] == tasks[1..][i - 1 := t];
      FuelOfUpdate(tasks[1..], i - 1, t);
    }
  }

  lemma {:induction false} FuelOfStart(n: nat)
    ensures TotalFuel(seq(n, _ => Idle)) == 3 * n
  {
    if n > 0 {
      FuelOfStart(n - 1);
      assert seq(n, _ => Idle)[1..] == seq(n - 1, _ => Idle);
    }
  }

  lemma StepBurnsFuel(s: Run, i: nat)
    requires Inv(s) && CanStep(s, i)
    ensures TotalFuel(Step(s, i).tasks) < TotalFuel(s.tasks)
  {
    if s.tasks[i] == Holding {
      FuelOfUpdate(s.tasks, i, Done);
      if s.queue != [] { FuelOfUpdate(s.tasks[i := Done], s.queue[0], Woken); }
    } else {
      FuelOfUpdate(s.tasks, i, if s.locked then Waiting else Holding);
    }
  }

  /** No deadlock: while anyone is unfinished, someone can take a turn. */
  lemma SomeoneCanStep(s: Run, i: nat)
    requires Inv(s) && i < |s.tasks| && s.tasks[i] != Done
    ensures exists j: nat :: CanStep(s, j)
  {
    if !CanStep(s, i) {
      assert i in s.queue;
      if s.locked {
        var h :| 0 <= h < |s.tasks| && s.tasks[h] == Holding;
        assert CanStep(s, h);
      } else {
        var w :| 0 <= w < |s.tasks| && s.tasks[w] == Woken;
        assert CanStep(s, w);
      }
    } else {
      assert CanStep(s, i);
    }
  }

  ghost predicate StepAt(states: seq<Run>, turns: seq<nat>, k: nat)
    requires |states| == |turns| + 1 && k < |turns|
  {
    CanStep(states[k], turns[k]) && states[k + 1] == Step(states[k], turns[k])
  }

  ghost predicate IsSchedule(states: seq<Run>, turns: seq<nat>, n: nat) {
    && |states| == |turns| + 1 && states[0] == Start(n)
    && forall k | 0 <= k < |turns| :: StepAt(states, turns, k)
  }

  lemma {:induction false} ScheduleKeeps(states: seq<Run>, turns: seq<nat>, n: nat, k: nat)
    requires IsSchedule(states, turns, n) && k < |states|
    ensures Inv(states[k]) && |states[k].tasks| == n
    ensures TotalFuel(states[k].tasks) + k <= 3 * n
  {
    if k == 0 {
      StartKeeps(n);
      FuelOfStart(n);
    } else {
      ScheduleKeeps(states, turns, n, k - 1);
      assert StepAt(states, turns, k - 1);
      StepKeeps(states[k - 1], turns[k - 1]);
      StepBurnsFuel(states[k - 1], turns[k - 1]);
    }
  }

  /** Whatever order the event loop picks: at most one caller is ever inside, the flag says
      truly whether one is, no schedule of n callers is longer than 3n turns, and a schedule
      that cannot be continued has let every caller finish. */
  lemma MutualExclusionAndProgress(states: seq<Run>, turns: seq<nat>, n: nat)
    requires IsSchedule(states, turns, n)
    ensures |turns| <= 3 * n
    ensures forall k | 0 <= k < |states| :: AtMostOneHolder(states[k])
    ensures var last := states[|turns|];
      (forall j: nat :: !CanStep(last, j)) ==>
        && (forall i | 0 <= i < n :: i < |last.tasks| && last.tasks[i] == Done)
        && !last.locked && last.queue == []
  {
    forall k | 0 <= k < |states| ensures AtMostOneHolder(states[k]) {
      ScheduleKeeps(states, turns, n, k);
    }
    var last := states[|turns|];
    ScheduleKeeps(states, turns, n, |turns|);
    assert last.queue != [] ==> last.tasks[last.queue[0]] == Waiting;
    if forall j: nat :: !CanStep(last, j) {
      forall i | 0 <= i < n ensures last.tasks[i] == Done {
        if last.tasks[i] != Done { SomeoneCanStep(last, i); }
      }
    }
  }

  /** The lock is not first come, first served: a woken caller can find it taken again by one
      that arrived later, and goes back to the end of the queue. */
  lemma WokenCallerCanBeOvertaken()
    ensures var s1 := Step(Start(3), 0);
      var s2 := Step(s1, 1);
      var s3 := Step(s2, 0);
      var s4 := Step(s3, 2);
      var s5 := Step(s4, 1);
      && s3.tasks == [Done, Woken, Idle]
      && s4.tasks == [Done, Woken, Holding]
      && s5.tasks == [Done, Waiting, Holding] && s5.queue == [1]
  {
    var s0 := Start(3);
    assert s0.tasks == [Idle, Idle, Idle];
    var s1 := Step(s0, 0);
    assert s1 == Run(true, [], [Holding, Idle, Idle]);
    var s2 := Step(s1, 1);
    assert s2 == Run(true, [1], [Holding, Waiting, Idle]);
    var s3 := Step(s2, 0);
    assert s3 == Run(false, [], [Done, Woken, Idle]);
    var s4 := Step(s3, 2);
    assert s4 == Run(true, [], [Done, Woken, Holding]);
  }

  // ---- the order of service ----

  ghost predicate SomeoneWoken(s: Run) { exists w :: 0 <= w < |s.tasks| && s.tasks[w] == Woken }

  /** No caller arrives between a wake-up and the woken caller's look at the lock. */
  ghost predicate PoliteAt(states: seq<Run>, turns: seq<nat>, k: nat)
    requires |states| == |turns| + 1 && k < |turns|
  {
    turns[k] < |states[k].tasks| && states[k].tasks[turns[k]] == Idle ==> !SomeoneWoken(states[k])
  }

  ghost predicate Polite(states: seq<Run>, turns: seq<nat>)
    requires |states| == |turns| + 1
  {
    forall k | 0 <= k < |turns| :: PoliteAt(states, turns, k)
  }

  function NewArrival(s: Run, i: nat): seq<nat> { if i < |s.tasks| && s.tasks[i] == Idle then [i] else [] }

  /** The callers in the order of their first turn, after k turns. */
  function Arrived(states: seq<Run>, turns: seq<nat>, k: nat): seq<nat>
    requires |states| == |turns| + 1 && k <= |turns|
  {
    if k == 0 then [] else Arrived(states, turns, k - 1) + NewArrival(states[k - 1], turns[k - 1])
  }

  function NewHolder(s: Run, i: nat): seq<nat> {
    if CanStep(s, i) && s.tasks[i] != Holding && !s.locked then [i] else []
  }

  /** The callers in the order they came to hold the lock. */
  function Entered(states: seq<Run>, turns: seq<nat>, k: nat): seq<nat>
    requires |states| == |turns| + 1 && k <= |turns|
  {
    if k == 0 then [] else Entered(states, turns, k - 1) + NewHolder(states[k - 1], turns[k - 1])
  }

  /** In order so far: those who entered, then the one woken if there is one, then the sleepers are
      all who arrived; and a woken caller finds the lock free. */
  ghost predicate InOrder(s: Run, arrived: seq<nat>, entered: seq<nat>, woken: seq<nat>) {
    && arrived == entered + woken + s.queue
    && |woken| <= 1
    && (woken != [] ==> woken[0] < |s.tasks| && s.tasks[woken[0]] == Woken && !s.locked)
    && (forall i | 0 <= i < |s.tasks| && s.tasks[i] == Woken :: i in woken)
  }

  /** Whom the turn leaves woken. */
  function WokenAfter(s: Run, i: nat, woken: seq<nat>): seq<nat>
    requires CanStep(s, i)
  {
    if s.tasks[i] == Holding then s.queue[..if s.queue == [] then 0 else 1]
    else if s.tasks[i] == Woken then [] else woken
  }

  lemma HeadIsWoken(s: Run, i: nat)
    requires Inv(s) && CanStep(s, i) && s.tasks[i] == Holding && s.queue != []
    requires forall j | 0 <= j < |s.tasks| :: s.tasks[j] != Woken
    ensures var t := Step(s, i); var w := s.queue[0];
      && t.queue == s.queue[1..] && !t.locked && w < |t.tasks| && t.tasks[w] == Woken
      && forall j | 0 <= j < |t.tasks| && t.tasks[j] == Woken :: j == w
    ensures s.queue == [s.queue[0]] + s.queue[1..]
  {
    assert s.tasks[s.queue[0]] == Waiting;
  }

  /** A holder's turn wakes the head of the queue. */
  lemma ReleaseKeepsOrder(s: Run, i: nat, arrived: seq<nat>, entered: seq<nat>, woken: seq<nat>)
    requires Inv(s) && CanStep(s, i) && InOrder(s, arrived, entered, woken) && s.tasks[i] == Holding
    ensures InOrder(Step(s, i), arrived + NewArrival(s, i), entered + NewHolder(s, i), WokenAfter(s, i, woken))
  {
    assert s.locked && woken == [];
    assert arrived + [] == arrived && entered + [] == entered;
    if s.queue != [] {
      HeadIsWoken(s, i);
      assert entered + s.queue == entered + [s.queue[0]] + s.queue[1..];
    }
  }

  /** An arrival with nobody woken takes the free lock, the queue being empty then, or joins the end. */
  lemma ArrivalKeepsOrder(s: Run, i: nat, arrived: seq<nat>, entered: seq<nat>, woken: seq<nat>)
    requires Inv(s) && CanStep(s, i) && InOrder(s, arrived, entered, woken) && s.tasks[i] == Idle && !SomeoneWoken(s)
    ensures InOrder(Step(s, i), arrived + NewArrival(s, i), entered + NewHolder(s, i), WokenAfter(s, i, woken))
  {
    assert woken == [];
    if s.locked {
      assert entered + [] + s.queue + [i] == entered + [] + (s.queue + [i]);
    } else {
      assert s.queue == [];
      assert entered + [] + [] + [i] == entered + [i] + [] + [];
    }
  }

  /** The woken caller finds the lock free and takes it. */
  lemma WakingKeepsOrder(s: Run, i: nat, arrived: seq<nat>, entered: seq<nat>, woken: seq<nat>)
    requires Inv(s) && CanStep(s, i) && InOrder(s, arrived, entered, woken) && s.tasks[i] == Woken
    ensures InOrder(Step(s, i), arrived + NewArrival(s, i), entered + NewHolder(s, i), WokenAfter(s, i, woken))
  {
    assert i in woken && woken == [i] && !s.locked;
    assert entered + [i] + s.queue == entered + [i] + [] + s.queue;
    assert arrived + [] == arrived;
  }

  lemma PoliteStepKeepsOrder(s: Run, i: nat, arrived: seq<nat>, entered: seq<nat>, woken: seq<nat>)
    requires Inv(s) && CanStep(s, i) && InOrder(s, arrived, entered, woken) && (s.tasks[i] == Idle ==> !SomeoneWoken(s))
    ensures InOrder(Step(s, i), arrived + NewArrival(s, i), entered + NewHolder(s, i), WokenAfter(s, i, woken))
  {
    if s.tasks[i] == Holding {
      ReleaseKeepsOrder(s, i, arrived, entered, woken);
    } else if s.tasks[i] == Idle {
      ArrivalKeepsOrder(s, i, arrived, entered, woken);
    } else {
      WakingKeepsOrder(s, i, arrived, entered, woken);
    }
  }

  /** As long as a schedule is polite the callers enter in the order they arrived. */
  lemma {:induction false} PoliteKeepsOrder(states: seq<Run>, turns: seq<nat>, n: nat, k: nat) returns (woken: seq<nat>)
    requires IsSchedule(states, turns, n) && k <= |turns| && forall j | 0 <= j < k :: PoliteAt(states, turns, j)
    ensures InOrder(states[k], Arrived(states, turns, k), Entered(states, turns, k), woken)
  {
    if k == 0 {
      woken := [];
    } else {
      var before := PoliteKeepsOrder(states, turns, n, k - 1);
      ScheduleKeeps(states, turns, n, k - 1);
      assert StepAt(states, turns, k - 1) && PoliteAt(states, turns, k - 1);
      PoliteStepKeepsOrder(states[k - 1], turns[k - 1], Arrived(states, turns, k - 1), Entered(states, turns, k - 1), before);
      woken := WokenAfter(states[k - 1], turns[k - 1], before);
    }
  }

  /** A caller that arrives in the gap takes the lock the other was woken for; the woken one, when it
      looks, goes to the end of the queue. */
  lemma ArrivalInTheGapOvertakes(s: Run, i: nat, w: nat)
    requires Inv(s) && !s.locked && i < |s.tasks| && w < |s.tasks| && s.tasks[i] == Idle && s.tasks[w] == Woken
    ensures CanStep(s, i)
    ensures var t := Step(s, i);
      && t.tasks[i] == Holding && t.tasks[w] == Woken && CanStep(t, w)
      && var u := Step(t, w);
         u.tasks[i] == Holding && u.tasks[w] == Waiting && u.queue == s.queue + [w]
  {
  }

  lemma {:induction false} OrdersGrow(states: seq<Run>, turns: seq<nat>, j: nat, k: nat)
    requires |states| == |turns| + 1 && j <= k <= |turns|
    ensures Arrived(states, turns, j) <= Arrived(states, turns, k)
    ensures Entered(states, turns, j) <= Entered(states, turns, k)
  {
    if j < k { OrdersGrow(states, turns, j, k - 1); }
  }

  lemma {:induction false} FirstRudeTurn(states: seq<Run>, turns: seq<nat>, m: nat) returns (k: nat)
    requires |states| == |turns| + 1 && m < |turns| && !PoliteAt(states, turns, m)
    ensures k <= m && !PoliteAt(states, turns, k) && forall j | 0 <= j < k :: PoliteAt(states, turns, j)
  {
    if j: nat :| j < m && !PoliteAt(states, turns, j) {
      k := FirstRudeTurn(states, turns, j);
    } else {
      k := m;
    }
  }

  /** The first arrival in a gap enters before a caller that arrived earlier. */
  lemma RudeTurnBreaksOrder(states: seq<Run>, turns: seq<nat>, n: nat, k: nat) returns (p: nat)
    requires IsSchedule(states, turns, n) && k < |turns| && !PoliteAt(states, turns, k)
    requires forall j | 0 <= j < k :: PoliteAt(states, turns, j)
    ensures p < |Entered(states, turns, k + 1)| && p < |Arrived(states, turns, k + 1)|
    ensures Entered(states, turns, k + 1)[p] != Arrived(states, turns, k + 1)[p]
  {
    var woken := PoliteKeepsOrder(states, turns, n, k);
    var s, i := states[k], turns[k];
    assert StepAt(states, turns, k);
    var a, e := Arrived(states, turns, k), Entered(states, turns, k);
    var w :| 0 <= w < |s.tasks| && s.tasks[w] == Woken;
    assert woken == [w] && w != i;
    assert Entered(states, turns, k + 1) == e + [i];
    assert Arrived(states, turns, k + 1)[|e|] == w;
    p := |e|;
  }

  /** The mutex is first come, first served in exactly the polite schedules: callers enter in the
      order of their first turn if and only if nobody arrives while somebody is woken. */
  lemma FirstComeFirstServedIff(states: seq<Run>, turns: seq<nat>, n: nat)
    requires IsSchedule(states, turns, n)
    ensures Polite(states, turns) <==> Entered(states, turns, |turns|) <= Arrived(states, turns, |turns|)
  {
    if Polite(states, turns) {
      var woken := PoliteKeepsOrder(states, turns, n, |turns|);
    } else {
      var m :| 0 <= m < |turns| && !PoliteAt(states, turns, m);
      var k := FirstRudeTurn(states, turns, m);
      var p := RudeTurnBreaksOrder(states, turns, n, k);
      OrdersGrow(states, turns, k + 1, |turns|);
      assert Entered(states, turns, |turns|)[p] != Arrived(states, turns, |turns|)[p];
    }
  }
}
