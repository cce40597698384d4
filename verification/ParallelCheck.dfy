/** `checkParallel` as a machine: one goroutine per partition, a result channel, a timer and the shared
    kill flag. Results may arrive in any order and the timer may fire at any point. */
module ParallelCheck {
  import opened Linearizability

  datatype Worker = Running | Sent(result: bool) | Taken

  datatype Phase = Looping | Left

  datatype Verdict = Ok | Illegal | Unknown

  /** What is fixed for a run: the true answer of each partition, and the caller's options. */
  datatype Setup = Setup(truth: seq<bool>, computeInfo: bool, timeout: int)

  /** The setup for these partitions: a search's true answer is whether its partition is linearizable. */
  ghost function SetupFor<S(!new), V(!new)>(m: Model<S, V>, hs: seq<seq<Event<V>>>, computeInfo: bool,
                                            timeout: int): Setup
    requires forall i :: 0 <= i < |hs| ==> WellFormed(hs[i])
  {
    var truth := seq(|hs|, i requires 0 <= i < |hs| && WellFormed(hs[i]) => Linearizable(m, hs[i]));
    Setup(truth, computeInfo, timeout)
  }

  datatype State = State(workers: seq<Worker>, kill: bool, phase: Phase, ok: bool, timedOut: bool, count: nat)

  datatype Step = Finish(i: int, result: bool) | Receive(i: int) | TimerFires | Drain(i: int)

  function Begin(c: Setup): State {
    State(seq(|c.truth|, _ => Running), false, Looping, true, false, 0)
  }

  predicate Holds(s: State, i: int) {
    0 <= i < |s.workers| && s.workers[i].Sent?
  }

  /** A search that ends while the flag is down polled it only when it was down and answers truly; one
      that ends later may have given up, but never claims too much. */
  predicate Enabled(c: Setup, s: State, a: Step) {
    match a
    case Finish(i, r) => && 0 <= i < |s.workers| && |s.workers| == |c.truth| && s.workers[i] == Running
                         && (if s.kill then r ==> c.truth[i] else r == c.truth[i])
    case Receive(i) => s.phase == Looping && Holds(s, i)
    case TimerFires => s.phase == Looping && c.timeout > 0
    case Drain(i) => s.phase == Left && c.computeInfo && Holds(s, i)
  }

  function Take(c: Setup, s: State, i: int): State
    requires Holds(s, i)
  {
    var s1 := s.(workers := s.workers[i := Taken], count := s.count + 1, ok := s.ok && s.workers[i].result);
    if !s1.ok && !c.computeInfo then s1.(kill := true, phase := Left)
    else if s1.count >= |s1.workers| then s1.(phase := Left)
    else s1
  }

  function Next(c: Setup, s: State, a: Step): State
    requires Enabled(c, s, a)
  {
    match a
    case Finish(i, r) => s.(workers := s.workers[i := Sent(r)])
    case Receive(i) => Take(c, s, i)
    case TimerFires => s.(timedOut := true, kill := true, phase := Left)
    case Drain(i) => s.(workers := s.workers[i := Taken], count := s.count + 1)
  }

  function VerdictOf(s: State): Verdict {
    if !s.ok then Illegal else if s.timedOut then Unknown else Ok
  }

  /** The function returns: the loop was left and, when information is wanted, every result drained. */
  predicate Returned(c: Setup, s: State) {
    s.phase == Left && (c.computeInfo ==> s.count >= |s.workers|)
  }

  ghost predicate IsRun(c: Setup, states: seq<State>, steps: seq<Step>) {
    && |states| == |steps| + 1 && states[0] == Begin(c)
    && forall k {:trigger RunStep(c, states, steps, k)} :: 0 <= k < |steps| ==> RunStep(c, states, steps, k)
  }

  ghost predicate RunStep(c: Setup, states: seq<State>, steps: seq<Step>, k: int)
    requires 0 <= k < |steps| < |states|
  {
    Enabled(c, states[k], steps[k]) && states[k + 1] == Next(c, states[k], steps[k])
  }

  function Count(ws: seq<Worker>): nat {
    if ws == [] then 0 else Count(ws[..|ws| - 1]) + (if ws[|ws| - 1] == Taken then 1 else 0)
  }

  lemma {:induction false} CountTake(ws: seq<Worker>, i: int, w: Worker)
    requires 0 <= i < |ws| && ws[i] != Taken
    ensures Count(ws[i := w]) == Count(ws) + (if w == Taken then 1 else 0)
    decreases |ws|
  {
    var n := |ws| - 1;
    if i < n {
      CountTake(ws[..n], i, w);
      assert ws[i := w][..n] == ws[..n][i := w];
    } else {
      assert ws[i := w][..n] == ws[..n];
    }
  }

  lemma {:induction false} CountFull(ws: seq<Worker>)
    ensures Count(ws) <= |ws|
    ensures Count(ws) == |ws| ==> forall i :: 0 <= i < |ws| ==> ws[i] == Taken
    decreases |ws|
  {
    if ws != [] {
      CountFull(ws[..|ws| - 1]);
    }
  }

  lemma {:induction false} CountNone(n: nat)
    ensures Count(seq(n, _ => Running)) == 0
  {
    if n > 0 {
      CountNone(n - 1);
      assert seq(n, _ => Running)[..n - 1] == seq(n - 1, _ => Running);
    }
  }

  /** While the loop runs the flag is down, results are true answers and ok says whether all answers
      received so far are positive; leaving the loop freezes that. */
  ghost predicate Inv(c: Setup, s: State) {
    && |s.workers| == |c.truth| && s.count == Count(s.workers)
    && (s.kill ==> s.phase == Left) && (s.kill <==> s.timedOut || (!s.ok && !c.computeInfo))
    && (s.phase == Looping ==>
          && !s.timedOut && (!c.computeInfo ==> s.ok)
          && (|s.workers| > 0 ==> s.count < |s.workers|)
          && (forall i :: 0 <= i < |s.workers| && s.workers[i].Sent? ==> s.workers[i].result == c.truth[i]))
    && (s.timedOut ==> c.timeout > 0)
    && (!s.ok ==> exists i :: 0 <= i < |c.truth| && !c.truth[i])
    && (s.ok && (s.phase == Looping || !s.timedOut) ==>
          forall i :: 0 <= i < |s.workers| && s.workers[i] == Taken ==> c.truth[i])
    && (s.phase == Left && s.ok && !s.timedOut ==> s.count == |s.workers|)
  }

  lemma NextKeepsInv(c: Setup, s: State, a: Step)
    requires Inv(c, s) && Enabled(c, s, a)
    ensures Inv(c, Next(c, s, a))
  {
    match a
    case Finish(i, r) => CountTake(s.workers, i, Sent(r));
    case Receive(i) =>
      CountTake(s.workers, i, Taken);
      CountFull(s.workers[i := Taken]);
    case TimerFires =>
    case Drain(i) =>
      CountTake(s.workers, i, Taken);
      CountFull(s.workers[i := Taken]);
  }

  lemma {:induction false} RunKeepsInv(c: Setup, states: seq<State>, steps: seq<Step>, k: nat)
    requires IsRun(c, states, steps) && k < |states|
    ensures Inv(c, states[k])
  {
    if k == 0 {
      CountNone(|c.truth|);
    } else {
      RunKeepsInv(c, states, steps, k - 1);
      assert RunStep(c, states, steps, k - 1);
      NextKeepsInv(c, states[k - 1], steps[k - 1]);
    }
  }

  /** Step j reads a false answer in the loop. */
  ghost predicate ReadsFalse(c: Setup, steps: seq<Step>, j: int) {
    0 <= j < |steps| && steps[j].Receive? && 0 <= steps[j].i < |c.truth| && !c.truth[steps[j].i]
  }

  ghost predicate Times(steps: seq<Step>, j: int) {
    0 <= j < |steps| && steps[j].TimerFires?
  }

  /** What has happened decides the state: ok is lost exactly by reading a false answer, timedOut is set
      exactly by the timer. */
  lemma {:induction false} RunDecides(c: Setup, states: seq<State>, steps: seq<Step>, k: nat)
    requires IsRun(c, states, steps) && k < |states|
    ensures !states[k].ok <==> exists j :: j < k && ReadsFalse(c, steps, j)
    ensures states[k].timedOut <==> exists j :: j < k && Times(steps, j)
  {
    if k > 0 {
      RunDecides(c, states, steps, k - 1);
      RunKeepsInv(c, states, steps, k - 1);
      assert RunStep(c, states, steps, k - 1);
      var s, s' := states[k - 1], states[k];
      assert s'.ok == (s.ok && !ReadsFalse(c, steps, k - 1));
      assert s'.timedOut == (s.timedOut || Times(steps, k - 1));
    }
  }

  /** A search is told to stop exactly when its answer can no longer matter. */
  lemma KillMeansDone(c: Setup, states: seq<State>, steps: seq<Step>, k: nat)
    requires IsRun(c, states, steps) && k < |states|
    ensures states[k].kill <==> || (exists j :: j < k && Times(steps, j))
                                || (!c.computeInfo && exists j :: j < k && ReadsFalse(c, steps, j))
    ensures states[k].kill ==> states[k].phase == Left
  {
    RunKeepsInv(c, states, steps, k);
    RunDecides(c, states, steps, k);
  }

  lemma VerdictOnTruth(c: Setup, states: seq<State>, steps: seq<Step>, k: nat)
    requires IsRun(c, states, steps) && k < |states| && states[k].phase == Left
    ensures VerdictOf(states[k]) == Ok ==> forall i :: 0 <= i < |c.truth| ==> c.truth[i]
    ensures VerdictOf(states[k]) == Illegal ==> exists i :: 0 <= i < |c.truth| && !c.truth[i]
    ensures VerdictOf(states[k]) == Unknown ==> c.timeout > 0 && states[k].timedOut
  {
    RunKeepsInv(c, states, steps, k);
    CountFull(states[k].workers);
  }

  /** Whatever the arrival order and whenever the timer fires: Ok means every partition is linearizable,
      Illegal is reported exactly if the loop read the answer of a partition that is not, and Unknown exactly
      if it read none and the timer fired. */
  lemma VerdictIsSound<S(!new), V(!new)>(m: Model<S, V>, hs: seq<seq<Event<V>>>, computeInfo: bool, timeout: int,
                                         states: seq<State>, steps: seq<Step>, k: nat)
    requires forall i :: 0 <= i < |hs| ==> WellFormed(hs[i])
    requires IsRun(SetupFor(m, hs, computeInfo, timeout), states, steps) && k < |states| && states[k].phase == Left
    ensures VerdictOf(states[k]) == Ok ==> forall i :: 0 <= i < |hs| ==> Linearizable(m, hs[i])
    ensures VerdictOf(states[k]) == Illegal <==> exists j :: j < k && ReadsRefuted(m, hs, steps, j)
    ensures VerdictOf(states[k]) == Unknown <==> VerdictOf(states[k]) != Illegal && exists j :: j < k && Times(steps, j)
    ensures VerdictOf(states[k]) == Unknown ==> timeout > 0
  {
    hide WellFormed, Linearizable, IsRun;
    var c := SetupFor(m, hs, computeInfo, timeout);
    VerdictOnTruth(c, states, steps, k);
    RunDecides(c, states, steps, k);
    assert forall i :: 0 <= i < |hs| ==> c.truth[i] == Linearizable(m, hs[i]);
    assert forall j :: ReadsFalse(c, steps, j) <==> ReadsRefuted(m, hs, steps, j);
  }

  /** Step j reads the answer of a partition that is not linearizable. */
  ghost predicate ReadsRefuted<S(!new), V(!new)>(m: Model<S, V>, hs: seq<seq<Event<V>>>, steps: seq<Step>, j: int)
    requires forall i :: 0 <= i < |hs| ==> WellFormed(hs[i])
  {
    && 0 <= j < |steps| && steps[j].Receive?
    && 0 <= steps[j].i < |hs| && !Linearizable(m, hs[steps[j].i])
  }

  /** Without a timeout the verdict says exactly whether all partitions are linearizable. */
  lemma VerdictIsExact<S(!new), V(!new)>(m: Model<S, V>, hs: seq<seq<Event<V>>>, computeInfo: bool, timeout: int,
                                         states: seq<State>, steps: seq<Step>, k: nat)
    requires (forall i :: 0 <= i < |hs| ==> WellFormed(hs[i])) && timeout <= 0
    requires IsRun(SetupFor(m, hs, computeInfo, timeout), states, steps) && k < |states| && states[k].phase == Left
    ensures VerdictOf(states[k]) == Ok <==> forall i :: 0 <= i < |hs| ==> Linearizable(m, hs[i])
    ensures VerdictOf(states[k]) != Unknown
  {
    hide WellFormed, Linearizable, IsRun;
    VerdictIsSound(m, hs, computeInfo, timeout, states, steps, k);
    VerdictOnTruth(SetupFor(m, hs, computeInfo, timeout), states, steps, k);
  }

  // ----- does it return -----

  function Pending(ws: seq<Worker>): nat {
    if ws == [] then 0
    else Pending(ws[..|ws| - 1]) + (match ws[|ws| - 1] case Running => 2 case Sent(_) => 1 case Taken => 0)
  }

  lemma {:induction false} PendingDrops(ws: seq<Worker>, i: int, w: Worker)
    requires 0 <= i < |ws| && ((ws[i] == Running && w.Sent?) || (ws[i].Sent? && w == Taken))
    ensures Pending(ws[i := w]) == Pending(ws) - 1
    decreases |ws|
  {
    var n := |ws| - 1;
    if i < n {
      PendingDrops(ws[..n], i, w);
      assert ws[i := w][..n] == ws[..n][i := w];
    } else {
      assert ws[i := w][..n] == ws[..n];
    }
  }

  ghost function Measure(s: State): nat {
    Pending(s.workers) + (if s.phase == Looping then 1 else 0)
  }

  /** No run goes on forever. */
  lemma EveryStepShrinks(c: Setup, s: State, a: Step)
    requires Enabled(c, s, a)
    ensures Measure(Next(c, s, a)) < Measure(s)
  {
    match a
    case Finish(i, r) => PendingDrops(s.workers, i, Sent(r));
    case Receive(i) => PendingDrops(s.workers, i, Taken);
    case TimerFires =>
    case Drain(i) => PendingDrops(s.workers, i, Taken);
  }

  lemma {:induction false} SomeoneLeft(ws: seq<Worker>) returns (i: int)
    requires Count(ws) < |ws|
    ensures 0 <= i < |ws| && ws[i] != Taken
    decreases |ws|
  {
    var n := |ws| - 1;
    if ws[n] != Taken {
      i := n;
    } else {
      i := SomeoneLeft(ws[..n]);
    }
  }

  lemma FindMove(c: Setup, s: State) returns (a: Step)
    requires Inv(c, s) && !Returned(c, s) && (|c.truth| > 0 || c.timeout > 0)
    ensures Enabled(c, s, a)
  {
    if |c.truth| == 0 {
      a := TimerFires;
    } else {
      CountFull(s.workers);
      var i := SomeoneLeft(s.workers);
      if s.workers[i] == Running {
        a := Finish(i, c.truth[i]);
      } else if s.phase == Looping {
        a := Receive(i);
      } else {
        a := Drain(i);
      }
    }
  }

  /** A reachable state that has not returned can move exactly when there is a partition or a timer:
      with neither, the loop waits for a result that never comes. */
  lemma MovesUnlessNothingArrives(c: Setup, states: seq<State>, steps: seq<Step>, k: nat)
    requires IsRun(c, states, steps) && k < |states| && !Returned(c, states[k])
    ensures (exists a :: Enabled(c, states[k], a)) <==> |c.truth| > 0 || c.timeout > 0
  {
    RunKeepsInv(c, states, steps, k);
    if |c.truth| > 0 || c.timeout > 0 {
      var a := FindMove(c, states[k]);
    }
  }
}
