/** What every run of the work pool keeps. */
module WorkPoolRuns {
  import opened Common
  import opened WorkPool

  lemma Cancel(a: multiset<Job>, b: multiset<Job>, j: multiset<Job>)
    requires a + j == b + j
    ensures a == b
  {
    assert a == (a + j) - j;
    assert b == (b + j) - j;
  }

  lemma MoveConserves(ws: seq<Worker>, w: nat, phase: Worker)
    requires w < |ws| && JobsOf(ws[w]) == JobsOf(phase)
    ensures Held(ws[w := phase]) == Held(ws)
  {
    SetHeld(ws, w, phase);
    Cancel(Held(ws[w := phase]), Held(ws), JobsOf(phase));
  }

  lemma Taken(popped: multiset<Job>, held: multiset<Job>, done: multiset<Job>, js: multiset<Job>, now: multiset<Job>)
    requires popped == held + done && now + multiset{} == held + js
    ensures popped + js == now + done
  {
    assert now == held + js;
    assert (held + done) + js == (held + js) + done;
  }

  lemma TakeConserves(s: State, w: nat, n: nat)
    requires Conserved(s) && Popping(s.pool, w) && 1 <= n <= |s.pool.jobq|
    ensures Conserved(Apply(s, Take(w, n)))
  {
    var q, h := s.pool.jobq, s.past;
    assert q == q[..n] + q[n..];
    Regroup(h.popped, q[..n], q[n..]);
    SetHeld(s.pool.workers, w, Holding(q[..n]));
    Taken(multiset(h.popped), Held(s.pool.workers), multiset(h.executed), multiset(q[..n]),
          Held(s.pool.workers[w := Holding(q[..n])]));
    assert multiset(h.popped + q[..n]) == multiset(h.popped) + multiset(q[..n]);
  }

  lemma Executed(popped: multiset<Job>, held: multiset<Job>, done: multiset<Job>, js: multiset<Job>, now: multiset<Job>)
    requires popped == held + done && now + js == held + multiset{}
    ensures popped == now + (done + js)
  {
    assert held == now + js;
    assert (now + js) + done == now + (done + js);
  }

  lemma LoopingHolds(ws: seq<Worker>, w: nat)
    requires w < |ws| && ws[w].Holding?
    ensures Held(ws[w := Looping]) + multiset(ws[w].jobs) == Held(ws) + multiset{}
  {
    SetHeld(ws, w, Looping);
  }

  lemma ExecuteConserves(s: State, w: nat)
    requires Conserved(s) && w < |s.pool.workers| && s.pool.workers[w].Holding?
    ensures Conserved(Apply(s, Execute(w)))
  {
    ExecuteState(s, w);
    JobsExecuted(s.past.popped, s.pool.workers, s.past.executed, w);
    ConservedWith(s, Apply(s, Execute(w)));
  }

  lemma ExecuteState(s: State, w: nat)
    requires w < |s.pool.workers| && s.pool.workers[w].Holding?
    ensures var t := Apply(s, Execute(w));
            && t.past.pushed == s.past.pushed && t.past.popped == s.past.popped && t.pool.jobq == s.pool.jobq
            && t.pool.workers == s.pool.workers[w := Looping]
            && t.past.executed == s.past.executed + s.pool.workers[w].jobs
  {
  }

  lemma ConservedWith(s: State, t: State)
    requires Conserved(s)
    requires t.past.pushed == s.past.pushed && t.past.popped == s.past.popped && t.pool.jobq == s.pool.jobq
    requires multiset(t.past.popped) == Held(t.pool.workers) + multiset(t.past.executed)
    ensures Conserved(t)
  {
  }

  lemma JobsExecuted(popped: seq<Job>, ws: seq<Worker>, done: seq<Job>, w: nat)
    requires multiset(popped) == Held(ws) + multiset(done) && w < |ws| && ws[w].Holding?
    ensures multiset(popped) == Held(ws[w := Looping]) + multiset(done + ws[w].jobs)
  {
    LoopingHolds(ws, w);
    Executed(multiset(popped), Held(ws), multiset(done), multiset(ws[w].jobs), Held(ws[w := Looping]));
  }

  lemma PushConserves(s: State, js: seq<Job>, ws: seq<Worker>)
    requires Conserved(s) && Held(ws) == Held(s.pool.workers)
    ensures Conserved(State(s.pool.(jobq := s.pool.jobq + js, workers := ws), s.past.(pushed := s.past.pushed + js)))
  {
    Regroup(s.past.popped, s.pool.jobq, js);
  }

  lemma StepConserves(s: State, a: Step)
    requires Inv(s) && Enabled(s, a)
    ensures Conserved(Apply(s, a))
  {
    var p := s.pool;
    match a
    case Start =>
    case Create => AddCounts(p.workers);
    case PushOne(j, wake) =>
      if wake.Some? {
        MoveConserves(p.workers, wake.value, Woken);
        PushConserves(s, [j], p.workers[wake.value := Woken]);
      } else { PushConserves(s, [j], p.workers); }
    case PushMany(js) =>
      WokenCounts(p.workers);
      PushConserves(s, js, AllWoken(p.workers));
    case Enter(w) => MoveConserves(p.workers, w, Looping);
    case Sleep(w) => MoveConserves(p.workers, w, Asleep);
    case Spurious(w) => MoveConserves(p.workers, w, Woken);
    case Take(w, n) => TakeConserves(s, w, n);
    case GiveUp(w) => MoveConserves(p.workers, w, Leaving);
    case Execute(w) => ExecuteConserves(s, w);
    case Leave(w) => MoveConserves(p.workers, w, Gone);
    case BeginStop => WokenCounts(p.workers);
    case EndStop => if p.workers != [] { NobodyThere(p.workers, 0); }
  }

  /** One worker's phase changes to one that this time of the pool's life allows. */
  lemma PhaseSet(life: Life, cnt: int, ws: seq<Worker>, base: nat, strays: nat, w: nat, phase: Worker)
    requires Phases(life, cnt, ws, base, strays) && w < |ws| && !ws[w].Gone? && !phase.Gone?
    requires if life.Running? then Active(phase) || phase.Asleep? else !phase.Asleep?
    ensures Phases(life, cnt, ws[w := phase], base, strays)
  {
    SetThere(ws, w, phase);
  }

  lemma StartPhases(life: Life, cnt: int, ws: seq<Worker>, base: nat, strays: nat)
    requires Phases(life, cnt, ws, base, strays)
    ensures Phases(Running, 0, ws, |ws|, There(ws))
  {
    if There(ws) == 0 {
      forall w | 0 <= w < |ws| ensures ws[w].Gone? { NobodyThere(ws, w); }
    }
  }

  lemma WokenPhases(life: Life, cnt: int, ws: seq<Worker>, base: nat, strays: nat, now: Life)
    requires Phases(life, cnt, ws, base, strays) && (now == life || now.Stopping?)
    ensures Phases(now, cnt, AllWoken(ws), base, strays)
  {
    WokenCounts(ws);
    AllWokenPhases(life, cnt, ws, base, strays, now, AllWoken(ws));
  }

  lemma AllWokenPhases(life: Life, cnt: int, ws: seq<Worker>, base: nat, strays: nat, now: Life, woken: seq<Worker>)
    requires Phases(life, cnt, ws, base, strays) && (now == life || now.Stopping?)
    requires |woken| == |ws| && There(woken) == There(ws)
    requires forall i :: 0 <= i < |ws| ==> woken[i] == if ws[i].Asleep? then Woken else ws[i]
    ensures Phases(now, cnt, woken, base, strays)
  {
  }

  lemma CreatePhases(life: Life, cnt: int, ws: seq<Worker>, base: nat, strays: nat)
    requires Phases(life, cnt, ws, base, strays)
    ensures Phases(life, cnt + 1, ws + [Created], base, strays)
  {
    AddCounts(ws);
  }

  lemma LeavePhases(life: Life, cnt: int, ws: seq<Worker>, base: nat, strays: nat, w: nat)
    requires Phases(life, cnt, ws, base, strays) && w < |ws| && ws[w].Leaving?
    ensures Phases(life, cnt - 1, ws[w := Gone], base, strays)
  {
    SetThere(ws, w, Gone);
  }

  lemma EndPhases(cnt: int, ws: seq<Worker>, base: nat, strays: nat)
    requires Phases(Stopping, cnt, ws, base, strays) && cnt == 0 && There(ws) == 0
    ensures Phases(Stopped, cnt, [], 0, strays)
  {
  }

  lemma StepKeepsPhases(s: State, a: Step)
    requires PhasesOf(s) && Enabled(s, a)
    ensures PhasesOf(Apply(s, a))
  {
    var l, c, ws, b, n := s.pool.life, s.pool.wkrcnt, s.pool.workers, s.past.base, s.past.strays;
    match a
    case Start => StartPhases(l, c, ws, b, n);
    case Create => CreatePhases(l, c, ws, b, n);
    case PushOne(j, wake) => if wake.Some? { PhaseSet(l, c, ws, b, n, wake.value, Woken); }
    case PushMany(js) => WokenPhases(l, c, ws, b, n, l);
    case Enter(w) => PhaseSet(l, c, ws, b, n, w, Looping);
    case Sleep(w) => PhaseSet(l, c, ws, b, n, w, Asleep);
    case Spurious(w) => PhaseSet(l, c, ws, b, n, w, Woken);
    case Take(w, k) => PhaseSet(l, c, ws, b, n, w, Holding(s.pool.jobq[..k]));
    case GiveUp(w) => PhaseSet(l, c, ws, b, n, w, Leaving);
    case Execute(w) => PhaseSet(l, c, ws, b, n, w, Looping);
    case Leave(w) => LeavePhases(l, c, ws, b, n, w);
    case BeginStop => WokenPhases(l, c, ws, b, n, Stopping);
    case EndStop => EndPhases(c, ws, b, n);
  }

  /** Who was active still is, if one worker's phase changes to an active one or another's changes. */
  lemma StillActive(ws: seq<Worker>, w: nat, phase: Worker)
    requires w < |ws| && SomeActive(ws) && (Active(ws[w]) ==> Active(phase))
    ensures SomeActive(ws[w := phase])
  {
    var k :| 0 <= k < |ws| && Active(ws[k]);
    assert Active(ws[w := phase][k]);
  }

  lemma NowActive(ws: seq<Worker>, w: nat, phase: Worker)
    requires w < |ws| && Active(phase)
    ensures SomeActive(ws[w := phase])
  {
    assert Active(ws[w := phase][w]);
  }

  lemma WokenActive(ws: seq<Worker>)
    requires SomeActive(ws)
    ensures SomeActive(AllWoken(ws))
  {
    var k :| 0 <= k < |ws| && Active(ws[k]);
    assert Active(AllWoken(ws)[k]);
  }

  lemma AddedActive(ws: seq<Worker>)
    ensures SomeActive(ws + [Created])
  {
    assert Active((ws + [Created])[|ws|]);
  }

  lemma StepKeepsAwake(s: State, a: Step)
    requires Inv(s) && Enabled(s, a)
    ensures Awake(Apply(s, a).pool)
  {
    var p := s.pool;
    match a
    case Create => AddedActive(p.workers);
    case PushOne(j, wake) => if wake.Some? { NowActive(p.workers, wake.value, Woken); }
    case Enter(w) => NowActive(p.workers, w, Looping);
    case Spurious(w) => NowActive(p.workers, w, Woken);
    case Take(w, n) => NowActive(p.workers, w, Holding(p.jobq[..n]));
    case Execute(w) => NowActive(p.workers, w, Looping);
    case Leave(w) => if SomeActive(p.workers) { StillActive(p.workers, w, Gone); }
    case _ =>
  }

  lemma MoveKeepsStop(s: State, w: nat, phase: Worker)
    requires StopKept(s) && w < |s.pool.workers| && Active(phase)
    requires s.pool.life.Stopping? ==> Active(s.pool.workers[w])
    ensures StopKept(s.(pool := Set(s.pool, w, phase)))
  {
    NowActive(s.pool.workers, w, phase);
  }

  lemma PushKeepsStop(s: State, js: seq<Job>, ws: seq<Worker>)
    requires StopKept(s) && (s.pool.life.Stopping? ==> (SomeActive(ws) <==> SomeActive(s.pool.workers)))
    ensures StopKept(State(s.pool.(jobq := s.pool.jobq + js, workers := ws), s.past.(pushed := s.past.pushed + js)))
  {
  }

  lemma PushOneKeepsStop(s: State, j: Job, wake: Option<nat>)
    requires StopKept(s) && PhasesOf(s) && NotifiesOne(s.pool, wake)
    ensures StopKept(Apply(s, PushOne(j, wake)))
  {
    if wake.Some? {
      PushKeepsStop(s, [j], s.pool.workers[wake.value := Woken]);
    } else {
      PushKeepsStop(s, [j], s.pool.workers);
    }
  }

  lemma PushManyKeepsStop(s: State, js: seq<Job>)
    requires StopKept(s) && PhasesOf(s)
    ensures StopKept(Apply(s, PushMany(js)))
  {
    var ws := s.pool.workers;
    if s.pool.life.Stopping? { assert AllWoken(ws) == ws; }
    PushKeepsStop(s, js, AllWoken(ws));
  }

  lemma TakeKeepsStop(s: State, w: nat, n: nat)
    requires StopKept(s) && Enabled(s, Take(w, n))
    ensures StopKept(Apply(s, Take(w, n)))
  {
    NowActive(s.pool.workers, w, Holding(s.pool.jobq[..n]));
    if s.pool.life.Stopping? { assert Active(s.pool.workers[w]); }
  }

  lemma GiveUpKeepsStop(s: State, w: nat)
    requires StopKept(s) && Conserved(s) && Enabled(s, GiveUp(w))
    ensures StopKept(Apply(s, GiveUp(w)))
  {
    assert s.past.pushed == s.past.popped;
    if s.pool.life.Stopping? { assert Active(s.pool.workers[w]); }
  }

  lemma LeaveKeepsStop(s: State, w: nat)
    requires StopKept(s) && Enabled(s, Leave(w))
    ensures StopKept(Apply(s, Leave(w)))
  {
    var ws := s.pool.workers;
    if SomeActive(ws) { StillActive(ws, w, Gone); }
    if SomeActive(ws[w := Gone]) {
      var k :| 0 <= k < |ws| && Active(ws[w := Gone][k]);
      assert Active(ws[k]);
    }
  }

  lemma StepKeepsStop(s: State, a: Step)
    requires Inv(s) && Enabled(s, a)
    ensures StopKept(Apply(s, a))
  {
    match a
    case Create => AddedActive(s.pool.workers);
    case PushOne(j, wake) => PushOneKeepsStop(s, j, wake);
    case PushMany(js) => PushManyKeepsStop(s, js);
    case Enter(w) => MoveKeepsStop(s, w, Looping);
    case Sleep(w) =>
    case Spurious(w) => MoveKeepsStop(s, w, Woken);
    case Take(w, n) => TakeKeepsStop(s, w, n);
    case Execute(w) => ExecuteKeepsStop(s, w);
    case GiveUp(w) => GiveUpKeepsStop(s, w);
    case Leave(w) => LeaveKeepsStop(s, w);
    case BeginStop => BeginKeepsStop(s);
    case Start =>
    case EndStop =>
  }

  lemma ExecuteKeepsStop(s: State, w: nat)
    requires StopKept(s) && Enabled(s, Execute(w))
    ensures StopKept(Apply(s, Execute(w)))
  {
    MoveKeepsStop(s, w, Looping);
  }

  lemma {:induction false} SomebodyThere(ws: seq<Worker>)
    requires There(ws) > 0
    ensures exists w :: 0 <= w < |ws| && !ws[w].Gone?
    decreases |ws|
  {
    if ws[0].Gone? {
      SomebodyThere(ws[1..]);
      var w :| 0 <= w < |ws[1..]| && !ws[1..][w].Gone?;
      assert !ws[w + 1].Gone?;
    }
  }

  lemma BeginKeepsStop(s: State)
    requires Inv(s) && !s.pool.life.Stopped?
    ensures StopKept(Apply(s, BeginStop))
  {
    var p := s.pool;
    if p.life.Running? && SomeAble(p.workers) {
      var w :| 0 <= w < |p.workers| && (Active(p.workers[w]) || p.workers[w].Asleep?);
      assert Active(AllWoken(p.workers)[w]);
    } else if p.life.Stopping? && SomeActive(p.workers) { WokenActive(p.workers); }
  }

  lemma StepKeepsInv(s: State, a: Step)
    requires Inv(s) && Enabled(s, a)
    ensures Inv(Apply(s, a))
  {
    StepConserves(s, a);
    StepKeepsPhases(s, a);
    StepKeepsAwake(s, a);
    StepKeepsStop(s, a);
  }

  lemma {:induction false} RunKeepsInv(s: State, run: seq<Step>)
    requires Inv(s) && Legal(s, run)
    ensures Inv(After(s, run))
    decreases |run|
  {
    if run != [] {
      StepKeepsInv(s, run[0]);
      RunKeepsInv(Apply(s, run[0]), run[1..]);
    }
  }

  lemma InitialInv()
    ensures Inv(INITIAL)
  {
    assert INITIAL.past.pushed == INITIAL.past.popped + INITIAL.pool.jobq;
  }

  lemma Reachable(run: seq<Step>, s: State)
    requires Legal(INITIAL, run) && s == After(INITIAL, run)
    ensures Inv(s)
  {
    InitialInv();
    RunKeepsInv(INITIAL, run);
  }

  // ---- The theorems

  /** In every run jobs are popped in the order they were pushed, and the jobs pushed are those queued, those
      held by workers and those executed. */
  lemma JobsConserved(run: seq<Step>)
    requires Legal(INITIAL, run)
    ensures var s := After(INITIAL, run);
            && s.past.pushed == s.past.popped + s.pool.jobq
            && multiset(s.past.pushed) == multiset(s.pool.jobq) + Held(s.pool.workers) + multiset(s.past.executed)
  {
    var s := After(INITIAL, run);
    Reachable(run, s);
    assert multiset(s.past.popped + s.pool.jobq) == multiset(s.past.popped) + multiset(s.pool.jobq);
  }

  /** In every run, when stop(true) is about to return: nobody holds a job, the jobs executed are exactly the
      jobs popped, each once, and every job pushed before the pool began to stop is among them exactly when
      there was a worker in its loop, or no job, then (or a worker was created later). It returns only if nobody was
      there when the pool was started. */
  lemma StopReturnsAfterAllJobs(run: seq<Step>, s: State)
    requires Legal(INITIAL, run) && s == After(INITIAL, run) && Enabled(s, EndStop)
    ensures Held(s.pool.workers) == multiset{} && multiset(s.past.executed) == multiset(s.past.popped)
    ensures s.past.popped <= s.past.pushed && s.past.stopAt <= |s.past.pushed|
    ensures s.past.pushed[..s.past.stopAt] <= s.past.popped <==> s.past.staffed
    ensures s.past.strays == 0
  {
    Reachable(run, s);
    var ws := s.pool.workers;
    if ws != [] { NobodyThere(ws, 0); }
    if SomeActive(ws) {
      var w :| 0 <= w < |ws| && Active(ws[w]);
      NobodyThere(ws, w);
    }
  }

  /** In every run no worker sleeps while a job waits, unless another is on its way to the queue, and none
      sleeps once the pool is stopping. */
  lemma NobodyOversleeps(run: seq<Step>, s: State, w: nat)
    requires Legal(INITIAL, run) && s == After(INITIAL, run) && w < |s.pool.workers| && s.pool.workers[w].Asleep?
    ensures s.pool.life.Running?
    ensures s.pool.jobq != [] ==> SomeActive(s.pool.workers)
  {
    Reachable(run, s);
  }

  /** With nobody there when the pool was started, somebody is in the loop exactly when the count is not zero. */
  lemma AbleIsCounted(run: seq<Step>, s: State)
    requires Legal(INITIAL, run) && s == After(INITIAL, run) && s.pool.life.Running? && s.past.strays == 0
    ensures SomeAble(s.pool.workers) <==> s.pool.wkrcnt > 0
  {
    Reachable(run, s);
    var ws := s.pool.workers;
    if s.pool.wkrcnt > 0 {
      SomebodyThere(ws);
      var w :| 0 <= w < |ws| && !ws[w].Gone?;
    } else if SomeAble(ws) {
      var w :| 0 <= w < |ws| && (Active(ws[w]) || ws[w].Asleep?);
      NobodyThere(ws, w);
    }
  }

  /** The count is that of the workers there, less those that were there already when the pool was started. So
      exitWorker's assertion, not negative, holds exactly while at least as many are left as there were then: always
      if that was nobody. */
  lemma WorkerCountNotNegative(run: seq<Step>, s: State, w: nat)
    requires Legal(INITIAL, run) && s == After(INITIAL, run) && Enabled(s, Leave(w))
    ensures Apply(s, Leave(w)).pool.wkrcnt >= 0 <==> There(s.pool.workers) - 1 >= s.past.strays
    ensures s.past.strays == 0 ==> Apply(s, Leave(w)).pool.wkrcnt >= 0
  {
    Reachable(run, s);
    SetThere(s.pool.workers, w, Gone);
  }

  // ---- If somebody was there, the assertion can fail

  function Effort(w: Worker): nat {
    match w
    case Gone => 0
    case Leaving => 1
    case Looping => 2
    case Woken => 2
    case _ => 3
  }

  function Efforts(ws: seq<Worker>): nat {
    if ws == [] then 0 else Effort(ws[0]) + Efforts(ws[1..])
  }

  lemma {:induction false} SetEfforts(ws: seq<Worker>, w: nat, phase: Worker)
    requires w < |ws|
    ensures Efforts(ws[w := phase]) + Effort(ws[w]) == Efforts(ws) + Effort(phase)
    decreases |ws|
  {
    if w == 0 {
      assert ws[w := phase][1..] == ws[1..];
    } else {
      assert ws[w := phase][1..] == ws[1..][w - 1 := phase];
      SetEfforts(ws[1..], w - 1, phase);
    }
  }

  /** While the pool stops, a worker that is there can take a step on its way out. */
  lemma WayOut(s: State, w: nat) returns (a: Step)
    requires Inv(s) && s.pool.life.Stopping? && w < |s.pool.workers| && !s.pool.workers[w].Gone?
    ensures Enabled(s, a) && Apply(s, a).pool.life.Stopping? && Apply(s, a).past.strays == s.past.strays
    ensures var t := Apply(s, a).pool;
            |t.jobq| < |s.pool.jobq| || (t.jobq == s.pool.jobq && Efforts(t.workers) < Efforts(s.pool.workers))
  {
    var p := s.pool;
    match p.workers[w]
    case Created => a := Enter(w); SetEfforts(p.workers, w, Looping);
    case Holding(_) => a := Execute(w); SetEfforts(p.workers, w, Looping);
    case Leaving => a := Leave(w); SetEfforts(p.workers, w, Gone);
    case Looping => a := LastPop(s, w);
    case Woken => a := LastPop(s, w);
  }

  lemma LastPop(s: State, w: nat) returns (a: Step)
    requires s.pool.life.Stopping? && Popping(s.pool, w)
    ensures Enabled(s, a) && Apply(s, a).pool.life.Stopping? && Apply(s, a).past.strays == s.past.strays
    ensures var t := Apply(s, a).pool;
            |t.jobq| < |s.pool.jobq| || (t.jobq == s.pool.jobq && Efforts(t.workers) < Efforts(s.pool.workers))
  {
    if s.pool.jobq != [] { a := Take(w, 1); }
    else {
      a := GiveUp(w);
      SetEfforts(s.pool.workers, w, Leaving);
    }
  }

  lemma {:induction false} AllLeave(s: State) returns (run: seq<Step>)
    requires Inv(s) && s.pool.life.Stopping?
    ensures Legal(s, run) && After(s, run).pool.life.Stopping? && There(After(s, run).pool.workers) == 0
    ensures After(s, run).pool.wkrcnt + s.past.strays == 0
    decreases |s.pool.jobq|, Efforts(s.pool.workers)
  {
    if There(s.pool.workers) == 0 {
      run := [];
    } else {
      SomebodyThere(s.pool.workers);
      var w :| 0 <= w < |s.pool.workers| && !s.pool.workers[w].Gone?;
      var a := WayOut(s, w);
      StepKeepsInv(s, a);
      var rest := AllLeave(Apply(s, a));
      run := [a] + rest;
      assert run[1..] == rest;
    }
  }

  /** Whenever somebody was there when the pool was started, it can be stopped so that the count goes below zero: then
      exitWorker's assertion has failed, and stop(true) waits for a count of zero. */
  lemma StrayBreaksCount(before: seq<Step>, s: State) returns (run: seq<Step>)
    requires Legal(INITIAL, before) && s == After(INITIAL, before) && s.pool.life.Running? && s.past.strays > 0
    ensures Legal(s, run) && After(s, run).pool.wkrcnt < 0
  {
    Reachable(before, s);
    StepKeepsInv(s, BeginStop);
    var rest := AllLeave(Apply(s, BeginStop));
    run := [BeginStop] + rest;
    assert run[1..] == rest;
  }

  /** From every state of a stopping pool that was started with nobody there, some run lets stop(true) return. */
  lemma StopCanReturn(before: seq<Step>, s: State) returns (run: seq<Step>)
    requires Legal(INITIAL, before) && s == After(INITIAL, before) && s.pool.life.Stopping? && s.past.strays == 0
    ensures Legal(s, run) && Enabled(After(s, run), EndStop)
  {
    Reachable(before, s);
    run := AllLeave(s);
  }

  /** Such a start: a worker was created before it. */
  lemma CreatedBeforeStart()
    ensures Legal(INITIAL, [Create, Start])
    ensures var s := After(INITIAL, [Create, Start]); s.pool.life.Running? && s.past.strays == 1
  {
    var s1 := Apply(INITIAL, Create);
    assert s1.pool.workers == [Created] && There([Created]) == 1;
    assert [Create, Start][1..] == [Start] && [Start][1..] == [];
    assert Legal(s1, [Start]) && After(s1, [Start]) == Apply(s1, Start);
  }

  /** A pool stopped without workers leaves its jobs behind. */
  lemma StopWithoutWorkers()
    ensures var run := [Start, PushOne(5, None), BeginStop];
            && Legal(INITIAL, run)
            && Enabled(After(INITIAL, run), EndStop)
            && After(INITIAL, run).pool.jobq == [5] && After(INITIAL, run).past.executed == []
  {
    var s1 := Apply(INITIAL, Start);
    var s2 := Apply(s1, PushOne(5, None));
    var s3 := Apply(s2, BeginStop);
    var run := [Start, PushOne(5, None), BeginStop];
    assert run[1..] == [PushOne(5, None), BeginStop] && run[1..][1..] == [BeginStop] && [BeginStop][1..] == [];
    assert Legal(s2, [BeginStop]) && After(s2, [BeginStop]) == s3;
    assert Legal(s1, run[1..]) && After(s1, run[1..]) == s3;
    assert s3.pool.jobq == [5];
  }
}
