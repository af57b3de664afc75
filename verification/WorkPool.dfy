/**
 The work pool as steps under its mutex: any threads push jobs, start and stop the pool, and its workers pop
 and execute, in any interleaving. The controller admits every worker.
 */
module WorkPool {
  import opened Common

  type Job = nat

  datatype Life = Running | Stopping | Stopped

  /** Where a worker's thread is: created, in its loop, asleep on the signal, woken, with jobs it took, out of
      its loop, or gone */
  datatype Worker = Created | Looping | Asleep | Woken | Holding(jobs: seq<Job>) | Leaving | Gone

  datatype Pool = Pool(life: Life, jobq: seq<Job>, wkrcnt: int, workers: seq<Worker>)

  /** What happened so far: the jobs pushed, popped and executed, in order; how many had been pushed when the
      pool began to stop, and whether somebody was there then, or came later, to work; how many workers had been
      created when the pool was started, and how many of them were still there */
  datatype History = History(pushed: seq<Job>, popped: seq<Job>, executed: seq<Job>, stopAt: nat, staffed: bool,
                             base: nat, strays: nat)

  datatype State = State(pool: Pool, past: History)

  datatype Step =
    | Start
    | Create
    | PushOne(job: Job, wake: Option<nat>)
    | PushMany(jobs: seq<Job>)
    | Enter(w: nat)
    | Sleep(w: nat)
    | Spurious(w: nat)
    | Take(w: nat, n: nat)
    | GiveUp(w: nat)
    | Execute(w: nat)
    | Leave(w: nat)
    | BeginStop
    | EndStop

  predicate IsWorker(p: Pool, w: nat, phase: Worker) {
    w < |p.workers| && p.workers[w] == phase
  }

  /** In pop, with the mutex: from the loop, or awake again after waiting */
  predicate Popping(p: Pool, w: nat) {
    w < |p.workers| && (p.workers[w].Looping? || p.workers[w].Woken?)
  }

  predicate Enabled(s: State, a: Step) {
    var p := s.pool;
    match a
    case Start => p.life.Stopped?
    case Create => true
    case PushOne(_, wake) => NotifiesOne(p, wake)
    case PushMany(_) => true
    case Enter(w) => IsWorker(p, w, Created)
    case Sleep(w) => Popping(p, w) && p.jobq == [] && p.life.Running?
    case Spurious(w) => IsWorker(p, w, Asleep)
    case Take(w, n) => Popping(p, w) && 1 <= n <= |p.jobq|
    case GiveUp(w) => Popping(p, w) && p.jobq == [] && !p.life.Running?
    case Execute(w) => w < |p.workers| && p.workers[w].Holding?
    case Leave(w) => IsWorker(p, w, Leaving)
    case BeginStop => !p.life.Stopped?
    case EndStop => p.life.Stopping? && p.wkrcnt == 0 && There(p.workers) == 0
  }

  /** notify_one wakes a sleeping worker if there is one. */
  predicate NotifiesOne(p: Pool, wake: Option<nat>) {
    match wake
    case Some(w) => IsWorker(p, w, Asleep)
    case None => forall w :: 0 <= w < |p.workers| ==> !p.workers[w].Asleep?
  }

  function Set(p: Pool, w: nat, phase: Worker): Pool
    requires w < |p.workers|
  {
    p.(workers := p.workers[w := phase])
  }

  function AllWoken(ws: seq<Worker>): (r: seq<Worker>)
    ensures |r| == |ws| && forall i :: 0 <= i < |ws| ==> r[i] == if ws[i].Asleep? then Woken else ws[i]
  {
    seq(|ws|, i requires 0 <= i < |ws| => if ws[i].Asleep? then Woken else ws[i])
  }

  function Apply(s: State, a: Step): State
    requires Enabled(s, a)
  {
    var p, h := s.pool, s.past;
    match a
    case Start => State(p.(life := Running, wkrcnt := 0), h.(base := |p.workers|, strays := There(p.workers)))
    case Create => State(p.(wkrcnt := p.wkrcnt + 1, workers := p.workers + [Created]), h.(staffed := true))
    case PushOne(j, wake) =>
      var q := p.(jobq := p.jobq + [j]);
      State(if wake.Some? then Set(q, wake.value, Woken) else q, h.(pushed := h.pushed + [j]))
    case PushMany(js) =>
      State(p.(jobq := p.jobq + js, workers := AllWoken(p.workers)), h.(pushed := h.pushed + js))
    case Enter(w) => s.(pool := Set(p, w, Looping))
    case Sleep(w) => s.(pool := Set(p, w, Asleep))
    case Spurious(w) => s.(pool := Set(p, w, Woken))
    case Take(w, n) =>
      State(Set(p, w, Holding(p.jobq[..n])).(jobq := p.jobq[n..]), h.(popped := h.popped + p.jobq[..n]))
    case GiveUp(w) => s.(pool := Set(p, w, Leaving))
    case Execute(w) => State(Set(p, w, Looping), h.(executed := h.executed + p.workers[w].jobs))
    case Leave(w) => s.(pool := Set(p, w, Gone).(wkrcnt := p.wkrcnt - 1))
    case BeginStop =>
      State(p.(life := Stopping, workers := AllWoken(p.workers)),
            if p.life.Running? then h.(stopAt := |h.pushed|, staffed := SomeAble(p.workers) || p.jobq == []) else h)
    case EndStop => State(p.(life := Stopped, workers := []), h.(base := 0))
  }

  const INITIAL: State := State(Pool(Stopped, [], 0, []), History([], [], [], 0, true, 0, 0))

  predicate Legal(s: State, run: seq<Step>)
    decreases |run|
  {
    run == [] || (Enabled(s, run[0]) && Legal(Apply(s, run[0]), run[1..]))
  }

  function After(s: State, run: seq<Step>): State
    requires Legal(s, run)
    decreases |run|
  {
    if run == [] then s else After(Apply(s, run[0]), run[1..])
  }

  // ---- Counting over the workers

  function JobsOf(w: Worker): multiset<Job> {
    if w.Holding? then multiset(w.jobs) else multiset{}
  }

  function Held(ws: seq<Worker>): multiset<Job> {
    if ws == [] then multiset{} else JobsOf(ws[0]) + Held(ws[1..])
  }

  function There(ws: seq<Worker>): nat {
    if ws == [] then 0 else (if ws[0].Gone? then 0 else 1) + There(ws[1..])
  }

  lemma Alongside(x: multiset<Job>, h1: multiset<Job>, j1: multiset<Job>, h2: multiset<Job>, j2: multiset<Job>)
    requires h1 + j1 == h2 + j2
    ensures (x + h1) + j1 == (x + h2) + j2
  {
    assert (x + h1) + j1 == x + (h1 + j1);
    assert (x + h2) + j2 == x + (h2 + j2);
  }

  lemma {:induction false} SetHeld(ws: seq<Worker>, w: nat, phase: Worker)
    requires w < |ws|
    ensures Held(ws[w := phase]) + JobsOf(ws[w]) == Held(ws) + JobsOf(phase)
    decreases |ws|
  {
    if w == 0 {
      assert ws[w := phase][1..] == ws[1..];
    } else {
      assert ws[w := phase][1..] == ws[1..][w - 1 := phase];
      SetHeld(ws[1..], w - 1, phase);
      Alongside(JobsOf(ws[0]), Held(ws[1..][w - 1 := phase]), JobsOf(ws[w]), Held(ws[1..]), JobsOf(phase));
    }
  }

  lemma {:induction false} SetThere(ws: seq<Worker>, w: nat, phase: Worker)
    requires w < |ws|
    ensures There(ws[w := phase]) + (if ws[w].Gone? then 0 else 1) == There(ws) + (if phase.Gone? then 0 else 1)
    decreases |ws|
  {
    if w == 0 {
      assert ws[w := phase][1..] == ws[1..];
    } else {
      assert ws[w := phase][1..] == ws[1..][w - 1 := phase];
      SetThere(ws[1..], w - 1, phase);
    }
  }

  lemma {:induction false} AddCounts(ws: seq<Worker>)
    ensures Held(ws + [Created]) == Held(ws) && There(ws + [Created]) == There(ws) + 1
    decreases |ws|
  {
    if ws == [] {
      assert ws + [Created] == [Created] && [Created][1..] == [];
      assert Held([Created]) == multiset{} && There([Created]) == 1;
    } else {
      assert (ws + [Created])[1..] == ws[1..] + [Created];
      AddCounts(ws[1..]);
    }
  }

  lemma {:induction false} WokenCounts(ws: seq<Worker>)
    ensures Held(AllWoken(ws)) == Held(ws) && There(AllWoken(ws)) == There(ws)
    decreases |ws|
  {
    if ws != [] {
      assert AllWoken(ws)[1..] == AllWoken(ws[1..]);
      WokenCounts(ws[1..]);
    }
  }

  lemma {:induction false} NobodyThere(ws: seq<Worker>, w: nat)
    requires There(ws) == 0 && w < |ws|
    ensures ws[w].Gone? && Held(ws) == multiset{}
    decreases |ws|
  {
    if w > 0 { NobodyThere(ws[1..], w - 1); }
    if |ws| > 1 { NobodyThere(ws[1..], 0); }
  }

  // ---- The invariant

  /** Jobs come out in the order they went in, and each one popped is held by one worker or executed. */
  predicate Conserved(s: State) {
    && s.past.pushed == s.past.popped + s.pool.jobq
    && multiset(s.past.popped) == Held(s.pool.workers) + multiset(s.past.executed)
  }

  /** A worker that will look at the queue again */
  predicate Active(w: Worker) {
    w.Created? || w.Looping? || w.Woken? || w.Holding?
  }

  predicate SomeActive(ws: seq<Worker>) {
    exists w :: 0 <= w < |ws| && Active(ws[w])
  }

  /** A worker in its loop */
  predicate SomeAble(ws: seq<Worker>) {
    exists w :: 0 <= w < |ws| && (Active(ws[w]) || ws[w].Asleep?)
  }

  /** The count leaves out the workers that were there when the pool was started; a worker created later leaves its
      loop only after the pool began to stop. */
  predicate Phases(life: Life, cnt: int, ws: seq<Worker>, base: nat, strays: nat) {
    && cnt == There(ws) - strays
    && base <= |ws|
    && (life.Running? ==> forall w :: base <= w < |ws| ==> Active(ws[w]) || ws[w].Asleep?)
    && (!life.Running? ==> forall w :: 0 <= w < |ws| ==> !ws[w].Asleep?)
    && (strays == 0 ==> forall w :: 0 <= w < base ==> ws[w].Gone?)
  }

  predicate PhasesOf(s: State) {
    Phases(s.pool.life, s.pool.wkrcnt, s.pool.workers, s.past.base, s.past.strays)
  }

  /** Nobody sleeps while a job waits, unless another worker is on its way to it. */
  predicate Awake(p: Pool) {
    p.jobq != [] && (exists w :: 0 <= w < |p.workers| && p.workers[w].Asleep?) ==> SomeActive(p.workers)
  }

  /** While stopping: with staff, the jobs pushed before are popped or somebody is still there to pop them;
      without, nothing happens to them. */
  predicate StopKept(s: State) {
    s.pool.life.Stopping? ==>
      && s.past.stopAt <= |s.past.pushed|
      && (s.past.staffed ==> |s.past.popped| >= s.past.stopAt || SomeActive(s.pool.workers))
      && (!s.past.staffed ==> !SomeActive(s.pool.workers) && |s.past.popped| < s.past.stopAt)
  }

  predicate Inv(s: State) {
    Conserved(s) && PhasesOf(s) && Awake(s.pool) && StopKept(s)
  }
}
