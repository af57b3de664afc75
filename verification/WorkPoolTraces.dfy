/** The work pool's jobs and workers, told from the steps of the run. */
module WorkPoolTraces {
  import opened Common
  import opened WorkPool
  import opened WorkPoolRuns

  /** The jobs a run pushes, in order */
  function PushedIn(run: seq<Step>): seq<Job> {
    if run == [] then [] else PushedAt(run[0]) + PushedIn(run[1..])
  }

  function PushedAt(a: Step): seq<Job> {
    match a
    case PushOne(j, _) => [j]
    case PushMany(js) => js
    case _ => []
  }

  /** The jobs workers take in a run, and those they execute */
  function TakenIn(s: State, run: seq<Step>): seq<Job>
    requires Legal(s, run)
    decreases |run|
  {
    if run == [] then [] else TakenAt(s, run[0]) + TakenIn(Apply(s, run[0]), run[1..])
  }

  function TakenAt(s: State, a: Step): seq<Job>
    requires Enabled(s, a)
  {
    if a.Take? then s.pool.jobq[..a.n] else []
  }

  function ExecutedIn(s: State, run: seq<Step>): seq<Job>
    requires Legal(s, run)
    decreases |run|
  {
    if run == [] then [] else ExecutedAt(s, run[0]) + ExecutedIn(Apply(s, run[0]), run[1..])
  }

  function ExecutedAt(s: State, a: Step): seq<Job>
    requires Enabled(s, a)
  {
    if a.Execute? then s.pool.workers[a.w].jobs else []
  }

  // ---- The recorded jobs are those of the steps

  lemma StepJobs(s: State, a: Step)
    requires Enabled(s, a)
    ensures var n := Apply(s, a);
            && n.past.pushed == s.past.pushed + PushedAt(a)
            && n.past.popped == s.past.popped + TakenAt(s, a)
            && n.past.executed == s.past.executed + ExecutedAt(s, a)
  {
  }

  lemma {:induction false} RunPushed(s: State, run: seq<Step>)
    requires Legal(s, run)
    ensures After(s, run).past.pushed == s.past.pushed + PushedIn(run)
    decreases |run|
  {
    if run != [] {
      StepJobs(s, run[0]);
      RunPushed(Apply(s, run[0]), run[1..]);
      Regroup(s.past.pushed, PushedAt(run[0]), PushedIn(run[1..]));
    }
  }

  lemma {:induction false} RunTaken(s: State, run: seq<Step>)
    requires Legal(s, run)
    ensures After(s, run).past.popped == s.past.popped + TakenIn(s, run)
    decreases |run|
  {
    if run != [] {
      StepJobs(s, run[0]);
      RunTaken(Apply(s, run[0]), run[1..]);
      Regroup(s.past.popped, TakenAt(s, run[0]), TakenIn(Apply(s, run[0]), run[1..]));
    }
  }

  lemma {:induction false} RunExecuted(s: State, run: seq<Step>)
    requires Legal(s, run)
    ensures After(s, run).past.executed == s.past.executed + ExecutedIn(s, run)
    decreases |run|
  {
    if run != [] {
      StepJobs(s, run[0]);
      RunExecuted(Apply(s, run[0]), run[1..]);
      Regroup(s.past.executed, ExecutedAt(s, run[0]), ExecutedIn(Apply(s, run[0]), run[1..]));
    }
  }

  lemma FromNothing(q: seq<Job>)
    ensures [] + q == q
  {
  }

  lemma Recorded(run: seq<Step>)
    requires Legal(INITIAL, run)
    ensures After(INITIAL, run).past.pushed == PushedIn(run)
    ensures After(INITIAL, run).past.popped == TakenIn(INITIAL, run)
    ensures After(INITIAL, run).past.executed == ExecutedIn(INITIAL, run)
  {
    RunPushed(INITIAL, run);
    RunTaken(INITIAL, run);
    RunExecuted(INITIAL, run);
    FromNothing(PushedIn(run));
    FromNothing(TakenIn(INITIAL, run));
    FromNothing(ExecutedIn(INITIAL, run));
  }

  /** In every run workers take the jobs in the order in which the run pushed them, and the jobs pushed are those
      queued, those held by workers and those executed: none lost, none twice. */
  lemma JobsFollowRun(run: seq<Step>)
    requires Legal(INITIAL, run)
    ensures var p := After(INITIAL, run).pool;
            && PushedIn(run) == TakenIn(INITIAL, run) + p.jobq
            && multiset(PushedIn(run)) == multiset(p.jobq) + Held(p.workers) + multiset(ExecutedIn(INITIAL, run))
  {
    Recorded(run);
    JobsConserved(run);
  }

  // ---- Stopping

  predicate Starts(run: seq<Step>) {
    exists k :: 0 <= k < |run| && run[k].Start?
  }

  predicate Ends(run: seq<Step>) {
    exists k :: 0 <= k < |run| && run[k].EndStop?
  }

  predicate Creates(run: seq<Step>) {
    exists k :: 0 <= k < |run| && run[k].Create?
  }

  lemma Head(run: seq<Step>)
    requires run != []
    ensures Ends(run) <==> run[0].EndStop? || Ends(run[1..])
    ensures Creates(run) <==> run[0].Create? || Creates(run[1..])
    ensures Starts(run) <==> run[0].Start? || Starts(run[1..])
  {
    if Starts(run) && !run[0].Start? {
      var k :| 0 <= k < |run| && run[k].Start?;
      assert run[1..][k - 1].Start?;
    }
    if Ends(run) && !run[0].EndStop? {
      var k :| 0 <= k < |run| && run[k].EndStop?;
      assert run[1..][k - 1].EndStop?;
    }
    if Creates(run) && !run[0].Create? {
      var k :| 0 <= k < |run| && run[k].Create?;
      assert run[1..][k - 1].Create?;
    }
  }

  lemma StoppingStep(s: State, a: Step)
    requires s.pool.life.Stopping? && Enabled(s, a) && !a.EndStop?
    ensures var n := Apply(s, a);
            n.pool.life.Stopping? && n.past.stopAt == s.past.stopAt && n.past.staffed == (s.past.staffed || a.Create?)
  {
  }

  lemma {:induction false} StoppingRun(s: State, run: seq<Step>)
    requires s.pool.life.Stopping? && Legal(s, run) && !Ends(run)
    ensures var n := After(s, run);
            && n.pool.life.Stopping? && n.past.stopAt == s.past.stopAt
            && n.past.staffed == (s.past.staffed || Creates(run))
    decreases |run|
  {
    if run != [] {
      Head(run);
      StoppingStep(s, run[0]);
      StoppingRun(Apply(s, run[0]), run[1..]);
    }
  }

  lemma {:induction false} LegalConcat(s: State, a: seq<Step>, b: seq<Step>)
    requires Legal(s, a + b)
    ensures Legal(s, a) && Legal(After(s, a), b) && After(s, a + b) == After(After(s, a), b)
    decreases |a|
  {
    if a == [] {
      assert a + b == b;
    } else {
      assert (a + b)[1..] == a[1..] + b;
      LegalConcat(Apply(s, a[0]), a[1..], b);
    }
  }

  function Stopping(pre: seq<Step>, post: seq<Step>): seq<Step> {
    pre + ([BeginStop] + post)
  }

  /** When the stop begins nothing is queued or a worker is in its loop, or a worker is created later. */
  predicate Staffed(p: Pool, post: seq<Step>) {
    p.jobq == [] || SomeAble(p.workers) || Creates(post)
  }

  lemma StopFrom(s: State, post: seq<Step>)
    requires s.pool.life.Running? && Legal(s, [BeginStop] + post) && !Ends(post)
    ensures var n := After(s, [BeginStop] + post);
            n.past.stopAt == |s.past.pushed| && n.past.staffed == Staffed(s.pool, post)
  {
    assert ([BeginStop] + post)[1..] == post;
    StoppingRun(Apply(s, BeginStop), post);
  }

  /** A run that begins to stop a running pool and in which a waiting stop is about to return: every job taken has been
      executed, once, and the jobs the run pushed before it began to stop are among them exactly if it was staffed. */
  lemma StopExecutesAll(pre: seq<Step>, post: seq<Step>)
    requires Legal(INITIAL, pre) && Legal(INITIAL, Stopping(pre, post)) && !Ends(post)
    requires After(INITIAL, pre).pool.life.Running? && Enabled(After(INITIAL, Stopping(pre, post)), EndStop)
    ensures var run := Stopping(pre, post);
            && multiset(ExecutedIn(INITIAL, run)) == multiset(TakenIn(INITIAL, run))
            && (PushedIn(pre) <= TakenIn(INITIAL, run) <==> Staffed(After(INITIAL, pre).pool, post))
  {
    var run := Stopping(pre, post);
    LegalConcat(INITIAL, pre, [BeginStop] + post);
    StopFrom(After(INITIAL, pre), post);
    StopReturnsAfterAllJobs(run, After(INITIAL, run));
    Recorded(run);
    Recorded(pre);
    PushedConcat(pre, [BeginStop] + post);
  }

  lemma {:induction false} PushedConcat(a: seq<Step>, b: seq<Step>)
    ensures PushedIn(a + b) == PushedIn(a) + PushedIn(b)
    ensures PushedIn(a + b)[..|PushedIn(a)|] == PushedIn(a)
    decreases |a|
  {
    if a == [] {
      assert a + b == b;
    } else {
      assert (a + b)[1..] == a[1..] + b;
      PushedConcat(a[1..], b);
      Regroup(PushedAt(a[0]), PushedIn(a[1..]), PushedIn(b));
    }
  }

  // ---- Who sleeps

  /** Whether worker `w` sleeps after a step: from its own step on until it is notified, by a push that picks it, by a
      push of many, when the pool begins to stop, or wakes by itself. */
  function NowSleeps(a: Step, w: nat, before: bool): bool {
    match a
    case Sleep(v) => v == w || before
    case Spurious(v) => v != w && before
    case PushOne(_, wake) => wake != Some(w) && before
    case PushMany(_) => false
    case BeginStop => false
    case EndStop => false
    case _ => before
  }

  function SleepsAfter(run: seq<Step>, w: nat, before: bool): bool {
    if run == [] then before else SleepsAfter(run[1..], w, NowSleeps(run[0], w, before))
  }

  predicate Sleeps(p: Pool, w: nat) {
    w < |p.workers| && p.workers[w].Asleep?
  }

  lemma StepSleeps(s: State, a: Step, w: nat)
    requires Enabled(s, a)
    ensures Sleeps(Apply(s, a).pool, w) == NowSleeps(a, w, Sleeps(s.pool, w))
  {
  }

  lemma {:induction false} RunSleeps(s: State, run: seq<Step>, w: nat)
    requires Legal(s, run)
    ensures Sleeps(After(s, run).pool, w) == SleepsAfter(run, w, Sleeps(s.pool, w))
    decreases |run|
  {
    if run != [] {
      StepSleeps(s, run[0], w);
      RunSleeps(Apply(s, run[0]), run[1..], w);
    }
  }

  /** In every run a worker sleeps exactly from going to sleep until it is notified or wakes by itself, and while it
      sleeps it takes no job. */
  lemma SleepsUntilNotified(run: seq<Step>, w: nat, n: nat)
    requires Legal(INITIAL, run)
    ensures Sleeps(After(INITIAL, run).pool, w) <==> SleepsAfter(run, w, false)
    ensures SleepsAfter(run, w, false) ==> !Enabled(After(INITIAL, run), Take(w, n))
  {
    RunSleeps(INITIAL, run, w);
  }

  // ---- The count of workers

  lemma {:induction false} StraysStay(s: State, run: seq<Step>)
    requires Legal(s, run) && !Starts(run)
    ensures After(s, run).past.strays == s.past.strays
    decreases |run|
  {
    if run != [] {
      Head(run);
      StraysKept(s, run[0]);
      StraysStay(Apply(s, run[0]), run[1..]);
    }
  }

  lemma StraysKept(s: State, a: Step)
    requires Enabled(s, a) && !a.Start?
    ensures Apply(s, a).past.strays == s.past.strays
  {
  }

  function Starting(pre: seq<Step>, post: seq<Step>): seq<Step> {
    pre + ([Start] + post)
  }

  /** From the last start of the pool on, the count is that of the workers there, less those that were there when the
      pool was started. */
  lemma CountFromStart(pre: seq<Step>, post: seq<Step>)
    requires Legal(INITIAL, pre) && Legal(INITIAL, Starting(pre, post)) && !Starts(post)
    ensures var p := After(INITIAL, Starting(pre, post)).pool;
            p.wkrcnt == There(p.workers) - There(After(INITIAL, pre).pool.workers)
  {
    LegalConcat(INITIAL, pre, [Start] + post);
    assert ([Start] + post)[1..] == post;
    var s := After(INITIAL, pre);
    StraysStay(Apply(s, Start), post);
    Reachable(Starting(pre, post), After(INITIAL, Starting(pre, post)));
  }
}
