/** Graceful shutdown: after cancellation `Start` returns, and nothing dispatched is left behind. */
module Shutdown {
  import opened Tasks
  import opened Queue
  import opened Gauges
  import opened Custody
  import opened Handling

  /* ---------- a measure ---------- */

  function StarterRank(s: State): nat {
    match s.starter
    case Creating => |s.workers| + 3
    case Spawning(i) => Max(0, |s.workers| - i) + 2
    case Waiting => 1
    case _ => 0
  }

  function FetcherRank(f: Fetcher): nat {
    match f
    case Reading => 5 case Dispatching(_) => 4 case Checking => 3
    case Closing => 2 case Finishing => 1 case _ => 0
  }

  function Chores(s: State): nat {
    12 * |s.chan| + Pool(Remaining, s.workers)
  }

  /** A step of the consumer process itself, as opposed to producers, replays and the environment. */
  predicate Own(a: Action) {
    a.Boot? || a.Fetch? || a.Work?
  }

  /** Lexicographic descent of start-up, fetcher, rest of the batch and chores. */
  predicate Descends(s: State, t: State) {
    StarterRank(t) < StarterRank(s)
    || (StarterRank(t) == StarterRank(s) && (
          FetcherRank(t.fetcher) < FetcherRank(s.fetcher)
          || (FetcherRank(t.fetcher) == FetcherRank(s.fetcher) && (
                |Batch(t.fetcher)| < |Batch(s.fetcher)|
                || (|Batch(t.fetcher)| == |Batch(s.fetcher)| && Chores(t) < Chores(s))))))
  }

  lemma RemainingFalls(s: State, w: nat, a: WorkAction)
    requires WorkEnabled(s, w, a)
    ensures var t := WorkNext(s, w, a);
            12 * |t.chan| + RemainingOf(t.workers[w]) < 12 * |s.chan| + RemainingOf(s.workers[w])
  {
    if a.Publish? {
      RemainingPublish(s, w);
    }
  }

  lemma RemainingPublish(s: State, w: nat)
    requires WorkEnabled(s, w, Publish)
    ensures RemainingOf(PublishNext(s, w).workers[w]) < RemainingOf(s.workers[w])
  {
  }

  /** Once cancelled, every step of the process descends. */
  lemma OwnStepDescends(s: State, a: Action)
    requires Inv(s) && s.cancelled && Enabled(s, a) && Own(a)
    ensures Descends(s, Next(s, a)) && Next(s, a).cancelled
  {
    match a {
      case Boot(b) => BootDescends(s, b);
      case Fetch(f) => FetchDescends(s, f);
      case Work(w, x) => WorkDescends(s, w, x);
    }
  }

  lemma BootDescends(s: State, a: BootAction)
    requires BootEnabled(s, a)
    ensures Descends(s, BootNext(s, a))
  {
  }

  lemma FetchDescends(s: State, a: FetchAction)
    requires s.cancelled && FetchEnabled(s, a)
    ensures Descends(s, FetchNext(s, a))
  {
  }

  lemma WorkDescends(s: State, w: nat, a: WorkAction)
    requires WorkEnabled(s, w, a)
    ensures Descends(s, WorkNext(s, w, a))
  {
    var t := WorkNext(s, w, a);
    PoolMove(Remaining, s.workers, w, t.workers[w]);
    RemainingFalls(s, w, a);
  }

  /** The process stands where it stood. */
  ghost predicate SameProcess(s: State, t: State) {
    t.starter == s.starter && t.fetcher == s.fetcher && t.chan == s.chan && t.workers == s.workers
  }

  /** Producers, replays and key expiry can neither undo nor delay the shutdown. */
  lemma OtherStepKeeps(s: State, a: Action)
    requires s.cancelled && Enabled(s, a) && !Own(a)
    ensures SameProcess(s, Next(s, a)) && Next(s, a).cancelled
  {
  }

  /* ---------- progress ---------- */

  predicate Ended(s: State) {
    s.starter.Returned? || s.starter.Refused?
  }

  /** A step that worker `w` can take whatever the others do, if it is still running. */
  function WorkerCan(s: State, w: nat): WorkAction
    requires w < |s.workers|
  {
    match s.workers[w]
    case Working(_, _, pc) => (
      match pc
      case AtCheck => Check(Ok) case AtCall => Call case InCall => Answer(None)
      case AtRequeue => Add(Ok) case AtBury => Add(Ok) case _ => Publish)
    case Acking(_, _) => Ack(Ok)
    case _ => if s.chan == [] then Exit else Take
  }

  /** A step the fetcher can take after cancellation without waiting for a worker. */
  function FetcherCan(s: State): FetchAction {
    match s.fetcher
    case Reading => FRead(0, Err(false))
    case Dispatching(batch) => if batch == [] then FNext else FAbandon
    case Closing => FClose
    case Finishing => FDone
    case _ => FCheck
  }

  lemma {:induction false} SomeoneLive(ws: seq<Worker>) returns (w: nat)
    requires Pool(Alive, ws) > 0
    ensures w < |ws| && ws[w].Live()
  {
    if ws[0].Live() {
      w := 0;
    } else {
      var v := SomeoneLive(ws[1..]);
      w := v + 1;
    }
  }

  /**
   Deadlock freedom. After cancellation some step of the process is enabled until `Start` has
   returned, with any number of workers, a full channel and any number of panics.
  */
  lemma SomeStepEnabled(s: State) returns (a: Action)
    requires Inv(s) && s.cancelled && !Ended(s)
    ensures Own(a) && Enabled(s, a)
  {
    if s.starter.Creating? {
      a := Boot(CreateGroup(Ok));
    } else if s.starter.Spawning? {
      a := Boot(Spawn);
    } else if s.wg == 0 {
      a := Boot(Return);
    } else if !s.fetcher.Gone? {
      a := Fetch(FetcherCan(s));
    } else {
      var w := SomeoneLive(s.workers);
      if s.workers[w].Busy() {
        Held(s, w);
      } else if s.chan != [] {
        Head(s);
      }
      a := Work(w, WorkerCan(s, w));
    }
  }

  /* ---------- every endless run ---------- */

  ghost predicate StepAt(states: nat -> State, acts: nat -> Action, n: nat) {
    Enabled(states(n), acts(n)) && states(n + 1) == Next(states(n), acts(n))
  }

  /** An endless run, step by step. */
  ghost predicate Trace(states: nat -> State, acts: nat -> Action) {
    Inv(states(0)) && forall n: nat :: StepAt(states, acts, n)
  }

  lemma {:induction false} TraceInv(states: nat -> State, acts: nat -> Action, n: nat)
    requires Trace(states, acts)
    ensures Inv(states(n))
  {
    if n > 0 {
      TraceInv(states, acts, n - 1);
      assert StepAt(states, acts, n - 1);
      InvStep(states(n - 1), acts(n - 1));
    }
  }

  ghost predicate OwnAgain(acts: nat -> Action, n: nat) {
    exists m: nat :: n <= m && Own(acts(m))
  }

  /** The process is not starved: until `Start` has returned, it takes a step again and again. */
  ghost predicate Fair(states: nat -> State, acts: nat -> Action) {
    forall k: nat :: Ended(states(k)) || OwnAgain(acts, k)
  }

  /** The next step of the process finds it where it stood. */
  lemma NextOwn(states: nat -> State, acts: nat -> Action, n: nat) returns (k: nat)
    requires Trace(states, acts) && states(n).cancelled && OwnAgain(acts, n)
    ensures n <= k && Own(acts(k)) && states(k).cancelled && SameProcess(states(n), states(k))
  {
    var m: nat :| n <= m && Own(acts(m));
    k := n;
    while !Own(acts(k))
      invariant n <= k <= m
      invariant states(k).cancelled && SameProcess(states(n), states(k))
      decreases m - k
    {
      assert StepAt(states, acts, k);
      OtherStepKeeps(states(k), acts(k));
      k := k + 1;
    }
  }

  /** The process comes closer to its end. */
  lemma NextDescent(states: nat -> State, acts: nat -> Action, n: nat) returns (k: nat)
    requires Trace(states, acts) && states(n).cancelled && OwnAgain(acts, n)
    ensures n < k && Descends(states(n), states(k)) && states(k).cancelled
  {
    var j := NextOwn(states, acts, n);
    TraceInv(states, acts, j);
    assert StepAt(states, acts, j);
    OwnStepDescends(states(j), acts(j));
    k := j + 1;
  }

  /**
   In every endless run that is cancelled and does not starve the process, `Start` returns, or has
   refused to start: whatever fails or panics, and whatever producers and replays go on doing.
   `SomeStepEnabled` says that such a run can always be continued fairly.
  */
  lemma StartReturns(states: nat -> State, acts: nat -> Action, n: nat) returns (m: nat)
    requires Trace(states, acts) && states(n).cancelled && Fair(states, acts)
    ensures n <= m && Ended(states(m))
    decreases StarterRank(states(n)), FetcherRank(states(n).fetcher), |Batch(states(n).fetcher)|, Chores(states(n))
  {
    if Ended(states(n)) {
      m := n;
    } else {
      var k := NextDescent(states, acts, n);
      m := StartReturns(states, acts, k);
    }
  }

  /* ---------- what a finished shutdown leaves ---------- */

  /** Panics are counted. */
  ghost predicate PanicLaw(s: State) {
    s.metrics.panics == 0 ==>
      && (forall w :: 0 <= w < |s.workers| ==> !s.workers[w].Crashed?)
      && (forall i :: i in s.stuck ==> !s.stuck[i].Panicked?)
  }

  lemma PanicWork(s: State, w: nat, a: WorkAction)
    requires WorkEnabled(s, w, a) && PanicLaw(s)
    ensures PanicLaw(WorkNext(s, w, a))
  {
    var t := WorkNext(s, w, a);
    assert Transfers(s, t, w, HowTransferred(a));
    match a {
      case Crash =>
      case Check(reply) => assert t.metrics.panics == s.metrics.panics && !t.workers[w].Crashed?;
      case Publish => PanicPublish(s, w);
      case _ =>
        assert t.metrics == s.metrics || a.Answer?;
        assert !t.workers[w].Crashed?;
    }
  }

  lemma PanicPublish(s: State, w: nat)
    requires WorkEnabled(s, w, Publish) && PanicLaw(s)
    ensures PanicLaw(PublishNext(s, w))
  {
  }

  lemma PanicStep(s: State, a: Action)
    requires Enabled(s, a) && PanicLaw(s)
    ensures PanicLaw(Next(s, a))
  {
    if a.Work? {
      PanicWork(s, a.w, a.work);
    }
  }

  lemma {:induction false} PanicRun(s: State, run: seq<Action>)
    requires Inv(s) && PanicLaw(s) && Valid(s, run)
    ensures Inv(Exec(s, run)) && PanicLaw(Exec(s, run)) && Exec(s, run).cfg == s.cfg
    decreases |run|
  {
    if run != [] {
      InvStep(s, run[0]);
      PanicStep(s, run[0]);
      PanicRun(Next(s, run[0]), run[1..]);
    }
  }

  /**
   When `Start` has returned, the pool had a worker and none panicked, the channel is empty, every
   worker has left its loop, and every delivered message was acknowledged, or its handling ended
   in a failed store call, or it was never dispatched.
  */
  lemma CleanShutdown(cfg: Config, s: State)
    requires Reachable(cfg, s) && cfg.workerCount >= 1 && s.starter.Returned? && s.metrics.panics == 0
    ensures s.chan == [] && s.closed && s.fetcher.Gone?
    ensures forall w :: 0 <= w < |s.workers| ==> s.workers[w].Exited?
    ensures forall i :: Delivered(s, i) ==>
              i in s.acked || (i in s.stuck && s.stuck[i] in {LostRead, Abandoned, AckFailed, AddFailed})
  {
    var run :| Valid(Init(cfg), run) && s == Exec(Init(cfg), run);
    InvInit(cfg);
    PanicRun(Init(cfg), run);
    NoneAlive(s);
    assert s.workers[0].Exited?;
    forall i | Delivered(s, i)
      ensures i in s.acked || i in s.stuck
    {
      NothingOnTheWay(s, i);
    }
  }

  /** With nothing queued and nobody at work, a delivered entry has been settled or is stuck. */
  lemma NothingOnTheWay(s: State, i: nat)
    requires Inv(s) && Queued(s) == [] && Delivered(s, i) && forall w :: 0 <= w < |s.workers| ==> s.workers[w].Exited?
    ensures i in s.acked || i in s.stuck
  {
    assert Hands(s.workers) == {};
  }
}
