/**
 Conservation laws of the queue: processor calls against retry budgets, injections against
 outcomes, and the metric counters, for one task, one injection or all of them together.
*/
module Accounting {
  import opened Tasks
  import opened Queue
  import opened Gauges
  import opened Custody
  import opened Handling
  import opened Lineage

  /** What an account covers: every task, the copies of one produce, or those of one injection. */
  datatype Scope = All | ByRoot(root: nat) | ByInjection(inj: nat)

  predicate Covers(sc: Scope, inj: nat, root: nat) {
    match sc
    case All => true
    case ByRoot(r) => r == root
    case ByInjection(k) => k == inj
  }

  /* ---------- the two sides of the accounts ---------- */

  /** Processor calls in scope. */
  function Calls(hist: seq<Obs>, sc: Scope): nat {
    if hist == [] then 0
    else
      var o := hist[|hist| - 1];
      Calls(hist[..|hist| - 1], sc) + if o.Invoked? && Covers(sc, o.inj, o.root) then 1 else 0
  }

  /** Attempts granted to the first `n` injections in scope: one, and one for each retry left. */
  function Budget(injections: seq<Injection>, sc: Scope): nat {
    if injections == [] then 0
    else
      var k := |injections| - 1;
      Budget(injections[..k], sc) + if Covers(sc, k, injections[k].root) then RetriesLeft(injections[k].task) + 1 else 0
  }

  /** The number of injections in scope. */
  function Count(injections: seq<Injection>, sc: Scope): nat {
    if injections == [] then 0
    else
      var k := |injections| - 1;
      Count(injections[..k], sc) + if Covers(sc, k, injections[k].root) then 1 else 0
  }

  /** Something to add up over the entries in scope. */
  datatype Gauge = Owed | Ends | Wins | Dropped | Buries | Requeues | Live

  function Weigh(g: Gauge, sc: Scope, e: Entry): nat {
    if !e.body.Encoded? || !Covers(sc, e.inj, e.root) then 0
    else
      var life := e.life;
      match g
      case Owed =>
        if e.stream.Dlq? || life.Requeued? || life.Buried? then 0
        else RetriesLeft(e.body.task) + if life.Fresh? || life.Announced? || life.Skipped? then 1 else 0
      case Ends => if e.stream.Main? && (life.Requeued? || life.Buried?) then 0 else 1
      case Wins => if e.stream.Main? && (life.Succeeded? || life.Completed?) then 1 else 0
      case Dropped => if e.stream.Main? && life.Skipped? then 1 else 0
      case Buries => if e.stream.Dlq? then 1 else 0
      case Requeues => if e.stream.Main? && life.Requeued? then 1 else 0
      case Live =>
        if e.stream.Main? && !life.Requeued? && !life.Buried? && !life.Succeeded? && !life.Completed? && !life.Skipped?
        then 1 else 0
  }

  function Sum(g: Gauge, sc: Scope, j: seq<Entry>): nat {
    if j == [] then 0 else Sum(g, sc, j[..|j| - 1]) + Weigh(g, sc, j[|j| - 1])
  }

  lemma SumAppend(g: Gauge, sc: Scope, j: seq<Entry>, e: Entry)
    ensures Sum(g, sc, j + [e]) == Sum(g, sc, j) + Weigh(g, sc, e)
  {
    assert (j + [e])[..|j|] == j;
  }

  lemma {:induction false} SumUpdate(g: Gauge, sc: Scope, j: seq<Entry>, i: nat, e: Entry)
    requires i < |j|
    ensures Sum(g, sc, j[i := e]) == Sum(g, sc, j) - Weigh(g, sc, j[i]) + Weigh(g, sc, e)
  {
    var n := |j| - 1;
    if i == n {
      assert j[i := e][..n] == j[..n];
    } else {
      assert j[i := e][..n] == j[..n][i := e];
      SumUpdate(g, sc, j[..n], i, e);
    }
  }

  /** The effect on a sum of one touched entry and at most one appended copy. */
  lemma SumTold(g: Gauge, sc: Scope, s: State, t: State, w: nat, a: WorkAction)
    requires WorkEnabled(s, w, a) && !a.Exit? && Subject(s, w, a) < |s.journal| && ToldBy(s, t, w, a)
    ensures var e := s.journal[Subject(s, w, a)];
            Sum(g, sc, t.journal) == Sum(g, sc, s.journal) - Weigh(g, sc, e) +
              Weigh(g, sc, e.(life := Becomes(s, w, a)))
              + CopyWeight(g, sc, s, w, a)
  {
    var i := Subject(s, w, a);
    var e := s.journal[i].(life := Becomes(s, w, a));
    var copies := Copies(s, w, a);
    SumUpdate(g, sc, s.journal, i, e);
    if copies != [] {
      SumAppend(g, sc, s.journal[i := e], copies[0]);
    }
    assert t.journal == s.journal[i := e] + (if copies != [] then [copies[0]] else []);
    assert copies == [] ==> t.journal == s.journal[i := e];
  }

  lemma CallsLog(hist: seq<Obs>, o: Obs, sc: Scope)
    ensures Calls(hist + [o], sc) == Calls(hist, sc) + if o.Invoked? && Covers(sc, o.inj, o.root) then 1 else 0
  {
    assert (hist + [o])[..|hist|] == hist;
  }

  lemma InjectLog(injections: seq<Injection>, x: Injection, sc: Scope)
    ensures var c := if Covers(sc, |injections|, x.root) then 1 else 0;
            && Count(injections + [x], sc) == Count(injections, sc) + c
            && Budget(injections + [x], sc) == Budget(injections, sc) + if c == 1 then RetriesLeft(x.task) + 1 else 0
  {
    assert (injections + [x])[..|injections|] == injections;
  }

  /* ---------- the laws ---------- */

  /** Calls made and calls still owed make up the budget. */
  ghost predicate BudgetLaw(s: State, sc: Scope) {
    Calls(s.hist, sc) + Sum(Owed, sc, s.journal) == Budget(s.injections, sc)
  }

  /** Every injection has exactly one end: a win, a drop, a dead-letter entry or a live entry. */
  ghost predicate EndLaw(s: State, sc: Scope) {
    Sum(Ends, sc, s.journal) == Count(s.injections, sc)
  }

  ghost predicate CounterLaw(s: State) {
    && s.metrics.success == Sum(Wins, All, s.journal)
    && s.metrics.duplicate == Sum(Dropped, All, s.journal)
    && s.metrics.failed == Sum(Requeues, All, s.journal) + s.metrics.dlq + Pool(MidHandling, s.workers) + s.leaks
  }

  /** A failure is left unresolved only when its message is stuck. */
  ghost predicate LeakLaw(s: State) {
    s.leaks > 0 ==> s.stuck.Keys != {}
  }

  ghost predicate Balanced(s: State, sc: Scope) {
    BudgetLaw(s, sc) && EndLaw(s, sc) && CounterLaw(s) && LeakLaw(s)
  }

  /** The weight of the copy a step appends, if any. */
  function CopyWeight(g: Gauge, sc: Scope, s: State, w: nat, a: WorkAction): nat
    requires WorkEnabled(s, w, a) && !a.Exit? && Subject(s, w, a) < |s.journal|
  {
    if Copies(s, w, a) != [] then Weigh(g, sc, Copies(s, w, a)[0]) else 0
  }

  lemma OwedMoves(s: State, w: nat, a: WorkAction, sc: Scope)
    requires WorkEnabled(s, w, a) && !a.Exit? && Known(s, w, a)
    ensures var e := s.journal[Subject(s, w, a)];
            Weigh(Owed, sc, e) == Weigh(Owed, sc, e.(life := Becomes(s, w, a))) + CopyWeight(Owed, sc, s, w, a)
              + if a.Call? && Covers(sc, e.inj, e.root) then 1 else 0
  {
    var e := s.journal[Subject(s, w, a)];
    if !Covers(sc, e.inj, e.root) || !e.body.Encoded? {
    } else if a.Add? {
    } else if a.Publish? {
    } else {
    }
  }

  lemma EndsMove(s: State, w: nat, a: WorkAction, sc: Scope)
    requires WorkEnabled(s, w, a) && !a.Exit? && Known(s, w, a)
    ensures var e := s.journal[Subject(s, w, a)];
            Weigh(Ends, sc, e) == Weigh(Ends, sc, e.(life := Becomes(s, w, a))) + CopyWeight(Ends, sc, s, w, a)
  {
  }

  lemma CallsTold(s: State, t: State, w: nat, a: WorkAction, sc: Scope)
    requires WorkEnabled(s, w, a) && !a.Exit? && Subject(s, w, a) < |s.journal| && ToldBy(s, t, w, a)
    ensures var e := s.journal[Subject(s, w, a)];
            Calls(t.hist, sc) == Calls(s.hist, sc) + if a.Call? && Covers(sc, e.inj, e.root) then 1 else 0
  {
    if Says(s, w, a) != [] {
      var o := Says(s, w, a)[0];
      assert t.hist == s.hist + [o];
      CallsLog(s.hist, o, sc);
    } else {
      assert t.hist == s.hist;
    }
  }

  lemma LawsTold(s: State, t: State, w: nat, a: WorkAction, sc: Scope)
    requires WorkEnabled(s, w, a) && !a.Exit? && Known(s, w, a) && ToldBy(s, t, w, a)
    requires BudgetLaw(s, sc) && EndLaw(s, sc) && t.injections == s.injections
    ensures BudgetLaw(t, sc) && EndLaw(t, sc)
  {
    SumTold(Owed, sc, s, t, w, a);
    SumTold(Ends, sc, s, t, w, a);
    OwedMoves(s, w, a, sc);
    EndsMove(s, w, a, sc);
    CallsTold(s, t, w, a, sc);
  }

  /* ---------- the counters ---------- */

  /** The metric counters and the count of unresolved failures after a worker's step. */
  ghost predicate Tallied(s: State, t: State, w: nat, a: WorkAction)
    requires WorkEnabled(s, w, a) && w < |t.workers|
  {
    var m := s.metrics;
    var x := s.workers[w];
    var mid := MidFailure(x);
    match a
    case Check(reply) =>
      t.metrics == (if reply.Ok? && x.task.key in s.seen then m.(duplicate := m.duplicate + 1) else m)
      && t.leaks == s.leaks && mid == MidFailure(t.workers[w]) == 0
    case Publish =>
      var bury := x.pc.AtFailed? && x.task.currentRetries >= x.task.maxRetries;
      t.metrics == (if bury then m.(dlq := m.dlq + 1) else m)
      && t.leaks == s.leaks && MidFailure(t.workers[w]) == mid - (if bury then 1 else 0)
    case Answer(outcome) =>
      t.metrics == (if outcome.None? then m.(success := m.success + 1) else m.(failed := m.failed + 1))
      && t.leaks == s.leaks && mid == 0 && MidFailure(t.workers[w]) == (if outcome.None? then 0 else 1)
    case Add(reply) =>
      t.metrics == m && MidFailure(t.workers[w]) == 0
      && t.leaks == s.leaks + (if reply.Landed() then 0 else mid)
    case Crash =>
      t.metrics == m.(panics := m.panics + 1) && MidFailure(t.workers[w]) == 0 && t.leaks == s.leaks + mid
    case _ => t.metrics == m && t.leaks == s.leaks && mid == MidFailure(t.workers[w]) == 0
  }

  lemma TalliedCheck(s: State, w: nat, reply: Reply)
    requires WorkEnabled(s, w, Check(reply))
    ensures Tallied(s, CheckNext(s, w, reply), w, Check(reply))
  {
  }

  lemma TalliedPublish(s: State, w: nat)
    requires WorkEnabled(s, w, Publish)
    ensures Tallied(s, PublishNext(s, w), w, Publish)
  {
  }

  lemma TalliedAdd(s: State, w: nat, reply: Reply)
    requires WorkEnabled(s, w, Add(reply))
    ensures Tallied(s, AddNext(s, w, reply), w, Add(reply))
  {
  }

  lemma TalliedWork(s: State, w: nat, a: WorkAction)
    requires WorkEnabled(s, w, a)
    ensures Tallied(s, WorkNext(s, w, a), w, a)
  {
    match a {
      case Check(reply) => TalliedCheck(s, w, reply);
      case Publish => TalliedPublish(s, w);
      case Add(reply) => TalliedAdd(s, w, reply);
      case _ =>
    }
  }

  lemma OutcomesMove(s: State, w: nat, a: WorkAction)
    requires WorkEnabled(s, w, a) && !a.Exit? && Known(s, w, a)
    ensures var e := s.journal[Subject(s, w, a)]; var f := e.(life := Becomes(s, w, a)); var x := s.workers[w];
            && Weigh(Wins, All, f) + CopyWeight(Wins, All, s, w, a) == Weigh(Wins, All, e) +
               (if a == Answer(None) then 1 else 0)
            && Weigh(Dropped, All, f) + CopyWeight(Dropped, All, s, w, a)
               == Weigh(Dropped, All, e) + (if a.Check? && a.reply.Ok? && x.task.key in s.seen then 1 else 0)
            && Weigh(Requeues, All, f) + CopyWeight(Requeues, All, s, w, a)
               == Weigh(Requeues, All, e) + (if a.Add? && a.reply.Landed() then MidFailure(x) else 0)
  {
  }

  lemma WinsTold(s: State, t: State, w: nat, a: WorkAction)
    requires WorkEnabled(s, w, a) && !a.Exit? && Known(s, w, a) && ToldBy(s, t, w, a)
    ensures Sum(Wins, All, t.journal) == Sum(Wins, All, s.journal) + if a == Answer(None) then 1 else 0
  {
    SumTold(Wins, All, s, t, w, a);
    OutcomesMove(s, w, a);
  }

  lemma DroppedTold(s: State, t: State, w: nat, a: WorkAction)
    requires WorkEnabled(s, w, a) && !a.Exit? && Known(s, w, a) && ToldBy(s, t, w, a)
    ensures Sum(Dropped, All, t.journal)
         == Sum(Dropped, All, s.journal) + if a.Check? && a.reply.Ok? && s.workers[w].task.key in s.seen then 1 else 0
  {
    SumTold(Dropped, All, s, t, w, a);
    OutcomesMove(s, w, a);
  }

  lemma RequeuesTold(s: State, t: State, w: nat, a: WorkAction)
    requires WorkEnabled(s, w, a) && !a.Exit? && Known(s, w, a) && ToldBy(s, t, w, a)
    ensures Sum(Requeues, All, t.journal)
         == Sum(Requeues, All, s.journal) + if a.Add? && a.reply.Landed() then MidFailure(s.workers[w]) else 0
  {
    SumTold(Requeues, All, s, t, w, a);
    OutcomesMove(s, w, a);
  }

  lemma CounterTold(s: State, t: State, w: nat, a: WorkAction)
    requires WorkEnabled(s, w, a) && !a.Exit? && Known(s, w, a) && ToldBy(s, t, w, a) && CounterLaw(s)
    requires w < |t.workers| && Tallied(s, t, w, a)
    requires Pool(MidHandling, t.workers) == Pool(MidHandling, s.workers) - MidFailure(s.workers[w]) +
             MidFailure(t.workers[w])
    ensures CounterLaw(t)
  {
    WinsTold(s, t, w, a);
    DroppedTold(s, t, w, a);
    RequeuesTold(s, t, w, a);
  }

  lemma CounterWork(s: State, w: nat, a: WorkAction)
    requires Inv(s) && WorkEnabled(s, w, a) && CounterLaw(s)
    ensures CounterLaw(WorkNext(s, w, a))
  {
    var t := WorkNext(s, w, a);
    PoolMove(MidHandling, s.workers, w, t.workers[w]);
    if !a.Exit? {
      TalliedWork(s, w, a);
      Knows(s, w, a);
      CounterTold(s, t, w, a);
    }
  }

  lemma LeakWork(s: State, w: nat, a: WorkAction)
    requires WorkEnabled(s, w, a) && LeakLaw(s)
    ensures LeakLaw(WorkNext(s, w, a))
  {
    TalliedWork(s, w, a);
    var t := WorkNext(s, w, a);
    assert Transfers(s, t, w, HowTransferred(a));
    if t.leaks > s.leaks {
      assert s.workers[w].id in t.stuck.Keys;
    } else {
      assert s.stuck.Keys <= t.stuck.Keys;
    }
  }

  /* ---------- the other steps ---------- */

  lemma CounterBoot(s: State, a: BootAction)
    requires Goroutines(s) && BootEnabled(s, a) && CounterLaw(s)
    ensures CounterLaw(BootNext(s, a))
  {
    if a.Spawn? && s.starter.next < |s.workers| {
      PoolMove(MidHandling, s.workers, s.starter.next, Idle);
    }
  }

  lemma BalancedStore(s: State, t: State, sc: Scope)
    requires StoreFrame(s, t) && Balanced(s, sc) && CounterLaw(t)
    ensures Balanced(t, sc)
  {
  }

  /** A step that stores one more task, on the account of a new injection, balances. */
  lemma Injects(s: State, t: State, e: Entry, sc: Scope)
    requires Balanced(s, sc) && ProcessFrame(s, t)
    requires e.stream.Main? && e.life.Fresh? && e.body.Encoded? && e.inj == |s.injections|
    requires t.injections == s.injections + [Injection(e.root, e.body.task)] && t.hist == s.hist
    requires forall g, c :: Sum(g, c, t.journal) == Sum(g, c, s.journal) + Weigh(g, c, e)
    ensures Balanced(t, sc)
  {
    InjectLog(s.injections, Injection(e.root, e.body.task), sc);
    assert Sum(Owed, sc, t.journal) == Sum(Owed, sc, s.journal) + Weigh(Owed, sc, e);
    assert Sum(Ends, sc, t.journal) == Sum(Ends, sc, s.journal) + Weigh(Ends, sc, e);
    assert Weigh(Wins, All, e) == Weigh(Dropped, All, e) == Weigh(Requeues, All, e) == 0;
  }

  /** A step that only adds to the history, other than a processor call, balances. */
  lemma Observes(s: State, t: State, o: Obs, sc: Scope)
    requires Balanced(s, sc) && ProcessFrame(s, t) && t.journal == s.journal && t.injections == s.injections
    requires t.hist == s.hist || (t.hist == s.hist + [o] && !o.Invoked?)
    ensures Balanced(t, sc)
  {
    CallsLog(s.hist, o, sc);
  }

  lemma BalancedForeign(s: State, a: EnvAction, sc: Scope)
    requires a.Foreign? && EnvEnabled(s, a) && Balanced(s, sc)
    ensures Balanced(EnvNext(s, a), sc)
  {
    var e := Entry(a.stream, a.body, 0, 0, Fresh);
    SumAppend(Owed, sc, s.journal, e);
    SumAppend(Ends, sc, s.journal, e);
    SumAppend(Wins, All, s.journal, e);
    SumAppend(Dropped, All, s.journal, e);
    SumAppend(Requeues, All, s.journal, e);
  }

  lemma BalancedProduce(s: State, task: Task, reply: Reply, sc: Scope)
    requires Balanced(s, sc) && reply.Landed()
    ensures Balanced(EnvNext(s, Produce(task, reply)), sc)
  {
    var t := EnvNext(s, Produce(task, reply));
    var e := Entry(Main, Encoded(task), |s.injections|, |s.roots|, Fresh);
    forall g: Gauge, c: Scope
      ensures Sum(g, c, t.journal) == Sum(g, c, s.journal) + Weigh(g, c, e)
    {
      SumAppend(g, c, s.journal, e);
    }
    Injects(s, t, e, sc);
  }

  lemma BalancedEnv(s: State, a: EnvAction, sc: Scope)
    requires EnvEnabled(s, a) && Balanced(s, sc)
    ensures Balanced(EnvNext(s, a), sc)
  {
    match a {
      case Produce(task, reply) =>
        if reply.Landed() {
          BalancedProduce(s, task, reply, sc);
        } else {
          Observes(s, EnvNext(s, a), Expired(""), sc);
        }
      case Foreign(_, _) => BalancedForeign(s, a, sc);
      case Announce(id) => Observes(s, EnvNext(s, a), Published(PendingEvent, id), sc);
      case Expire(key) => Observes(s, EnvNext(s, a), Expired(key), sc);
      case Cancel => Observes(s, EnvNext(s, a), Expired(""), sc);
    }
  }

  /** A replay changes the sums by the new copy only. */
  lemma ForwardSums(j: seq<Entry>, k: seq<Entry>, d: nat, e: Entry, f: Entry)
    requires d < |j| && k == j[d := e] + [f]
    requires forall g: Gauge, c: Scope :: Weigh(g, c, e) == Weigh(g, c, j[d])
    ensures forall g, c :: Sum(g, c, k) == Sum(g, c, j) + Weigh(g, c, f)
  {
    forall g: Gauge, c: Scope
      ensures Sum(g, c, k) == Sum(g, c, j) + Weigh(g, c, f)
    {
      SumUpdate(g, c, j, d, e);
      SumAppend(g, c, j[d := e], f);
      assert Weigh(g, c, e) == Weigh(g, c, j[d]);
    }
  }

  lemma BalancedPutBack(s: State, r: nat, reply: Reply, sc: Scope)
    requires Inv(s) && RetryEnabled(s, r, Forward(reply)) && Balanced(s, sc)
    requires s.journal[s.replays[r].rest[0]].body.Encoded? && reply.Landed()
    ensures Balanced(ForwardNext(s, r, reply), sc)
  {
    var t := ForwardNext(s, r, reply);
    var d := s.replays[r].rest[0];
    ForwardFits(s, r, reply);
    ForwardSums(s.journal, t.journal, d, t.journal[d], t.journal[|s.journal|]);
    Injects(s, t, t.journal[|s.journal|], sc);
  }

  lemma BalancedForward(s: State, r: nat, reply: Reply, sc: Scope)
    requires Inv(s) && RetryEnabled(s, r, Forward(reply)) && Balanced(s, sc)
    ensures Balanced(ForwardNext(s, r, reply), sc)
  {
    if s.journal[s.replays[r].rest[0]].body.Encoded? && reply.Landed() {
      BalancedPutBack(s, r, reply, sc);
    } else {
      Observes(s, ForwardNext(s, r, reply), Expired(""), sc);
    }
  }

  lemma BalancedRetry(s: State, r: nat, a: ReplayAction, sc: Scope)
    requires Inv(s) && RetryEnabled(s, r, a) && Balanced(s, sc)
    ensures Balanced(RetryNext(s, r, a), sc)
  {
    if a.Forward? {
      BalancedForward(s, r, a.reply, sc);
    } else {
      Observes(s, RetryNext(s, r, a), Published(PendingEvent, if a.Tell? then s.replays[r].taskId else ""), sc);
    }
  }

  lemma BalancedWork(s: State, w: nat, a: WorkAction, sc: Scope)
    requires Inv(s) && WorkEnabled(s, w, a) && Balanced(s, sc)
    ensures Balanced(WorkNext(s, w, a), sc)
  {
    CounterWork(s, w, a);
    LeakWork(s, w, a);
    if !a.Exit? {
      Knows(s, w, a);
      LawsTold(s, WorkNext(s, w, a), w, a, sc);
    }
  }

  lemma BalancedStep(s: State, a: Action, sc: Scope)
    requires Inv(s) && Enabled(s, a) && Balanced(s, sc)
    ensures Balanced(Next(s, a), sc)
  {
    match a {
      case Env(e) => BalancedEnv(s, e, sc);
      case Boot(b) =>
        CounterBoot(s, b);
        BalancedStore(s, BootNext(s, b), sc);
      case Fetch(f) => BalancedStore(s, FetchNext(s, f), sc);
      case Work(w, x) => BalancedWork(s, w, x, sc);
      case Retry(r, x) => BalancedRetry(s, r, x, sc);
    }
  }

  lemma {:induction false} BalancedRun(s: State, run: seq<Action>, sc: Scope)
    requires Inv(s) && Lined(s) && Balanced(s, sc) && Valid(s, run)
    ensures var t := Exec(s, run); Inv(t) && Lined(t) && Balanced(t, sc)
    decreases |run|
  {
    if run != [] {
      InvStep(s, run[0]);
      LinedStep(s, run[0]);
      BalancedStep(s, run[0], sc);
      BalancedRun(Next(s, run[0]), run[1..], sc);
    }
  }

  lemma BalancedReachable(cfg: Config, s: State, sc: Scope)
    requires Reachable(cfg, s)
    ensures Inv(s) && Lined(s) && Balanced(s, sc) && s.cfg == cfg
  {
    ReachableLined(cfg, s);
    var run :| Valid(Init(cfg), run) && s == Exec(Init(cfg), run);
    InvInit(cfg);
    PoolZero(MidHandling, Init(cfg).workers);
    BalancedRun(Init(cfg), run, sc);
  }

  /* ---------- what the laws mean ---------- */

  /**
   In every run the processor is called at most once for every injection of a task and once more
   for every retry that injection had left.
  */
  lemma AttemptBudget(cfg: Config, s: State, sc: Scope)
    requires Reachable(cfg, s)
    ensures Calls(s.hist, sc) <= Budget(s.injections, sc)
  {
    BalancedReachable(cfg, s, sc);
  }

  /** Nothing is left to deliver, queued or in a worker's hands. */
  ghost predicate Drained(s: State) {
    && Queued(s) == []
    && (forall w :: 0 <= w < |s.workers| ==> !s.workers[w].Busy())
    && (forall i :: s.cursor <= i < |s.journal| ==> !s.journal[i].stream.Main?)
  }

  predicate NoSuccess(hist: seq<Obs>, sc: Scope) {
    forall p :: 0 <= p < |hist| && hist[p].Replied? && Covers(sc, hist[p].inj, hist[p].root) ==> !hist[p].success
  }

  /** No idempotency check may drop a task in scope. */
  predicate Unkeyed(s: State, sc: Scope) {
    forall i :: 0 <= i < |s.journal| && s.journal[i].body.Encoded? ==>
      Covers(sc, s.journal[i].inj, s.journal[i].root) ==> !s.cfg.checker || s.journal[i].body.task.key == ""
  }

  lemma {:induction false} SumAlike(g: Gauge, h: Gauge, sc: Scope, j: seq<Entry>)
    requires forall i :: 0 <= i < |j| ==> Weigh(g, sc, j[i]) == Weigh(h, sc, j[i])
    ensures Sum(g, sc, j) == Sum(h, sc, j)
  {
    if j != [] {
      SumAlike(g, h, sc, j[..|j| - 1]);
    }
  }

  lemma {:induction false} SumNothing(g: Gauge, sc: Scope, j: seq<Entry>)
    requires forall i :: 0 <= i < |j| ==> Weigh(g, sc, j[i]) == 0
    ensures Sum(g, sc, j) == 0
  {
    if j != [] {
      SumNothing(g, sc, j[..|j| - 1]);
    }
  }

  /** In a drained run without faults, an unkeyed entry that never succeeded has been copied on. */
  lemma CopiedOn(s: State, sc: Scope, i: nat)
    requires Inv(s) && Lined(s) && Drained(s) && s.stuck.Keys == {} && NoSuccess(s.hist, sc)
    requires i < |s.journal| && s.journal[i].stream.Main? && s.journal[i].body.Encoded?
    requires Covers(sc, s.journal[i].inj, s.journal[i].root)
    requires !s.cfg.checker || s.journal[i].body.task.key == ""
    ensures s.journal[i].life.Requeued? || s.journal[i].life.Buried?
  {
    var e := s.journal[i];
    assert Descends(s, e);
    assert Delivered(s, i);
    assert Hands(s.workers) == {};
    assert i in s.acked;
    assert !WonBy(s.hist, e.inj, e.root);
  }

  /** Such an entry owes no attempt, and has ended on the dead-letter stream if it ended its line. */
  lemma PaidOff(s: State, sc: Scope, i: nat)
    requires Inv(s) && Lined(s) && Drained(s) && s.stuck.Keys == {} && NoSuccess(s.hist, sc) && Unkeyed(s, sc)
    requires i < |s.journal|
    ensures Weigh(Owed, sc, s.journal[i]) == 0 && Weigh(Ends, sc, s.journal[i]) == Weigh(Buries, sc, s.journal[i])
  {
    var e := s.journal[i];
    if e.stream.Main? && e.body.Encoded? && Covers(sc, e.inj, e.root) {
      CopiedOn(s, sc, i);
    }
  }

  /**
   When every attempt fails, no message gets stuck and the run drains, the budget is used up
   exactly and every injection leaves exactly one dead-letter entry.
  */
  lemma BudgetExhausted(cfg: Config, s: State, sc: Scope)
    requires Reachable(cfg, s) && Drained(s) && s.stuck.Keys == {} && NoSuccess(s.hist, sc) && Unkeyed(s, sc)
    ensures Calls(s.hist, sc) == Budget(s.injections, sc)
    ensures Sum(Buries, sc, s.journal) == Count(s.injections, sc)
  {
    BalancedReachable(cfg, s, sc);
    forall i | 0 <= i < |s.journal|
      ensures Weigh(Owed, sc, s.journal[i]) == 0 && Weigh(Ends, sc, s.journal[i]) == Weigh(Buries, sc, s.journal[i])
    {
      PaidOff(s, sc, i);
    }
    SumNothing(Owed, sc, s.journal);
    SumAlike(Ends, Buries, sc, s.journal);
  }

  lemma {:induction false} EndsSplit(sc: Scope, j: seq<Entry>)
    ensures Sum(Ends, sc, j) == Sum(Wins, sc, j) + Sum(Dropped, sc, j) + Sum(Buries, sc, j) + Sum(Live, sc, j)
  {
    if j != [] {
      EndsSplit(sc, j[..|j| - 1]);
    }
  }

  lemma {:induction false} CountAll(injections: seq<Injection>)
    ensures Count(injections, All) == |injections|
  {
    if injections != [] {
      CountAll(injections[..|injections| - 1]);
    }
  }

  /**
   Conservation, faults or not: the injections of any scope are its wins, its drops, its copies
   buried on the dead-letter stream and its live entries, each counted once.
  */
  lemma Conservation(cfg: Config, s: State, sc: Scope)
    requires Reachable(cfg, s)
    ensures var j := s.journal;
            Count(s.injections, sc) == Sum(Wins, sc, j) + Sum(Dropped, sc, j) + Sum(Buries, sc, j) + Sum(Live, sc, j)
  {
    BalancedReachable(cfg, s, sc);
    EndsSplit(sc, s.journal);
  }

  /**
   When nothing is left to do and nothing got stuck, every injection of a scope in which no check may
   drop a task has succeeded or was buried.
  */
  lemma DrainedEnds(cfg: Config, s: State, sc: Scope)
    requires Reachable(cfg, s) && Drained(s) && s.stuck.Keys == {} && Unkeyed(s, sc)
    ensures Count(s.injections, sc) == Sum(Wins, sc, s.journal) + Sum(Buries, sc, s.journal)
  {
    Conservation(cfg, s, sc);
    ReachableLined(cfg, s);
    forall i | 0 <= i < |s.journal|
      ensures Weigh(Live, sc, s.journal[i]) == 0 && Weigh(Dropped, sc, s.journal[i]) == 0
    {
      EndedEntry(s, sc, i);
    }
    SumNothing(Live, sc, s.journal);
    SumNothing(Dropped, sc, s.journal);
  }

  lemma EndedEntry(s: State, sc: Scope, i: nat)
    requires Inv(s) && Lined(s) && Drained(s) && s.stuck.Keys == {} && Unkeyed(s, sc) && i < |s.journal|
    ensures Weigh(Live, sc, s.journal[i]) == 0 && Weigh(Dropped, sc, s.journal[i]) == 0
  {
    assert Descends(s, s.journal[i]);
    assert Hands(s.workers) == {};
    assert s.journal[i].stream.Main? ==> Delivered(s, i);
  }

  /** The metric counters agree with what happened to the entries, in every run. */
  lemma CountersTell(cfg: Config, s: State)
    requires Reachable(cfg, s)
    ensures var m := s.metrics; var j := s.journal;
            && |s.injections| == m.success + m.duplicate + Sum(Buries, All, j) + Sum(Live, All, j)
            && m.failed == Sum(Requeues, All, j) + m.dlq + Pool(MidHandling, s.workers) + s.leaks
            && (s.stuck.Keys == {} ==> m.failed == Sum(Requeues, All, j) + m.dlq + Pool(MidHandling, s.workers))
  {
    BalancedReachable(cfg, s, All);
    EndsSplit(All, s.journal);
    CountAll(s.injections);
  }
}
