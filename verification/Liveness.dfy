/**
 Liveness: with a worker, a store that does its part and nothing new coming in, every run that does
 not starve anyone handles everything: each stored task succeeds or ends on the dead-letter stream.
*/
module Liveness {
  import opened Tasks
  import opened Queue
  import opened Gauges
  import opened Handling
  import opened Accounting
  import opened Termination
  import opened Shutdown

  /* ---------- the runs it is about ---------- */

  /** Main-stream entries that nobody has read. */
  predicate Unread(s: State)
    requires s.cursor <= |s.journal|
  {
    exists i :: s.cursor <= i < |s.journal| && s.journal[i].stream.Main?
  }

  /**
   Nothing new, no cancellation, no panic; adds and acknowledgements succeed; a read delivers
   something when there is something, and otherwise delivers nothing or reports that.
  */
  predicate Quiet(s: State, a: Action)
    requires s.cursor <= |s.journal| && Enabled(s, a)
  {
    && !Brings(s, a)
    && match a
       case Env(e) => !e.Cancel?
       case Fetch(FRead(n, reply)) =>
         if Unread(s) then reply.Ok? && Backlog(s.journal, s.cursor, s.cursor + n) > 0 else reply.Ok? || !reply.landed
       case Work(_, Add(reply)) => reply.Ok?
       case Work(_, Ack(reply)) => reply.Ok?
       case Work(_, x) => !x.Crash?
       case _ => true
  }

  /** The consumer is up, with at least one worker, and nothing has gone wrong. */
  ghost predicate Healthy(s: State) {
    && Inv(s) && s.starter.Waiting? && !s.cancelled && |s.workers| >= 1 && s.stuck == map[]
    && (s.fetcher.Checking? || s.fetcher.Reading? || s.fetcher.Dispatching?)
    && forall w :: 0 <= w < |s.workers| ==> s.workers[w].Live()
  }

  /** Worker `w` has nothing to do. */
  predicate WorkerWaits(s: State, w: nat) {
    w < |s.workers| ==> !s.workers[w].Live() || (s.workers[w].Idle? && s.chan == [])
  }

  /** The fetcher waits for room in the channel. */
  predicate FetcherWaits(s: State) {
    s.fetcher.Dispatching? && s.fetcher.batch != [] && |s.chan| >= Capacity(s.cfg)
  }

  ghost predicate WorkerTurn(states: nat -> State, acts: nat -> Action, w: nat, n: nat) {
    exists m: nat :: n <= m && ((acts(m).Work? && acts(m).w == w) || WorkerWaits(states(m), w))
  }

  ghost predicate FetcherTurn(states: nat -> State, acts: nat -> Action, n: nat) {
    exists m: nat :: n <= m && (acts(m).Fetch? || FetcherWaits(states(m)))
  }

  /** Neither a worker nor the fetcher is passed over for ever while it could go on. */
  ghost predicate Unstarved(states: nat -> State, acts: nat -> Action) {
    && (forall w: nat, n: nat :: WorkerTurn(states, acts, w, n))
    && (forall n: nat :: FetcherTurn(states, acts, n))
  }

  ghost predicate QuietAt(states: nat -> State, acts: nat -> Action, n: nat) {
    states(n).cursor <= |states(n).journal| && Enabled(states(n), acts(n)) && Quiet(states(n), acts(n))
  }

  ghost predicate AllQuiet(states: nat -> State, acts: nat -> Action) {
    forall n: nat :: QuietAt(states, acts, n)
  }

  /* ---------- one step ---------- */

  lemma {:induction false} BacklogMeans(j: seq<Entry>, lo: nat, hi: nat)
    requires lo <= hi <= |j|
    ensures Backlog(j, lo, hi) > 0 <==> exists i :: lo <= i < hi && j[i].stream.Main?
    decreases hi
  {
    if lo < hi {
      BacklogMeans(j, lo, hi - 1);
    }
  }

  lemma HealthyFetch(s: State, a: FetchAction)
    requires Healthy(s) && FetchEnabled(s, a) && Quiet(s, Fetch(a))
    ensures Healthy(FetchNext(s, a))
  {
    InvStep(s, Fetch(a));
    if a.FRead? && !a.reply.Ok? {
      assert MainIds(s.journal, s.cursor, s.cursor) == [];
      assert MarkAll(s.stuck, [], LostRead) == s.stuck;
    }
  }

  lemma HealthyWork(s: State, w: nat, a: WorkAction)
    requires Healthy(s) && WorkEnabled(s, w, a) && Quiet(s, Work(w, a))
    ensures Healthy(WorkNext(s, w, a)) && !a.Exit?
  {
    InvStep(s, Work(w, a));
    var t := WorkNext(s, w, a);
    assert WorkerFrame(s, t, w) && Transfers(s, t, w, HowTransferred(a));
    assert t.workers[w].Live();
  }

  lemma SomeoneRuns(s: State)
    requires Healthy(s)
    ensures s.wg > 0
  {
    PoolAtLeast(Alive, s.workers, 0);
  }

  lemma HealthyStep(s: State, a: Action)
    requires Healthy(s) && Enabled(s, a) && Quiet(s, a)
    ensures Healthy(Next(s, a))
  {
    SomeoneRuns(s);
    match a {
      case Fetch(f) => HealthyFetch(s, f);
      case Work(w, x) => HealthyWork(s, w, x);
      case _ => InvStep(s, a);
    }
  }

  /** As long as no message moves, everything that waits goes on waiting. */
  ghost predicate Still(s: State, t: State) {
    && t.workers == s.workers && t.chan == s.chan && Batch(t.fetcher) == Batch(s.fetcher) && t.cfg == s.cfg
    && s.cursor <= |s.journal| && t.cursor <= |t.journal| && (Unread(t) <==> Unread(s))
  }

  lemma StillEnv(s: State, a: EnvAction)
    requires Healthy(s) && EnvEnabled(s, a) && Quiet(s, Env(a))
    ensures Still(s, EnvNext(s, a)) && EnvNext(s, a).fetcher == s.fetcher
  {
    var t := EnvNext(s, a);
    assert forall i :: 0 <= i < |s.journal| ==> t.journal[i] == s.journal[i];
    assert forall i :: |s.journal| <= i < |t.journal| ==> !t.journal[i].stream.Main?;
    if Unread(s) {
      var i :| s.cursor <= i < |s.journal| && s.journal[i].stream.Main?;
      assert t.journal[i].stream.Main?;
    }
  }

  lemma StillRetry(s: State, r: nat, a: ReplayAction)
    requires Healthy(s) && RetryEnabled(s, r, a) && Quiet(s, Retry(r, a))
    ensures Still(s, RetryNext(s, r, a)) && RetryNext(s, r, a).fetcher == s.fetcher
  {
    assert RetryNext(s, r, a).journal == s.journal;
  }

  /** A read that moves no message has found none, and left none behind. */
  lemma ReadNothing(s: State, n: nat)
    requires s.cursor + n <= |s.journal| && Backlog(s.journal, s.cursor, s.cursor + n) == 0
    ensures MainIds(s.journal, s.cursor, s.cursor + n) == []
  {
    var ids := MainIds(s.journal, s.cursor, s.cursor + n);
    assert ids != [] ==> ids[0] in ids;
    BacklogMeans(s.journal, s.cursor, s.cursor + n);
  }

  lemma SameUnread(s: State, n: nat)
    requires s.cursor + n <= |s.journal| && Backlog(s.journal, s.cursor, s.cursor + n) == 0
    ensures Unread(s.(cursor := s.cursor + n)) <==> Unread(s)
  {
    BacklogMeans(s.journal, s.cursor, s.cursor + n);
  }

  lemma StillRead(s: State, n: nat, reply: Reply)
    requires Healthy(s) && FetchEnabled(s, FRead(n, reply)) && Quiet(s, Fetch(FRead(n, reply)))
    requires Backlog(s.journal, s.cursor, s.cursor + n) == 0
    ensures Still(s, FetchNext(s, FRead(n, reply))) && !Unread(s)
  {
    ReadNothing(s, n);
    SameUnread(s, n);
    StillAfter(s, FetchNext(s, FRead(n, reply)), n);
  }

  lemma StillAfter(s: State, t: State, n: nat)
    requires s.cursor + n <= |s.journal| && t.cursor == s.cursor + n && t.journal == s.journal
    requires t.workers == s.workers && t.chan == s.chan && Batch(t.fetcher) == Batch(s.fetcher) && t.cfg == s.cfg
    requires Unread(s.(cursor := s.cursor + n)) <==> Unread(s)
    ensures Still(s, t)
  {
    assert Unread(t) <==> Unread(s.(cursor := s.cursor + n));
  }

  lemma StillFetch(s: State, a: FetchAction)
    requires Healthy(s) && FetchEnabled(s, a) && Quiet(s, Fetch(a)) && !Moves(s, Fetch(a))
    ensures Still(s, FetchNext(s, a))
    ensures Unread(s) ==> FetchRank(FetchNext(s, a).fetcher) < FetchRank(s.fetcher)
  {
    if a.FRead? {
      StillRead(s, a.n, a.reply);
    }
  }

  /** Turns of the fetcher until it reads. */
  function FetchRank(f: Fetcher): nat {
    match f case Dispatching(_) => 2 case Checking => 1 case _ => 0
  }

  /** A step that moves no message leaves everything that waits as it was. */
  lemma StillStep(s: State, a: Action)
    requires Healthy(s) && Enabled(s, a) && Quiet(s, a) && !Moves(s, a)
    ensures Still(s, Next(s, a)) && (!a.Fetch? ==> Next(s, a).fetcher == s.fetcher)
  {
    SomeoneRuns(s);
    match a {
      case Env(e) => StillEnv(s, e);
      case Fetch(f) => StillFetch(s, f);
      case Retry(r, x) => StillRetry(s, r, x);
      case Work(w, x) => HealthyWork(s, w, x);
      case Boot(b) =>
    }
  }

  /* ---------- progress ---------- */

  ghost predicate Steps(states: nat -> State, acts: nat -> Action) {
    forall n: nat :: StepAt(states, acts, n)
  }

  /** An endless run from a healthy state, in which nothing new comes in and nothing goes wrong. */
  ghost predicate Stays(states: nat -> State, acts: nat -> Action) {
    Steps(states, acts) && AllQuiet(states, acts) && Healthy(states(0))
  }

  lemma AlwaysHealthy(states: nat -> State, acts: nat -> Action, k: nat)
    requires Stays(states, acts)
    ensures Healthy(states(k)) && QuietAt(states, acts, k) && StepAt(states, acts, k)
  {
    HealthyFrom(states, acts, 0, k);
  }

  lemma {:induction false} HealthyFrom(states: nat -> State, acts: nat -> Action, j: nat, k: nat)
    requires Steps(states, acts) && AllQuiet(states, acts) && Healthy(states(j)) && j <= k
    ensures Healthy(states(k))
    decreases k - j
  {
    if j < k {
      StaysHealthy(states, acts, j);
      HealthyFrom(states, acts, j + 1, k);
    }
  }

  lemma StaysHealthy(states: nat -> State, acts: nat -> Action, k: nat)
    requires Steps(states, acts) && AllQuiet(states, acts) && Healthy(states(k))
    ensures Healthy(states(k + 1))
  {
    assert StepAt(states, acts, k) && QuietAt(states, acts, k);
    HealthyStep(states(k), acts(k));
  }

  /** The work left at step `k`. */
  ghost function WorkAt(states: nat -> State, k: nat): nat {
    if states(k).cursor <= |states(k).journal| then Workload(states(k)) else 0
  }

  lemma WorkStep(states: nat -> State, acts: nat -> Action, k: nat)
    requires Stays(states, acts)
    ensures WorkAt(states, k + 1) <= WorkAt(states, k)
    ensures MovesAt(states, acts, k) ==> WorkAt(states, k + 1) < WorkAt(states, k)
  {
    AlwaysHealthy(states, acts, k);
    StepPays(states(k), acts(k));
  }

  lemma {:induction false} WorkNeverGrows(states: nat -> State, acts: nat -> Action, n: nat, k: nat)
    requires Stays(states, acts) && n <= k
    ensures WorkAt(states, k) <= WorkAt(states, n)
    decreases k - n
  {
    if n < k {
      WorkStep(states, acts, n);
      WorkNeverGrows(states, acts, n + 1, k);
    }
  }

  /** The step of the run at `k` moves a message. */
  ghost predicate MovesAt(states: nat -> State, acts: nat -> Action, k: nat) {
    Enabled(states(k), acts(k)) && Moves(states(k), acts(k))
  }

  /** No message has moved between `n` and `k`. */
  ghost predicate Waiting(states: nat -> State, n: nat, k: nat) {
    n <= k && Still(states(n), states(k))
  }

  lemma WaitOn(states: nat -> State, acts: nat -> Action, n: nat, k: nat)
    requires Stays(states, acts) && Waiting(states, n, k) && !MovesAt(states, acts, k)
    ensures Waiting(states, n, k + 1)
    ensures !acts(k).Fetch? ==> states(k + 1).fetcher == states(k).fetcher
    ensures acts(k).Fetch? && states(k).cursor <= |states(k).journal| && Unread(states(k)) ==>
              FetchRank(states(k + 1).fetcher) < FetchRank(states(k).fetcher)
  {
    AlwaysHealthy(states, acts, k);
    StillStep(states(k), acts(k));
    if acts(k).Fetch? {
      StillFetch(states(k), acts(k).fetch);
    }
  }

  /** Up to step `m`, either a message moves or everything still waits. */
  lemma {:induction false} WaitUntil(states: nat -> State, acts: nat -> Action, n: nat, j: nat, m: nat) returns (k: nat)
    requires Stays(states, acts) && Waiting(states, n, j) && j <= m
    ensures j <= k <= m && Waiting(states, n, k) && (k < m ==> MovesAt(states, acts, k))
    decreases m - j
  {
    if j == m || MovesAt(states, acts, j) {
      k := j;
    } else {
      WaitOn(states, acts, n, j);
      k := WaitUntil(states, acts, n, j + 1, m);
    }
  }

  /** Up to step `m`, a message moves, or the fetcher steps and has not moved before. */
  lemma {:induction false} WaitFetch(states: nat -> State, acts: nat -> Action, n: nat, j: nat, m: nat) returns (k: nat)
    requires Stays(states, acts) && Waiting(states, n, j) && j <= m
    ensures j <= k <= m && Waiting(states, n, k) && (k < m ==> MovesAt(states, acts, k) || acts(k).Fetch?)
    ensures states(k).fetcher == states(j).fetcher
    decreases m - j
  {
    if j == m || MovesAt(states, acts, j) || acts(j).Fetch? {
      k := j;
    } else {
      WaitOn(states, acts, n, j);
      k := WaitFetch(states, acts, n, j + 1, m);
    }
  }

  /** A worker with something to do does it. */
  lemma BusyMoves(states: nat -> State, acts: nat -> Action, n: nat, w: nat) returns (k: nat)
    requires Stays(states, acts) && Unstarved(states, acts)
    requires w < |states(n).workers| && (states(n).workers[w].Busy() || states(n).chan != [])
    ensures n <= k && MovesAt(states, acts, k)
  {
    AlwaysHealthy(states, acts, n);
    assert WorkerTurn(states, acts, w, n);
    var m: nat :| n <= m && ((acts(m).Work? && acts(m).w == w) || WorkerWaits(states(m), w));
    k := WaitUntil(states, acts, n, n, m);
    if k == m {
      WorkerCanMove(states, acts, w, m);
    }
  }

  lemma WorkerCanMove(states: nat -> State, acts: nat -> Action, w: nat, m: nat)
    requires Stays(states, acts) && w < |states(m).workers| && (states(m).workers[w].Busy() || states(m).chan != [])
    requires (acts(m).Work? && acts(m).w == w) || WorkerWaits(states(m), w)
    ensures MovesAt(states, acts, m)
  {
    AlwaysHealthy(states, acts, m);
  }

  /** A fetcher with something to send sends it. */
  lemma BatchMoves(states: nat -> State, acts: nat -> Action, n: nat) returns (k: nat)
    requires Stays(states, acts) && Unstarved(states, acts)
    requires states(n).chan == [] && Batch(states(n).fetcher) != []
    ensures n <= k && MovesAt(states, acts, k)
  {
    AlwaysHealthy(states, acts, n);
    assert FetcherTurn(states, acts, n);
    var m: nat :| n <= m && (acts(m).Fetch? || FetcherWaits(states(m)));
    k := WaitUntil(states, acts, n, n, m);
    if k == m {
      FetcherCanMove(states, acts, m);
    }
  }

  lemma FetcherCanMove(states: nat -> State, acts: nat -> Action, m: nat)
    requires Stays(states, acts) && states(m).chan == [] && Batch(states(m).fetcher) != []
    requires acts(m).Fetch? || FetcherWaits(states(m))
    ensures MovesAt(states, acts, m)
  {
    AlwaysHealthy(states, acts, m);
  }

  /** With nothing queued, the fetcher steps again, or a message moves before. */
  lemma NextFetch(states: nat -> State, acts: nat -> Action, n: nat, j: nat) returns (k: nat)
    requires Stays(states, acts) && Unstarved(states, acts) && Waiting(states, n, j) && Queued(states(n)) == []
    ensures j <= k && Waiting(states, n, k) && (MovesAt(states, acts, k) || acts(k).Fetch?)
    ensures states(k).fetcher == states(j).fetcher
  {
    assert FetcherTurn(states, acts, j);
    var m: nat :| j <= m && (acts(m).Fetch? || FetcherWaits(states(m)));
    k := WaitFetch(states, acts, n, j, m);
    NoBatch(states(n), states(k));
  }

  lemma NoBatch(s: State, t: State)
    requires Still(s, t) && Queued(s) == []
    ensures !FetcherWaits(t) && (Unread(s) <==> Unread(t))
  {
  }

  /** With nothing queued and something unread, the fetcher gets to reading it. */
  lemma {:induction false} ReadMoves(states: nat -> State, acts: nat -> Action, n: nat, j: nat) returns (k: nat)
    requires Stays(states, acts) && Unstarved(states, acts) && Waiting(states, n, j) && Queued(states(n)) == []
    requires Unread(states(n))
    ensures n <= k && MovesAt(states, acts, k)
    decreases FetchRank(states(j).fetcher)
  {
    k := NextFetch(states, acts, n, j);
    if !MovesAt(states, acts, k) {
      NoBatch(states(n), states(k));
      WaitOn(states, acts, n, k);
      k := ReadMoves(states, acts, n, k + 1);
    }
  }

  /** Until the run is drained, a message moves again: whoever has it, moves it. */
  lemma Progress(states: nat -> State, acts: nat -> Action, n: nat) returns (k: nat)
    requires Stays(states, acts) && Unstarved(states, acts) && !Drained(states(n))
    ensures n <= k && MovesAt(states, acts, k)
  {
    var s := states(n);
    AlwaysHealthy(states, acts, n);
    if w :| 0 <= w < |s.workers| && s.workers[w].Busy() {
      k := BusyMoves(states, acts, n, w);
    } else if s.chan != [] {
      k := BusyMoves(states, acts, n, 0);
    } else if Batch(s.fetcher) != [] {
      k := BatchMoves(states, acts, n);
    } else {
      assert Queued(s) == [];
      k := ReadMoves(states, acts, n, n);
    }
  }

  /** Every such run drains, if nobody is starved. */
  lemma {:induction false} Drains(states: nat -> State, acts: nat -> Action, n: nat) returns (m: nat)
    requires Stays(states, acts) && Unstarved(states, acts)
    ensures n <= m && Drained(states(m))
    decreases WorkAt(states, n)
  {
    if Drained(states(n)) {
      m := n;
    } else {
      var k := Progress(states, acts, n);
      WorkNeverGrows(states, acts, n, k);
      WorkStep(states, acts, k);
      m := Drains(states, acts, k + 1);
    }
  }

  /**
   Everything is handled in the end. The run comes to a point where, in whatever scope no check may
   drop a task, every injection has succeeded or has been buried on the dead-letter stream.
  */
  lemma EverythingEnds(states: nat -> State, acts: nat -> Action, n: nat, cfg: Config) returns (m: nat)
    requires Stays(states, acts) && Unstarved(states, acts) && Reachable(cfg, states(0))
    ensures n <= m && Reachable(cfg, states(m)) && Drained(states(m))
    ensures forall sc: Scope :: Unkeyed(states(m), sc) ==>
              Count(states(m).injections, sc) == Sum(Wins, sc, states(m).journal) + Sum(Buries, sc, states(m).journal)
  {
    m := Drains(states, acts, n);
    AlwaysHealthy(states, acts, m);
    AllReachable(states, acts, cfg, m);
    forall sc: Scope | Unkeyed(states(m), sc)
      ensures Count(states(m).injections, sc) == Sum(Wins, sc, states(m).journal) + Sum(Buries, sc, states(m).journal)
    {
      DrainedEnds(cfg, states(m), sc);
    }
  }

  lemma {:induction false} AllReachable(states: nat -> State, acts: nat -> Action, cfg: Config, k: nat)
    requires Steps(states, acts) && Reachable(cfg, states(0))
    ensures Reachable(cfg, states(k))
  {
    if k > 0 {
      AllReachable(states, acts, cfg, k - 1);
      ReachesNext(states, acts, cfg, k - 1);
    }
  }

  lemma ReachesNext(states: nat -> State, acts: nat -> Action, cfg: Config, k: nat)
    requires Steps(states, acts) && Reachable(cfg, states(k))
    ensures Reachable(cfg, states(k + 1))
  {
    assert StepAt(states, acts, k);
    ReachableNext(cfg, states(k), acts(k));
  }
}
