/** Runs built step by step, for statements that something can happen. */
module Scenarios {
  import opened Tasks
  import opened Queue

  lemma Step(cfg: Config, s: State, a: Action) returns (t: State)
    requires Reachable(cfg, s) && Enabled(s, a)
    ensures t == Next(s, a) && Reachable(cfg, t)
  {
    t := Next(s, a);
    ReachableNext(cfg, s, a);
  }

  /** The consumer is running, nothing is on its way, and worker 0 waits for a message. */
  ghost predicate Ready(cfg: Config, s: State) {
    && Reachable(cfg, s) && s.cfg == cfg && cfg.workerCount >= 1
    && s.fetcher.Checking? && !s.cancelled && s.chan == [] && |s.workers| >= 1 && s.workers[0].Idle?
  }

  /** `Start` up to the point where the fetcher and every worker run. */
  lemma StartUp(cfg: Config) returns (s: State)
    requires cfg.workerCount >= 1
    ensures Ready(cfg, s) && s == Init(cfg).(starter := Waiting, fetcher := Checking, workers := s.workers, wg := s.wg)
  {
    s := Init(cfg);
    assert Valid(s, []) && Exec(s, []) == s;
    s := Step(cfg, s, Boot(CreateGroup(Ok)));
    var n := cfg.workerCount;
    for k := 0 to n
      invariant Reachable(cfg, s) && |s.workers| == n
      invariant s == Init(cfg).(starter := Spawning(k), workers := s.workers, wg := k)
      invariant forall w :: 0 <= w < k ==> s.workers[w].Idle?
    {
      s := Step(cfg, s, Boot(Spawn));
    }
    s := Step(cfg, s, Boot(Spawn));
  }

  /** The next messages are read: only entry `i`. */
  lemma ReadOne(cfg: Config, s: State, n: nat, i: nat) returns (t: State)
    requires Ready(cfg, s) && s.cursor + n <= |s.journal| && MainIds(s.journal, s.cursor, s.cursor + n) == [i]
    ensures Reachable(cfg, t) && t == s.(cursor := s.cursor + n, fetcher := Dispatching([i]))
  {
    t := BeginRead(cfg, s);
    t := EndRead(cfg, t, n, [i]);
  }

  lemma BeginRead(cfg: Config, s: State) returns (t: State)
    requires Reachable(cfg, s) && s.fetcher.Checking? && !s.cancelled
    ensures Reachable(cfg, t) && t == s.(fetcher := Reading)
  {
    t := Step(cfg, s, Fetch(FCheck));
  }

  lemma EndRead(cfg: Config, s: State, n: nat, ids: seq<nat>) returns (t: State)
    requires Reachable(cfg, s) && s.fetcher.Reading? && s.cursor + n <= |s.journal|
    requires ids == MainIds(s.journal, s.cursor, s.cursor + n) && |ids| == 1
    ensures Reachable(cfg, t) && t == s.(cursor := s.cursor + n, fetcher := Dispatching(ids))
  {
    ReadGives(s, n, ids);
    t := Step(cfg, s, Fetch(FRead(n, Ok)));
  }

  lemma ReadGives(s: State, n: nat, ids: seq<nat>)
    requires s.fetcher.Reading? && s.cursor + n <= |s.journal| &&
             ids == MainIds(s.journal, s.cursor, s.cursor + n) && |ids| == 1
    ensures FetchEnabled(s, FRead(n, Ok))
    ensures Next(s, Fetch(FRead(n, Ok))) == s.(cursor := s.cursor + n, fetcher := Dispatching(ids))
  {
  }

  /** Entry `i` is sent. */
  lemma SendOne(cfg: Config, s: State, i: nat) returns (t: State)
    requires Reachable(cfg, s) && s.cfg == cfg && cfg.workerCount >= 1 && s.fetcher == Dispatching([i]) && s.chan == []
    ensures Reachable(cfg, t) && t == s.(fetcher := Checking, chan := [i])
  {
    t := Step(cfg, s, Fetch(FSend));
    t := Step(cfg, t, Fetch(FNext));
  }

  /** Entry `i`, a task, is read, sent and received by worker 0. */
  lemma Deliver(cfg: Config, s: State, n: nat, i: nat) returns (t: State)
    requires Ready(cfg, s) && s.cursor + n <= |s.journal| && MainIds(s.journal, s.cursor, s.cursor + n) == [i]
    requires i < |s.journal| && s.journal[i].body.Encoded?
    ensures Reachable(cfg, t)
    ensures var task := s.journal[i].body.task;
            t == s.(cursor := s.cursor + n, workers := s.workers[
                   0 := Working(i, task, if cfg.checker && task.key != "" then AtCheck else AtProcessing)])
  {
    t := ReadOne(cfg, s, n, i);
    t := SendOne(cfg, t, i);
    t := Step(cfg, t, Work(0, Take));
    assert t.chan == [];
  }

  /* ---------- the order of events ---------- */

  /** A `Processing` event of the task comes before its `Pending` event. */
  ghost predicate PendingComesLate(hist: seq<Obs>, id: string) {
    exists p, q :: 0 <= p < q < |hist| && hist[p] == Published(ProcessingEvent, id) &&
      hist[q] == Published(PendingEvent, id)
  }

  /** The task is produced and about to be announced; the consumer already announces its processing. */
  lemma ProcessingFirst(cfg: Config, task: Task) returns (s: State)
    requires cfg.workerCount >= 1
    ensures Reachable(cfg, s) && s.roots == [task] && s.announcing == multiset{task.id} && |s.workers| >= 1
    ensures s.workers[0] == Working(0, task, AtProcessing) && |s.journal| == 1
  {
    s := StartUp(cfg);
    s := Step(cfg, s, Env(Produce(task, Ok)));
    assert MainIds(s.journal, 0, 0) == [];
    s := Deliver(cfg, s, 1, 0);
    if s.workers[0].pc.AtCheck? {
      s := Step(cfg, s, Work(0, Check(Ok)));
    }
  }

  /** For every task and every consumer with a worker: `Pending` can come after `Processing`. */
  lemma PendingLate(cfg: Config, task: Task) returns (s: State)
    requires cfg.workerCount >= 1
    ensures Reachable(cfg, s) && s.roots == [task] && PendingComesLate(s.hist, task.id)
  {
    s := ProcessingFirst(cfg, task);
    var n := |s.hist|;
    s := Step(cfg, s, Work(0, Publish));
    s := Step(cfg, s, Env(Announce(task.id)));
    assert s.hist[n] == Published(ProcessingEvent, task.id) && s.hist[n + 1] == Published(PendingEvent, task.id);
  }
}
