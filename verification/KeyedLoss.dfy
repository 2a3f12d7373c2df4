/**
 What the idempotency check does to a task's own copies: the first attempt marks the key, and any
 later copy, put back by the worker or by a replay, is dropped as a duplicate of the first.
*/
module KeyedLoss {
  import opened Tasks
  import opened Queue
  import opened Lineage
  import opened Scenarios

  /* ---------- a run that loses a keyed task ---------- */

  /** A copy of a task whose key is marked is dropped. */
  lemma DropCopy(cfg: Config, s: State, n: nat, i: nat) returns (t: State)
    requires Ready(cfg, s) && s.cursor + n <= |s.journal| && MainIds(s.journal, s.cursor, s.cursor + n) == [i]
    requires i < |s.journal| && s.journal[i].body.Encoded? && cfg.checker && s.journal[i].body.task.key != ""
    requires s.journal[i].body.task.key in s.seen
    ensures Reachable(cfg, t) && t.roots == s.roots && t.acked == s.acked + {i} && t.deleted == s.deleted
    ensures t.journal == s.journal[i := s.journal[i].(life := Skipped)]
    ensures Won(t.hist, 0) ==> Won(s.hist, 0)
  {
    t := Deliver(cfg, s, n, i);
    t := Step(cfg, t, Work(0, Check(Ok)));
    t := Step(cfg, t, Work(0, Ack(Ok)));
    var key := s.journal[i].body.task.key;
    assert t.hist == s.hist + [Checked(key, Ok, false), AckedDuplicate(key)];
  }

  /** The only entry so far is the produced task, it has been delivered, and its key is marked. */
  ghost predicate OnlyAttempt(cfg: Config, s: State, task: Task) {
    && Reachable(cfg, s) && s.cfg == cfg && s.roots == [task] && |s.workers| >= 1 && cfg.workerCount >= 1
    && s.fetcher.Checking? && !s.cancelled && s.chan == [] && s.cursor == 1
    && |s.journal| == 1 && s.journal[0].body == Encoded(task) && s.journal[0].stream.Main? && s.journal[0].root == 0
    && s.acked == {} && s.deleted == {} && s.replays == [] && task.key in s.seen && !Won(s.hist, 0)
  }

  /** The task is produced, delivered, and its key is new. */
  lemma FirstDelivery(cfg: Config, task: Task) returns (s: State)
    requires cfg.workerCount >= 1 && cfg.checker && task.key != ""
    ensures OnlyAttempt(cfg, s, task) && s.workers[0] == Working(0, task, AtProcessing)
  {
    s := StartUp(cfg);
    s := Step(cfg, s, Env(Produce(task, Ok)));
    assert MainIds(s.journal, 0, 0) == [];
    s := Deliver(cfg, s, 1, 0);
    s := Step(cfg, s, Work(0, Check(Ok)));
    assert s.hist == [Checked(task.key, Ok, true)];
  }

  /** The processor fails, and the failure is told. */
  lemma FirstFailure(cfg: Config, task: Task) returns (s: State)
    requires cfg.workerCount >= 1 && cfg.checker && task.key != ""
    ensures OnlyAttempt(cfg, s, task)
    ensures s.workers[0] == if task.currentRetries < task.maxRetries
                            then Working(0, task.(error := "", currentRetries := task.currentRetries + 1), AtRequeue)
                            else Working(0, task.(error := ""), AtDlqEvent)
  {
    s := FirstDelivery(cfg, task);
    s := QuietStep(cfg, s, task, Publish);
    s := QuietStep(cfg, s, task, Call);
    s := QuietStep(cfg, s, task, Answer(Some("")));
    s := QuietStep(cfg, s, task, Publish);
  }

  lemma QuietStep(cfg: Config, s: State, task: Task, a: WorkAction) returns (t: State)
    requires OnlyAttempt(cfg, s, task) && WorkEnabled(s, 0, a)
    requires a.Publish? || a.Call? || (a.Answer? && a.outcome.Some?)
    ensures t == WorkNext(s, 0, a) && OnlyAttempt(cfg, t, task)
  {
    t := Step(cfg, s, Work(0, a));
    forall p | 0 <= p < |t.hist| && t.hist[p].Replied? && t.hist[p].success
      ensures t.hist[p].root != 0
    {
      assert p < |s.hist| ==> t.hist[p] == s.hist[p];
    }
  }

  /** A keyed task with retries left is put back on the stream. */
  lemma FirstRequeue(cfg: Config, task: Task) returns (s: State)
    requires cfg.workerCount >= 1 && cfg.checker && task.key != "" && RetriesLeft(task) > 0
    ensures Ready(cfg, s) && s.roots == [task] && task.key in s.seen && !Won(s.hist, 0) && s.cursor == 1
    ensures s.acked == {0} && |s.journal| == 2 && s.journal[0].stream.Main? && s.journal[1].stream.Main?
    ensures s.journal[1].body == Encoded(task.(error := "", currentRetries := task.currentRetries + 1))
    ensures MainIds(s.journal, s.cursor, s.cursor + 1) == [1]
  {
    s := FirstFailure(cfg, task);
    s := Step(cfg, s, Work(0, Add(Ok)));
    s := Step(cfg, s, Work(0, Ack(Ok)));
    assert MainIds(s.journal, 1, 1) == [];
  }

  /** The retry of a keyed task is dropped as a duplicate of its own first attempt. */
  lemma RetryLost(cfg: Config, task: Task) returns (s: State)
    requires cfg.workerCount >= 1 && cfg.checker && task.key != "" && RetriesLeft(task) > 0
    ensures Reachable(cfg, s) && s.roots == [task] && !Safe(s, 0)
  {
    s := FirstRequeue(cfg, task);
    s := DropCopy(cfg, s, 1, 1);
    assert forall i: nat :: !Kept(s, i);
  }

  /** A keyed task without retries left is put on the dead-letter stream. */
  lemma FirstBurial(cfg: Config, task: Task) returns (s: State)
    requires cfg.workerCount >= 1 && cfg.checker && task.key != "" && RetriesLeft(task) == 0
    ensures Ready(cfg, s) && s.roots == [task] && task.key in s.seen && !Won(s.hist, 0) && s.cursor == 1
    ensures s.acked == {0} && s.deleted == {} && s.replays == []
    ensures |s.journal| == 2 && s.journal[0].stream.Main? && s.journal[1].stream.Dlq?
    ensures s.journal[1].body == Encoded(task.(error := "")) && s.journal[1].root == 0
  {
    s := FirstFailure(cfg, task);
    s := QuietStep(cfg, s, task, Publish);
    s := Step(cfg, s, Work(0, Add(Ok)));
    s := Step(cfg, s, Work(0, Ack(Ok)));
  }

  /** The task has been buried and put back: entries 0, 1 and 2; only the last is undelivered. */
  ghost predicate PutBack(cfg: Config, s: State, task: Task) {
    && Ready(cfg, s) && s.roots == [task] && task.key in s.seen && !Won(s.hist, 0) && s.cursor == 1 && s.acked == {0}
    && |s.journal| == 3 && s.journal[0].stream.Main? && s.journal[1].stream.Dlq? && s.journal[2].stream.Main?
    && s.journal[2].body == Encoded(task.(error := "", currentRetries := 0))
  }

  /** A replay has seen the one dead-letter entry. */
  lemma ReplayBegun(cfg: Config, task: Task) returns (s: State)
    requires cfg.workerCount >= 1 && cfg.checker && task.key != "" && RetriesLeft(task) == 0
    ensures Ready(cfg, s) && s.roots == [task] && task.key in s.seen && !Won(s.hist, 0) && s.cursor == 1
    ensures s.acked == {0} && s.deleted == {} && s.replays == [Scanning([1], 0)]
    ensures |s.journal| == 2 && s.journal[0].stream.Main? && s.journal[1].stream.Dlq?
    ensures s.journal[1].body == Encoded(task.(error := "")) && s.journal[1].root == 0
  {
    s := FirstBurial(cfg, task);
    assert DlqIds(s.journal, {}, 0) == [] && DlqIds(s.journal, {}, 1) == [] && DlqIds(s.journal, {}, 2) == [1];
    s := Step(cfg, s, Retry(0, Begin));
  }

  /** The dead-letter entry is put back and deleted. */
  lemma Replayed(cfg: Config, task: Task) returns (s: State)
    requires cfg.workerCount >= 1 && cfg.checker && task.key != "" && RetriesLeft(task) == 0
    ensures PutBack(cfg, s, task) && s.deleted == {1}
  {
    s := ReplayBegun(cfg, task);
    s := Step(cfg, s, Retry(0, Forward(Ok)));
    assert PutBack(cfg, s, task) && s.replays[0].Deleting? && s.replays[0].entry == 1 && s.deleted == {};
    s := Step(cfg, s, Retry(0, Delete(Ok)));
  }

  lemma LastOnly(s: State)
    requires s.cursor == 1 && |s.journal| == 3 && s.journal[1].stream.Dlq? && s.journal[2].stream.Main?
    ensures MainIds(s.journal, s.cursor, s.cursor + 2) == [2]
  {
    assert MainIds(s.journal, 1, 1) == [] && MainIds(s.journal, 1, 2) == [] && MainIds(s.journal, 1, 3) == [2];
  }

  /** Every entry is gone, and there was no success. */
  lemma NothingLeft(s: State)
    requires |s.journal| == 3 && s.journal[0].stream.Main? && s.journal[1].stream.Dlq? && s.journal[2].stream.Main?
    requires 0 in s.acked && 1 in s.deleted && 2 in s.acked && !Won(s.hist, 0)
    ensures !Safe(s, 0)
  {
    assert forall i: nat :: !Kept(s, i);
  }

  /** The replay of a keyed task is dropped as a duplicate of its own first attempt. */
  lemma ReplayLost(cfg: Config, task: Task) returns (s: State)
    requires cfg.workerCount >= 1 && cfg.checker && task.key != "" && RetriesLeft(task) == 0
    ensures Reachable(cfg, s) && s.roots == [task] && !Safe(s, 0)
  {
    s := Replayed(cfg, task);
    LastOnly(s);
    s := DropCopy(cfg, s, 2, 2);
    NothingLeft(s);
  }

  /**
   The exact condition of no loss: a consumer with a worker keeps a task, in every run, if and
   only if it has no idempotency checker or the task has no key. With both, one failure and the
   queue's own retry or replay lose the task, though it was produced once and nothing broke.
  */
  lemma KeptIffUnkeyed(cfg: Config, task: Task)
    requires cfg.workerCount >= 1
    ensures !cfg.checker || task.key == "" <==>
            forall s, r: nat :: Reachable(cfg, s) && r < |s.roots| && s.roots[r] == task ==> Safe(s, r)
  {
    if !cfg.checker || task.key == "" {
      forall s, r: nat | Reachable(cfg, s) && r < |s.roots| && s.roots[r] == task
        ensures Safe(s, r)
      {
        NoLoss(cfg, s, r);
      }
    } else {
      var s: State;
      if RetriesLeft(task) > 0 {
        s := RetryLost(cfg, task);
      } else {
        s := ReplayLost(cfg, task);
      }
      assert s.roots[0] == task && !Safe(s, 0);
    }
  }
}
