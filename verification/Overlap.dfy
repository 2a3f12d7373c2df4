/**
 What overlapping replays, or one whose delete fails, do to the events of a task: a dead-letter entry
 put back twice makes two live copies, and the consumer's events then follow no single order.
*/
module Overlap {
  import opened Tasks
  import opened Queue
  import opened Handling
  import opened Scenarios
  import opened EventLanguage

  /* ---------- one attempt ---------- */

  /** The consumer is up; only `task` was ever produced, and its events so far lead to phase `p`. */
  ghost predicate Stage(cfg: Config, s: State, task: Task, p: Phase) {
    && Reachable(cfg, s) && s.cfg == cfg && cfg.workerCount >= 1 && |s.workers| >= 1
    && s.fetcher.Checking? && !s.cancelled && s.chan == [] && s.roots == [task] && s.deleted == {}
    && Heard(task, Word(s.hist, task.id)) == p
  }

  /** Where a step that stores nothing leads a worker. */
  function Then(x: Worker, a: WorkAction): Worker
    requires if a.Ack? then x.Acking? else x.Working?
  {
    match a
    case Publish => AfterPublish(x)
    case Call => x.(pc := InCall)
    case Answer(outcome) => x.(pc := if outcome.None? then AtCompleted else AtFailed(outcome.value))
    case _ => Idle
  }

  /** What such a step leaves alone. */
  ghost predicate Alike(s: State, t: State) {
    |t.journal| == |s.journal| && Grows(s.journal, t.journal) && t.cursor == s.cursor && t.replays == s.replays
  }

  /** Worker 0 takes its next step. */
  lemma Act(cfg: Config, s: State, task: Task, p: Phase, a: WorkAction) returns (t: State)
    requires Stage(cfg, s, task, p) && WorkEnabled(s, 0, a) && (a.Publish? || a.Call? || a.Answer? || a == Ack(Ok))
    ensures var said := a.Publish? && s.workers[0].task.id == task.id;
            Stage(cfg, t, task, if said then Hear(p, EventAt(s.workers[0].pc), Top(task)) else p)
    ensures t.workers[0] == Then(s.workers[0], a) && Alike(s, t)
  {
    t := Step(cfg, s, Work(0, a));
    ActHeard(cfg, s, task, a);
    ActMoves(s, a);
    assert WorkerFrame(s, t, 0);
  }

  lemma ActMoves(s: State, a: WorkAction)
    requires WorkEnabled(s, 0, a) && (a.Publish? || a.Call? || a.Answer? || a == Ack(Ok))
    ensures var t := WorkNext(s, 0, a);
            && |t.workers| == |s.workers| && t.workers[0] == Then(s.workers[0], a)
            && |t.journal| == |s.journal| && t.chan == s.chan
  {
  }

  lemma ActHeard(cfg: Config, s: State, task: Task, a: WorkAction)
    requires Reachable(cfg, s) && WorkEnabled(s, 0, a)
    requires a.Publish? || a.Call? || a.Answer? || a.Add? || a.Ack?
    ensures var said := a.Publish? && s.workers[0].task.id == task.id;
            var p := Heard(task, Word(s.hist, task.id));
            Heard(task, Word(WorkNext(s, 0, a).hist, task.id)) ==
            if said then Hear(p, EventAt(s.workers[0].pc), Top(task)) else p
  {
    ReachableInv(cfg, s);
    Knows(s, 0, a);
    WordWork(s, WorkNext(s, 0, a), 0, a, task.id);
    assert Word(s.hist, task.id) + [] == Word(s.hist, task.id);
    if a.Publish? {
      HearOneMore(Phase.Ready(RetriesLeft(task)), Word(s.hist, task.id), EventAt(s.workers[0].pc), Top(task));
    }
  }

  /** The task as it travels: only its error and its count of retries differ from what was produced. */
  predicate Same(t: Task, task: Task) {
    t.id == task.id && t.key == task.key && Top(t) == Top(task)
  }

  /** Worker 0 is at `x`, handling entry `i`. */
  ghost predicate Handles(cfg: Config, s: State, task: Task, p: Phase, x: Worker) {
    Stage(cfg, s, task, p) && s.workers[0] == x && x.Working? && Same(x.task, task)
  }

  /** The attempt is announced, and the processor called. */
  lemma Enter(cfg: Config, s: State, task: Task, i: nat, t0: Task, left: nat) returns (t: State)
    requires Handles(cfg, s, task, Phase.Ready(left), Working(i, t0, AtProcessing)) && i < |s.journal|
    ensures Handles(cfg, t, task, InAttempt(left), Working(i, t0, InCall)) && Alike(s, t)
  {
    t := Act(cfg, s, task, Phase.Ready(left), Publish);
    t := Act(cfg, t, task, InAttempt(left), Call);
  }

  /** The processor answers. */
  lemma Return(cfg: Config, s: State, task: Task, i: nat, t0: Task, left: nat, outcome: Option<string>)
    returns (t: State)
    requires Handles(cfg, s, task, InAttempt(left), Working(i, t0, InCall)) && i < |s.journal|
    ensures var pc := if outcome.None? then AtCompleted else AtFailed(outcome.value);
            Handles(cfg, t, task, InAttempt(left), Working(i, t0, pc)) && Alike(s, t)
  {
    t := Act(cfg, s, task, InAttempt(left), Answer(outcome));
  }

  /** The attempt succeeds, and the message is acknowledged. */
  lemma Succeed(cfg: Config, s: State, task: Task, i: nat, t0: Task, left: nat) returns (t: State)
    requires Handles(cfg, s, task, Phase.Ready(left), Working(i, t0, AtProcessing)) && i < |s.journal|
    ensures Stage(cfg, t, task, Finished) && t.workers[0].Idle? && Alike(s, t)
  {
    t := Enter(cfg, s, task, i, t0, left);
    t := Return(cfg, t, task, i, t0, left, None);
    t := Complete(cfg, t, task, i, t0, left);
  }

  lemma Complete(cfg: Config, s: State, task: Task, i: nat, t0: Task, left: nat) returns (t: State)
    requires Handles(cfg, s, task, InAttempt(left), Working(i, t0, AtCompleted)) && i < |s.journal|
    ensures Stage(cfg, t, task, Finished) && t.workers[0].Idle? && Alike(s, t)
  {
    t := Act(cfg, s, task, InAttempt(left), Publish);
    t := Act(cfg, t, task, Finished, Ack(Ok));
  }

  /** Where a failed attempt leaves the worker. */
  function Refused(i: nat, t0: Task): Worker {
    AfterPublish(Working(i, t0, AtFailed("")))
  }

  /** The failure is told. */
  lemma Fail(cfg: Config, s: State, task: Task, i: nat, t0: Task) returns (t: State)
    requires Handles(cfg, s, task, Phase.Ready(RetriesLeft(t0)), Working(i, t0, AtProcessing)) && i < |s.journal|
    ensures Handles(cfg, t, task, if RetriesLeft(t0) > 0 then Phase.Ready(RetriesLeft(t0) - 1) else Doomed,
                    Refused(i, t0))
    ensures Alike(s, t)
  {
    t := Enter(cfg, s, task, i, t0, RetriesLeft(t0));
    t := Return(cfg, t, task, i, t0, RetriesLeft(t0), Some(""));
    t := Act(cfg, t, task, InAttempt(RetriesLeft(t0)), Publish);
  }

  /* ---------- all attempts of a task fail ---------- */

  /** The newest entry, copy `t0`, waits to be read; worker 0 has nothing to do. */
  ghost predicate Waits(cfg: Config, s: State, task: Task, t0: Task) {
    && Stage(cfg, s, task, Phase.Ready(RetriesLeft(t0))) && s.workers[0].Idle? && s.replays == []
    && s.journal != [] && s.cursor == |s.journal| - 1 && s.journal[s.cursor].body == Encoded(t0) && Same(t0, task)
    && forall i :: 0 <= i < |s.journal| ==> s.journal[i].stream.Main?
  }

  lemma {:induction false} NoneOnMain(j: seq<Entry>, lo: nat, hi: nat)
    requires lo <= hi <= |j| && forall i :: lo <= i < hi ==> !j[i].stream.Main?
    ensures MainIds(j, lo, hi) == []
    decreases hi
  {
    if lo < hi {
      NoneOnMain(j, lo, hi - 1);
      IdsMore(j, lo, hi);
    }
  }

  /** Of the next `n` entries, only the last is on the main stream. */
  predicate OnlyLast(s: State, n: nat) {
    && 0 < n && s.cursor + n <= |s.journal| && s.journal[s.cursor + n - 1].stream.Main?
    && forall i :: s.cursor <= i < s.cursor + n - 1 ==> !s.journal[i].stream.Main?
  }

  lemma OneId(j: seq<Entry>, lo: nat, hi: nat)
    requires lo < hi <= |j| && j[hi - 1].stream.Main? && forall i :: lo <= i < hi - 1 ==> !j[i].stream.Main?
    ensures MainIds(j, lo, hi) == [hi - 1]
  {
    NoneOnMain(j, lo, hi - 1);
    IdsMore(j, lo, hi);
    assert [] + [hi - 1] == [hi - 1];
  }

  /** The next entry on the main stream is received. */
  lemma Receive(cfg: Config, s: State, task: Task, p: Phase, n: nat, t0: Task) returns (t: State)
    requires Stage(cfg, s, task, p) && s.workers[0].Idle? && OnlyLast(s, n)
    requires s.journal[s.cursor + n - 1].body == Encoded(t0) && Same(t0, task) && (!cfg.checker || task.key == "")
    ensures Handles(cfg, t, task, p, Working(s.cursor + n - 1, t0, AtProcessing))
    ensures t.journal == s.journal && t.cursor == s.cursor + n && t.replays == s.replays
  {
    OneId(s.journal, s.cursor, s.cursor + n);
    t := Deliver(cfg, s, n, s.cursor + n - 1);
  }

  /** The copy is stored. */
  lemma Store(cfg: Config, s: State, task: Task, p: Phase) returns (t: State)
    requires Stage(cfg, s, task, p) && WorkEnabled(s, 0, Add(Ok))
    ensures Stage(cfg, t, task, p) && t.workers[0].Acking? && t.cursor == s.cursor && t.replays == s.replays
    ensures Gains(s, t, if s.workers[0].pc.AtRequeue? then Main else Dlq, s.workers[0].task)
  {
    t := Step(cfg, s, Work(0, Add(Ok)));
    ActHeard(cfg, s, task, Add(Ok));
    assert WorkerFrame(s, t, 0);
  }

  /** One entry is new: `t0` on `stream`. */
  ghost predicate Gains(s: State, t: State, stream: Stream, t0: Task) {
    && |t.journal| == |s.journal| + 1 && Grows(s.journal, t.journal)
    && t.journal[|s.journal|].stream == stream && t.journal[|s.journal|].body == Encoded(t0)
  }

  /** The copy is stored, and the original acknowledged. */
  lemma PassOn(cfg: Config, s: State, task: Task, p: Phase) returns (t: State)
    requires Stage(cfg, s, task, p) && WorkEnabled(s, 0, Add(Ok))
    ensures Stage(cfg, t, task, p) && t.workers[0].Idle? && t.cursor == s.cursor && t.replays == s.replays
    ensures Gains(s, t, if s.workers[0].pc.AtRequeue? then Main else Dlq, s.workers[0].task)
  {
    t := Store(cfg, s, task, p);
    t := Act(cfg, t, task, p, Ack(Ok));
  }

  /** The entry that waits is received, and the attempt fails. */
  lemma Tried(cfg: Config, s: State, task: Task, t0: Task) returns (t: State)
    requires Waits(cfg, s, task, t0) && (!cfg.checker || task.key == "")
    ensures Handles(cfg, t, task, if RetriesLeft(t0) > 0 then Phase.Ready(RetriesLeft(t0) - 1) else Doomed,
                    Refused(s.cursor, t0))
    ensures |t.journal| == t.cursor == s.cursor + 1 && t.replays == []
    ensures forall i :: 0 <= i < |t.journal| ==> t.journal[i].stream.Main?
  {
    t := Receive(cfg, s, task, Phase.Ready(RetriesLeft(t0)), 1, t0);
    t := Fail(cfg, t, task, s.cursor, t0);
  }

  /** The copy is put back. */
  lemma Retried(cfg: Config, s: State, task: Task, t0: Task) returns (t: State, t1: Task)
    requires Waits(cfg, s, task, t0) && RetriesLeft(t0) > 0 && (!cfg.checker || task.key == "")
    ensures Waits(cfg, t, task, t1) && RetriesLeft(t1) == RetriesLeft(t0) - 1
  {
    t1 := t0.(error := "", currentRetries := t0.currentRetries + 1);
    var s1 := Tried(cfg, s, task, t0);
    t := PassOn(cfg, s1, task, Phase.Ready(RetriesLeft(t1)));
    WaitsAgain(cfg, s1, t, task, t1);
  }

  lemma WaitsAgain(cfg: Config, s: State, t: State, task: Task, t1: Task)
    requires Stage(cfg, t, task, Phase.Ready(RetriesLeft(t1))) && t.workers[0].Idle? && t.replays == []
    requires t.cursor == |s.journal| && Gains(s, t, Main, t1) && Same(t1, task)
    requires forall i :: 0 <= i < |s.journal| ==> s.journal[i].stream.Main?
    ensures Waits(cfg, t, task, t1)
  {
  }

  /** The newest entry is the task on the dead-letter stream; everything else has been read. */
  ghost predicate Buried(cfg: Config, s: State, task: Task) {
    && Stage(cfg, s, task, Phase.Ready(Top(task))) && s.workers[0].Idle? && s.replays == []
    && s.journal != [] && s.cursor == |s.journal| - 1 && s.journal[s.cursor].stream.Dlq?
    && s.journal[s.cursor].body.Encoded? && Same(s.journal[s.cursor].body.task, task)
    && forall i :: 0 <= i < s.cursor ==> s.journal[i].stream.Main?
  }

  /** The burial is told, and the copy stored on the dead-letter stream. */
  lemma Doom(cfg: Config, s: State, task: Task, t0: Task) returns (t: State)
    requires Waits(cfg, s, task, t0) && RetriesLeft(t0) == 0 && (!cfg.checker || task.key == "")
    ensures Buried(cfg, t, task)
  {
    var s1 := Tried(cfg, s, task, t0);
    s1 := TellBurial(cfg, s1, task);
    t := PassOn(cfg, s1, task, Phase.Ready(Top(task)));
    NowBuried(cfg, s1, t, task, t0.(error := ""));
  }

  lemma TellBurial(cfg: Config, s: State, task: Task) returns (t: State)
    requires Stage(cfg, s, task, Doomed) && s.workers[0].Working? && s.workers[0].pc.AtDlqEvent?
    requires s.workers[0].task.id == task.id && WorkEnabled(s, 0, Publish)
    requires forall i :: 0 <= i < |s.journal| ==> s.journal[i].stream.Main?
    ensures Stage(cfg, t, task, Phase.Ready(Top(task))) && t.workers[0] == s.workers[0].(pc := AtBury) && Alike(s, t)
    ensures forall i :: 0 <= i < |t.journal| ==> t.journal[i].stream.Main?
  {
    t := Act(cfg, s, task, Doomed, Publish);
  }

  lemma NowBuried(cfg: Config, s: State, t: State, task: Task, t1: Task)
    requires Stage(cfg, t, task, Phase.Ready(Top(task))) && t.workers[0].Idle? && t.replays == []
    requires t.cursor == |s.journal| && Gains(s, t, Dlq, t1) && Same(t1, task)
    requires forall i :: 0 <= i < |s.journal| ==> s.journal[i].stream.Main?
    ensures Buried(cfg, t, task)
  {
  }

  lemma {:induction false} Exhausted(cfg: Config, s: State, task: Task, t0: Task) returns (t: State)
    requires Waits(cfg, s, task, t0) && (!cfg.checker || task.key == "")
    ensures Buried(cfg, t, task)
    decreases RetriesLeft(t0)
  {
    if RetriesLeft(t0) > 0 {
      var s1, t1 := Retried(cfg, s, task, t0);
      t := Exhausted(cfg, s1, task, t1);
    } else {
      t := Doom(cfg, s, task, t0);
    }
  }

  /* ---------- two replays of one entry ---------- */

  /** Entry `d` is the only one on the dead-letter stream. */
  predicate OneDead(j: seq<Entry>, d: nat) {
    && d < |j| && j[d].stream.Dlq?
    && forall i :: 0 <= i < |j| && i != d ==> j[i].stream.Main?
  }

  lemma Single(ids: seq<nat>, d: nat)
    requires d in ids && (forall i :: i in ids ==> i == d) && forall a, b :: 0 <= a < b < |ids| ==> ids[a] < ids[b]
    ensures ids == [d]
  {
    var last := |ids| - 1;
    assert ids[0] in ids && ids[last] in ids;
    assert last == 0;
  }

  lemma OnlyDead(j: seq<Entry>, d: nat)
    requires OneDead(j, d)
    ensures DlqIds(j, {}, |j|) == [d]
  {
    Single(DlqIds(j, {}, |j|), d);
  }

  /** A request sees the only dead-letter entry `d`. */
  lemma Look(cfg: Config, s: State, task: Task, p: Phase, d: nat) returns (t: State)
    requires Stage(cfg, s, task, p) && OneDead(s.journal, d)
    ensures Stage(cfg, t, task, p) && t == s.(replays := s.replays + [Scanning([d], 0)])
  {
    OnlyDead(s.journal, d);
    t := Step(cfg, s, Retry(|s.replays|, Begin));
  }

  /** The next request puts the only dead-letter entry `d` back. */
  lemma PutBack(cfg: Config, s: State, task: Task, p: Phase, d: nat) returns (t: State)
    requires Stage(cfg, s, task, p) && OneDead(s.journal, d) && s.journal[d].body.Encoded?
    ensures Stage(cfg, t, task, p) && t.workers == s.workers && t.cursor == s.cursor
    ensures |t.replays| == |s.replays| + 1 && t.replays[|s.replays|].Deleting?
    ensures |t.journal| == |s.journal| + 1 && Grows(s.journal, t.journal) && t.journal[|s.journal|].stream.Main?
    ensures t.journal[|s.journal|].body == Encoded(s.journal[d].body.task.(currentRetries := 0))
  {
    var s1 := Look(cfg, s, task, p, d);
    ForwardTold(s1, |s.replays|, d);
    t := Step(cfg, s1, Retry(|s.replays|, Forward(Ok)));
  }

  lemma ForwardTold(s: State, r: nat, d: nat)
    requires r < |s.replays| && s.replays[r] == Scanning([d], 0) && d < |s.journal| && s.journal[d].body.Encoded?
    ensures RetryEnabled(s, r, Forward(Ok))
    ensures var t := RetryNext(s, r, Forward(Ok)); var e := s.journal[d];
            t == s.(journal := s.journal[d := e.(life := Replayed(|s.journal|))]
                     + [Entry(Main, Encoded(e.body.task.(currentRetries := 0)), |s.injections|, e.root, Fresh)],
                    injections := t.injections, replays := s.replays[r := Deleting(d, e.body.task.id, [], 0)])
  {
    assert [d][1..] == [];
  }

  /** Dead-letter entry `d` has been put back twice; neither copy has been read. */
  ghost predicate TwoCopies(cfg: Config, s: State, task: Task, d: nat) {
    && Stage(cfg, s, task, Phase.Ready(Top(task))) && s.workers[0].Idle? && |s.journal| == d + 3 && s.cursor == d
    && s.journal[d].stream.Dlq? && s.journal[d + 1].stream.Main? && s.journal[d + 2].stream.Main?
    && s.journal[d + 1].body.Encoded? && s.journal[d + 2].body.Encoded?
    && Same(s.journal[d + 1].body.task, task) && Same(s.journal[d + 2].body.task, task)
  }

  /** Dead-letter entry `d` has been put back, but is still there. */
  ghost predicate OneCopy(cfg: Config, s: State, task: Task, d: nat) {
    && Stage(cfg, s, task, Phase.Ready(Top(task))) && s.workers[0].Idle? && |s.journal| == d + 2 && s.cursor == d
    && OneDead(s.journal, d) && s.journal[d].body.Encoded? && Same(s.journal[d].body.task, task)
    && s.journal[d + 1].body.Encoded? && Same(s.journal[d + 1].body.task, task)
  }

  /** The first replay adds the copy, but its delete fails. */
  lemma Once(cfg: Config, s: State, task: Task) returns (t: State)
    requires Buried(cfg, s, task)
    ensures OneCopy(cfg, t, task, s.cursor)
  {
    t := PutBack(cfg, s, task, Phase.Ready(Top(task)), s.cursor);
    t := Step(cfg, t, Retry(0, Delete(Err(false))));
  }

  /** So a second one finds the entry again. */
  lemma Twice(cfg: Config, s: State, task: Task) returns (t: State)
    requires Buried(cfg, s, task)
    ensures TwoCopies(cfg, t, task, s.cursor)
  {
    t := Once(cfg, s, task);
    t := PutBack(cfg, t, task, Phase.Ready(Top(task)), s.cursor);
  }

  /* ---------- the events ---------- */

  /** The first of the two copies succeeds. */
  lemma FirstCopy(cfg: Config, s: State, task: Task, d: nat) returns (t: State)
    requires TwoCopies(cfg, s, task, d) && (!cfg.checker || task.key == "")
    ensures Stage(cfg, t, task, Finished) && t.workers[0].Idle? && |t.journal| == d + 3 && t.cursor == d + 2
    ensures t.journal[d + 2].stream.Main? && t.journal[d + 2].body == s.journal[d + 2].body
  {
    t := Receive(cfg, s, task, Phase.Ready(Top(task)), 2, s.journal[d + 1].body.task);
    t := Succeed(cfg, t, task, d + 1, s.journal[d + 1].body.task, Top(task));
  }

  /** The second is announced after the first has succeeded. */
  lemma SecondCopy(cfg: Config, s: State, task: Task, d: nat) returns (t: State)
    requires TwoCopies(cfg, s, task, d) && (!cfg.checker || task.key == "")
    ensures Stage(cfg, t, task, Broken)
  {
    t := FirstCopy(cfg, s, task, d);
    t := Receive(cfg, t, task, Finished, 1, s.journal[d + 2].body.task);
    t := Act(cfg, t, task, Finished, Publish);
  }

  lemma Produced(cfg: Config, task: Task) returns (s: State)
    requires cfg.workerCount >= 1
    ensures Waits(cfg, s, task, task)
  {
    s := StartUp(cfg);
    s := Step(cfg, s, Env(Produce(task, Ok)));
  }

  /**
   For every unkeyed task, a run that produces it once, lets every attempt fail, and puts its
   dead-letter entry back twice, because a delete failed in between: the events are no lifecycle.
  */
  lemma TwiceBreaks(cfg: Config, task: Task) returns (s: State)
    requires cfg.workerCount >= 1 && (!cfg.checker || task.key == "")
    ensures Reachable(cfg, s) && s.roots == [task]
    ensures !Lifecycle(Word(s.hist, task.id), RetriesLeft(task), Top(task))
  {
    s := Produced(cfg, task);
    s := Exhausted(cfg, s, task, task);
    var d := s.cursor;
    s := Twice(cfg, s, task);
    s := SecondCopy(cfg, s, task, d);
    AcceptedAreLifecycles(Word(s.hist, task.id), RetriesLeft(task), Top(task));
  }

  /* ---------- the exact condition ---------- */

  lemma RootsGrow(s: State, a: Action)
    requires Enabled(s, a)
    ensures s.roots <= Next(s, a).roots && Next(s, a).cfg == s.cfg
    ensures a.Env? && a.env.Produce? && a.env.reply.Landed() ==> Next(s, a).roots == s.roots + [a.env.task]
  {
    match a {
      case Fetch(f) => assert StoreFrame(s, FetchNext(s, f));
      case Boot(b) => assert StoreFrame(s, BootNext(s, b));
      case Env(e) => assert ProcessFrame(s, EnvNext(s, e));
      case Work(w, x) => assert WorkerFrame(s, WorkNext(s, w, x), w);
      case Retry(r, x) => assert ProcessFrame(s, RetryNext(s, r, x));
    }
  }

  lemma AloneBefore(s: State, a: Action, task: Task)
    requires Enabled(s, a) && Next(s, a).roots <= [task] && (!s.cfg.checker || task.key == "")
    ensures s.roots <= [task] && ProducedOnce(s, a, task.id)
  {
    RootsGrow(s, a);
    var roots := Next(s, a).roots;
    if a.Env? && a.env.Produce? && a.env.reply.Landed() {
      assert roots[|s.roots|] == a.env.task && [task][|s.roots|] == roots[|s.roots|];
    }
  }

  /** A run that ends with one produced task has produced it once. */
  lemma {:induction false} ProducedAlone(s: State, run: seq<Action>, task: Task)
    requires Valid(s, run) && Exec(s, run).roots == [task] && (!s.cfg.checker || task.key == "")
    ensures s.roots <= [task] && OnceProduced(s, run, task.id)
    decreases |run|
  {
    if run != [] {
      var t := Next(s, run[0]);
      RootsGrow(s, run[0]);
      ProducedAlone(t, run[1..], task);
      AloneBefore(s, run[0], task);
    }
  }

  /** Task `id` is produced once, unkeyed; unless `twice`, none of its dead-letter entries is put back twice. */
  predicate MayRun(cfg: Config, run: seq<Action>, id: string, twice: bool) {
    && Valid(Init(cfg), run) && OnceProduced(Init(cfg), run, id)
    && (twice || Orderly(Init(cfg), run, id))
  }

  /** The events for `task`, if the run produces it, form a lifecycle. */
  ghost predicate Ordered(cfg: Config, run: seq<Action>, task: Task)
    requires Valid(Init(cfg), run)
  {
    var s := Exec(Init(cfg), run);
    task in s.roots ==> Lifecycle(Word(s.hist, task.id), RetriesLeft(task), Top(task))
  }

  /**
   Exactly when the events of an unkeyed task form a lifecycle in all runs that produce it once:
   when no dead-letter entry of the task is put back twice.
  */
  lemma LifecyclesIffOnce(cfg: Config, task: Task, twice: bool)
    requires cfg.workerCount >= 1 && (!cfg.checker || task.key == "")
    ensures !twice <==> forall run :: MayRun(cfg, run, task.id, twice) ==> Ordered(cfg, run, task)
  {
    if twice {
      var s := TwiceBreaks(cfg, task);
      var run :| Valid(Init(cfg), run) && s == Exec(Init(cfg), run);
      ProducedAlone(Init(cfg), run, task);
      assert MayRun(cfg, run, task.id, twice) && !Ordered(cfg, run, task);
    } else {
      forall run | MayRun(cfg, run, task.id, twice)
        ensures Ordered(cfg, run, task)
      {
        var roots := Exec(Init(cfg), run).roots;
        if task in roots {
          var r :| 0 <= r < |roots| && roots[r] == task;
          EventsFormLifecycles(cfg, run, task.id, r);
        }
      }
    }
  }
}
