/**
 The code of a worker and of the fetcher as the sequential programs they are, in the middle of
 everything else: every remote call of a program is an enabled step of the state machine, and before
 every call the rest of the system may take any steps of its own, as a schedule decides.
*/
module WorkerCode {
  import opened Tasks
  import opened Queue
  import opened Handling
  import opened Sequences

  /** How the processor ends. */
  datatype Outcome = Nil | Fails(cause: string) | Panics

  /** What the remote calls made for one message reply. */
  datatype Replies = Replies(check: Reply, outcome: Outcome, add: Reply, ack: Reply)

  /** What becomes of a message. */
  datatype Verdict = Drop | Succeed | Requeue(copy: Task) | Bury(copy: Task) | Abandon

  /** `isNew` is what the idempotency check found, if one was made. */
  predicate IsDuplicate(checker: bool, t: Task, isNew: bool, r: Replies) {
    checker && t.key != "" && r.check.Ok? && !isNew
  }

  function Judge(checker: bool, body: Body, isNew: bool, r: Replies): Verdict {
    match Decode(body)
    case None => Drop
    case Some(t) => if IsDuplicate(checker, t, isNew, r) then Drop else Attempted(t, r)
  }

  /** What becomes of a task that is processed. */
  function Attempted(t: Task, r: Replies): Verdict {
    match r.outcome
    case Nil => Succeed
    case Fails(cause) => Refuse(t, cause)
    case Panics => Abandon
  }

  /** What becomes of a task whose processing failed. */
  function Refuse(t: Task, cause: string): Verdict {
    if t.currentRetries < t.maxRetries then Requeue(t.(error := cause, currentRetries := t.currentRetries + 1))
    else Bury(t.(error := cause))
  }

  /** The handling gets as far as an acknowledgement that takes effect. */
  predicate Acknowledged(v: Verdict, r: Replies) {
    !v.Abandon? && (v.Drop? || v.Succeed? || r.add.Ok?) && r.ack.Landed()
  }

  /** The copy at `to` is there. */
  predicate StoredAt(j: seq<Entry>, to: nat, stream: Stream, copy: Task) {
    to < |j| && j[to].stream == stream && j[to].body == Encoded(copy)
  }

  /** Where entry `i` has been left. */
  predicate Ended(s: State, i: nat, v: Verdict, r: Replies) {
    && i < |s.journal| && (i in s.acked <==> Acknowledged(v, r))
    && var life := s.journal[i].life;
    match v
    case Drop => life.Skipped?
    case Succeed => life.Completed?
    case Abandon => life.Called?
    case Requeue(copy) =>
      if r.add.Landed() then life.Requeued? && StoredAt(s.journal, life.to, Main, copy) else life.RetryDue?
    case Bury(copy) =>
      if r.add.Landed() then life.Buried? && StoredAt(s.journal, life.to, Dlq, copy) else life.BuryTold?
  }

  /* ---------- the calls of one message, in order ---------- */

  /** A task that is not checked is taken for new. */
  lemma Unchecked(checker: bool, t: Task, r: Replies)
    requires !checker || t.key == ""
    ensures Judge(checker, Encoded(t), true, r) == Attempted(t, r)
    ensures TaskCalls(checker, t, true, r) == NewCalls(t, r)
  {
  }

  function AfterAdd(r: Replies): seq<WorkAction> {
    if r.add.Ok? then [Ack(r.ack)] else []
  }

  /** The failure is told; then the copy is stored, the burial of a task being told before. */
  function FailureCalls(t: Task, r: Replies): seq<WorkAction> {
    [Publish] + ((if t.currentRetries < t.maxRetries then [Add(r.add)] else [Publish, Add(r.add)]) + AfterAdd(r))
  }

  function NewCalls(t: Task, r: Replies): seq<WorkAction> {
    match r.outcome
    case Nil => [Publish] + [Call, Answer(None)] + [Publish, Ack(r.ack)]
    case Fails(cause) => [Publish] + [Call, Answer(Some(cause))] + FailureCalls(t, r)
    case Panics => [Publish] + [Call, Crash]
  }

  function TaskCalls(checker: bool, t: Task, isNew: bool, r: Replies): seq<WorkAction> {
    (if checker && t.key != "" then [Check(r.check)] else [])
    + if IsDuplicate(checker, t, isNew, r) then [Ack(r.ack)] else NewCalls(t, r)
  }

  function Calls(checker: bool, body: Body, isNew: bool, r: Replies): seq<WorkAction> {
    match Decode(body)
    case None => [Take] + [Ack(r.ack)]
    case Some(t) => [Take] + TaskCalls(checker, t, isNew, r)
  }

  /** The steps of worker `w` in a run. */
  function Own(run: seq<Action>, w: nat): seq<WorkAction> {
    if run == [] then []
    else
      var a := run[|run| - 1];
      Own(run[..|run| - 1], w) + if a.Work? && a.w == w then [a.work] else []
  }

  lemma OwnMore(run: seq<Action>, a: Action, w: nat)
    ensures Own(run + [a], w) == Own(run, w) + if a.Work? && a.w == w then [a.work] else []
  {
    assert (run + [a])[..|run|] == run;
  }

  /* ---------- the rest of the system ---------- */

  /** What the others do next, at a state. */
  type Schedule = (nat, State) -> seq<Action>

  predicate NotBy(run: seq<Action>, w: nat) {
    forall k :: 0 <= k < |run| ==> !(run[k].Work? && run[k].w == w)
  }

  predicate NotFetching(run: seq<Action>) {
    forall k :: 0 <= k < |run| ==> !run[k].Fetch?
  }

  /** The schedule is for the others of worker `w`. */
  ghost predicate OthersOf(env: Schedule, w: nat) {
    forall k, t: State :: Valid(t, env(k, t)) && NotBy(env(k, t), w)
  }

  /** The schedule is for the others of the fetcher. */
  ghost predicate OthersOfFetcher(env: Schedule) {
    forall k, t: State :: Valid(t, env(k, t)) && NotFetching(env(k, t))
  }

  /** The others leave a worker and the message in its hands alone. */
  lemma HandsOff(s: State, a: Action, w: nat)
    requires Inv(s) && Enabled(s, a) && w < |s.workers| && s.workers[w].Busy() && !(a.Work? && a.w == w)
    ensures var t := Next(s, a); var i := s.workers[w].id;
            && |t.workers| == |s.workers| && t.workers[w] == s.workers[w] && i < |s.journal| <= |t.journal|
            && t.journal[i] == s.journal[i] && i !in t.acked && Grows(s.journal, t.journal)
  {
    Held(s, w);
    match a {
      case Env(e) => assert ProcessFrame(s, EnvNext(s, e));
      case Boot(b) =>
        assert s.workers[w].Busy() ==> !s.workers[w].Unstarted?;
      case Fetch(f) =>
      case Retry(r, x) =>
        if x.Forward? {
          ForwardFits(s, r, x.reply);
        }
      case Work(v, x) => WorkHandsOff(s, v, x, w);
    }
  }

  lemma WorkHandsOff(s: State, v: nat, a: WorkAction, w: nat)
    requires Inv(s) && WorkEnabled(s, v, a) && v != w && w < |s.workers| && s.workers[w].Busy()
    ensures var t := WorkNext(s, v, a); var i := s.workers[w].id;
            && |t.workers| == |s.workers| && t.workers[w] == s.workers[w] && i < |s.journal| <= |t.journal|
            && t.journal[i] == s.journal[i] && i !in t.acked && Grows(s.journal, t.journal)
  {
    Held(s, w);
    if !a.Exit? {
      LocalWork(s, v, a);
      SubjectDelivered(s, v, a);
      if a.Take? {
        assert s.chan[0] in Queued(s);
      }
    }
    assert Transfers(s, WorkNext(s, v, a), v, HowTransferred(a));
  }

  /** The others leave the fetcher and what it has read alone. */
  lemma FetcherHandsOff(s: State, a: Action)
    requires Inv(s) && Enabled(s, a) && !a.Fetch? && !s.fetcher.Unborn?
    ensures var t := Next(s, a);
            && t.fetcher == s.fetcher && t.cursor == s.cursor && t.cfg == s.cfg && (s.cancelled ==> t.cancelled)
            && Grows(s.journal, t.journal)
  {
    match a {
      case Env(e) => assert ProcessFrame(s, EnvNext(s, e));
      case Retry(r, x) => assert ProcessFrame(s, RetryNext(s, r, x));
      case Work(w, x) => assert WorkerFrame(s, WorkNext(s, w, x), w);
      case _ =>
    }
  }

  /** What the read range holds does not change while the journal grows. */
  lemma {:induction false} SameIds(j: seq<Entry>, k: seq<Entry>, lo: nat, hi: nat)
    requires lo <= hi <= |j| && Grows(j, k)
    ensures MainIds(k, lo, hi) == MainIds(j, lo, hi)
    decreases hi
  {
    if lo < hi {
      SameIds(j, k, lo, hi - 1);
      IdsMore(j, lo, hi);
      IdsMore(k, lo, hi);
    }
  }

  /** The entries that a read of `n` would deliver. */
  function Ahead(s: State, n: nat): seq<nat> {
    if s.cursor + n <= |s.journal| then MainIds(s.journal, s.cursor, s.cursor + n) else []
  }

  /** The next `n` entries may be read, in reply `reply`. */
  predicate Readable(s: State, n: nat, reply: Reply) {
    && s.cursor + n <= |s.journal|
    && (0 < s.cfg.batch ==> |Ahead(s, n)| <= s.cfg.batch)
    && (reply.Landed() || n == 0)
  }

  lemma SameRead(s: State, t: State, n: nat, reply: Reply)
    requires Readable(s, n, reply) && t.cursor == s.cursor && t.cfg == s.cfg && Grows(s.journal, t.journal)
    ensures Readable(t, n, reply) && Ahead(t, n) == Ahead(s, n)
  {
    SameIds(s.journal, t.journal, s.cursor, s.cursor + n);
  }

  lemma ReadTold(s: State, n: nat, reply: Reply)
    requires s.fetcher.Reading? && Readable(s, n, reply)
    ensures FetchEnabled(s, FRead(n, reply))
    ensures var t := Next(s, Fetch(FRead(n, reply)));
            && t.cursor == s.cursor + n && t.cancelled == s.cancelled
            && t.fetcher == if reply.Ok? then Dispatching(Ahead(s, n)) else if s.cancelled then Closing else Checking
  {
  }

  /** How a turn of the fetcher ends: the loop goes on, the fetcher stops, or it waits for room. */
  datatype Status = Continue | Stopped | Blocked

  lemma OneSent(sent: seq<nat>, messages: seq<nat>, i: nat)
    requires i < |messages|
    ensures messages[i..] != [] && messages[i..][0] == messages[i] && messages[i..][1..] == messages[i + 1..]
    ensures (sent + messages[..i]) + [messages[i]] == sent + messages[..i + 1]
  {
  }

  class Consumer {
    var s: State
    ghost const cfg: Config
    ghost var run: seq<Action>
    ghost var sent: seq<nat>

    constructor (cfg: Config)
      ensures s == Init(cfg) && run == [] && sent == [] && Valid()
    {
      this.s := Init(cfg);
      this.cfg := cfg;
      run := [];
      sent := [];
    }

    /** The state is where a run of the machine has led. */
    ghost predicate Valid()
      reads this
    {
      Queue.Valid(Init(cfg), run) && s == Exec(Init(cfg), run)
    }

    lemma Invariant()
      requires Valid()
      ensures Inv(s) && s.cfg == cfg
    {
      InvInit(cfg);
      InvRun(Init(cfg), run);
      ConfigRun(Init(cfg), run);
    }

    lemma ConfigIs()
      requires Valid()
      ensures s.cfg == cfg
    {
      ConfigRun(Init(cfg), run);
    }

    /** One step of the machine; a remote call of worker `w` when it is `Work(w, _)`. */
    method Do(a: Action)
      requires Valid() && Enabled(s, a)
      modifies this
      ensures Valid() && s == Next(old(s), a) && run == old(run) + [a]
      ensures sent == old(sent) + if a == Fetch(FSend) then [old(s).fetcher.batch[0]] else []
    {
      OneMore(Init(cfg), run, a);
      sent := sent + if a == Fetch(FSend) then [s.fetcher.batch[0]] else [];
      s := Next(s, a);
      run := run + [a];
    }

    /** Worker `w` is at `x` with entry `e` in its hands. */
    ghost predicate At(w: nat, x: Worker, e: Entry)
      reads this
    {
      && Valid() && w < |s.workers| && s.workers[w] == x && x.Busy()
      && x.id < |s.journal| && s.journal[x.id] == e && x.id !in s.acked
    }

    /** The others take their steps; worker `w` and its message are left alone. */
    method Wait(w: nat, env: Schedule, k: nat, ghost x: Worker, ghost e: Entry)
      requires At(w, x, e) && OthersOf(env, w)
      modifies this
      ensures At(w, x, e) && Own(run, w) == old(Own(run, w)) && Grows(old(s).journal, s.journal)
    {
      var steps := env(k, s);
      assert steps[0..] == steps;
      for n := 0 to |steps|
        invariant At(w, x, e) && Own(run, w) == old(Own(run, w)) && Grows(old(s).journal, s.journal)
        invariant Queue.Valid(s, steps[n..])
      {
        assert steps[n..][0] == steps[n] && steps[n..][1..] == steps[n + 1..];
        Invariant();
        HandsOff(s, steps[n], w);
        OwnMore(run, steps[n], w);
        Do(steps[n]);
      }
    }

    ghost predicate Freed(w: nat)
      reads this
    {
      Valid() && w < |s.workers| && s.workers[w] == Idle
    }

    /* ---------- the remote calls of a worker ---------- */

    /** Receive from the channel. */
    method Receive(w: nat)
      requires Valid() && WorkEnabled(s, w, Take)
      modifies this
      ensures var i := old(s).chan[0]; i < |old(s).journal| && var e := old(s).journal[i];
              match Decode(e.body)
              case None => At(w, Acking(i, Malformed), e.(life := Skipped))
              case Some(t) => At(w, Working(i, t, if cfg.checker && t.key != "" then AtCheck else AtProcessing), e)
      ensures Own(run, w) == old(Own(run, w)) + [Take]
    {
      Invariant();
      Head(s);
      OwnMore(run, Work(w, Take), w);
      Do(Work(w, Take));
    }

    /** Ask the idempotency checker; a check that takes effect marks the key. */
    method CheckKey(w: nat, reply: Reply, env: Schedule, k: nat, ghost x: Worker, ghost e: Entry) returns (isNew: bool)
      requires At(w, x, e) && OthersOf(env, w) && x.Working? && x.pc.AtCheck?
      modifies this
      ensures At(w, if reply.Ok? && !isNew then Acking(x.id, Duplicate(x.task.key)) else x.(pc := AtProcessing),
                 if reply.Ok? && !isNew then e.(life := Skipped) else e)
      ensures reply.Landed() ==> x.task.key in s.seen
      ensures s.hist != [] && s.hist[|s.hist| - 1] == Checked(x.task.key, reply, isNew)
      ensures Own(run, w) == old(Own(run, w)) + [Check(reply)]
    {
      Wait(w, env, k, x, e);
      OwnMore(run, Work(w, Check(reply)), w);
      isNew := s.workers[w].task.key !in s.seen;
      Do(Work(w, Check(reply)));
    }

    static function PublishedLife(x: Worker): Life
      requires x.Working?
    {
      match x.pc
      case AtProcessing => Announced
      case AtFailed(_) => if x.task.currentRetries < x.task.maxRetries then RetryDue else BuryDue
      case AtDlqEvent => BuryTold
      case _ => Completed
    }

    static predicate Publishes(x: Worker) {
      x.Working? && (x.pc.AtProcessing? || x.pc.AtFailed? || x.pc.AtDlqEvent? || x.pc.AtCompleted?)
    }

    static lemma PublishMoves(s: State, w: nat)
      requires Stands(s, w) && Publishes(s.workers[w])
      ensures var t := PublishNext(s, w); var x := s.workers[w];
              && t.workers == s.workers[w := AfterPublish(x)] && t.acked == s.acked
              && t.journal == s.journal[x.id := s.journal[x.id].(life := PublishedLife(x))]
              && t.hist == s.hist + [Published(EventAt(x.pc), x.task.id)]
    {
    }

    /** Attempt to publish; a failure is ignored. */
    method PublishEvent(w: nat, env: Schedule, k: nat, ghost x: Worker, ghost e: Entry)
      requires At(w, x, e) && OthersOf(env, w) && Publishes(x)
      modifies this
      ensures At(w, AfterPublish(x), e.(life := PublishedLife(x)))
      ensures s.hist != [] && s.hist[|s.hist| - 1] == Published(EventAt(x.pc), x.task.id)
      ensures Own(run, w) == old(Own(run, w)) + [Publish]
    {
      Wait(w, env, k, x, e);
      OwnMore(run, Work(w, Publish), w);
      PublishMoves(s, w);
      Do(Work(w, Publish));
    }

    method EnterProcessor(w: nat, env: Schedule, k: nat, ghost x: Worker, ghost e: Entry)
      requires At(w, x, e) && OthersOf(env, w) && x.Working? && x.pc.AtCall?
      modifies this
      ensures At(w, x.(pc := InCall), e.(life := Called)) && Own(run, w) == old(Own(run, w)) + [Call]
    {
      Wait(w, env, k, x, e);
      OwnMore(run, Work(w, Call), w);
      Do(Work(w, Call));
    }

    method LeaveProcessor(w: nat, outcome: Option<string>, env: Schedule, k: nat, ghost x: Worker, ghost e: Entry)
      requires At(w, x, e) && OthersOf(env, w) && x.Working? && x.pc.InCall?
      modifies this
      ensures At(w, x.(pc := if outcome.None? then AtCompleted else AtFailed(outcome.value)),
                 e.(life := if outcome.None? then Succeeded else Failed))
      ensures Own(run, w) == old(Own(run, w)) + [Answer(outcome)]
    {
      Wait(w, env, k, x, e);
      OwnMore(run, Work(w, Answer(outcome)), w);
      Do(Work(w, Answer(outcome)));
    }

    /** The processor panics: the worker is gone, and the message stays pending. */
    method Panic(w: nat, env: Schedule, k: nat, ghost x: Worker, ghost e: Entry)
      requires At(w, x, e) && OthersOf(env, w) && x.Working? && x.pc.AtCall?
      modifies this
      ensures Valid() && w < |s.workers| && s.workers[w] == Crashed
      ensures x.id < |s.journal| && s.journal[x.id] == e.(life := Called) && x.id !in s.acked
      ensures Own(run, w) == old(Own(run, w)) + [Call, Crash]
    {
      EnterProcessor(w, env, k, x, e);
      Wait(w, env, k + 1, x.(pc := InCall), e.(life := Called));
      OwnMore(run, Work(w, Crash), w);
      Do(Work(w, Crash));
    }

    /** Run the processor. */
    method Process(w: nat, outcome: Option<string>, env: Schedule, k: nat, ghost x: Worker, ghost e: Entry)
      requires At(w, x, e) && OthersOf(env, w) && x.Working? && x.pc.AtCall?
      modifies this
      ensures At(w, x.(pc := if outcome.None? then AtCompleted else AtFailed(outcome.value)),
                 e.(life := if outcome.None? then Succeeded else Failed))
      ensures Own(run, w) == old(Own(run, w)) + [Call, Answer(outcome)]
    {
      EnterProcessor(w, env, k, x, e);
      LeaveProcessor(w, outcome, env, k + 1, x.(pc := InCall), e.(life := Called));
    }

    /** Store a copy of the task. If the store reports an error, the message is dropped where it is. */
    method AddCopy(w: nat, reply: Reply, env: Schedule, k: nat, ghost x: Worker, ghost e: Entry) returns (ghost to: nat)
      requires At(w, x, e) && OthersOf(env, w) && x.Working? && (x.pc.AtRequeue? || x.pc.AtBury?)
      modifies this
      ensures Valid() && Own(run, w) == old(Own(run, w)) + [Add(reply)]
      ensures reply.Landed() ==> StoredAt(s.journal, to, if x.pc.AtRequeue? then Main else Dlq, x.task)
      ensures var life := if !reply.Landed() then e.life else if x.pc.AtRequeue? then Requeued(to) else Buried(to);
              if reply.Ok? then At(w, Acking(x.id, Copied), e.(life := life))
              else LeftAt(w, x.id, e.(life := life), false)
    {
      Wait(w, env, k, x, e);
      OwnMore(run, Work(w, Add(reply)), w);
      to := |s.journal|;
      Do(Work(w, Add(reply)));
    }

    /** Worker `w` is free again, and has left entry `i` as `e`, acknowledged or not. */
    ghost predicate LeftAt(w: nat, i: nat, e: Entry, acknowledged: bool)
      reads this
    {
      && Freed(w)
      && i < |s.journal| && s.journal[i] == e && (i in s.acked <==> acknowledged)
    }

    /** Acknowledge the message. */
    method Acknowledge(w: nat, reply: Reply, env: Schedule, k: nat, ghost x: Worker, ghost e: Entry)
      requires At(w, x, e) && OthersOf(env, w) && x.Acking?
      modifies this
      ensures LeftAt(w, x.id, e, reply.Landed()) && Own(run, w) == old(Own(run, w)) + [Ack(reply)]
      ensures Grows(old(s).journal, s.journal)
    {
      Wait(w, env, k, x, e);
      OwnMore(run, Work(w, Ack(reply)), w);
      Do(Work(w, Ack(reply)));
    }

    /* ---------- the code of a worker ---------- */

    /** Store the copy; if that worked, acknowledge the original. */
    method StoreAndAcknowledge(w: nat, x: Worker, r: Replies, env: Schedule, k: nat, ghost e: Entry)
      requires At(w, x, e) && OthersOf(env, w) && x.Working?
      requires (x.pc.AtRequeue? && e.life.RetryDue?) || (x.pc.AtBury? && e.life.BuryTold?)
      modifies this
      ensures Freed(w) && Ended(s, x.id, if x.pc.AtRequeue? then Requeue(x.task) else Bury(x.task), r)
      ensures Own(run, w) == old(Own(run, w)) + ([Add(r.add)] + AfterAdd(r))
    {
      ghost var to := AddCopy(w, r.add, env, k, x, e);
      if r.add.Err? {
        return;
      }
      Acknowledge(w, r.ack, env, k + 1, Acking(x.id, Copied),
                  e.(life := if x.pc.AtRequeue? then Requeued(to) else Buried(to)));
    }

    /** Tell of the burial, store the task on the dead-letter stream, then acknowledge if that worked. */
    method BuryTask(w: nat, t: Task, i: nat, r: Replies, env: Schedule, k: nat, ghost e: Entry)
      requires At(w, Working(i, t, AtDlqEvent), e) && OthersOf(env, w)
      modifies this
      ensures Freed(w) && Ended(s, i, Bury(t), r)
      ensures Own(run, w) == old(Own(run, w)) + ([Publish, Add(r.add)] + AfterAdd(r))
    {
      ghost var own := Own(run, w);
      PublishEvent(w, env, k, Working(i, t, AtDlqEvent), e);
      StoreAndAcknowledge(w, Working(i, t, AtBury), r, env, k + 1, e.(life := BuryTold));
      Assoc(own, [Publish], [Add(r.add)] + AfterAdd(r));
      assert [Publish] + ([Add(r.add)] + AfterAdd(r)) == [Publish, Add(r.add)] + AfterAdd(r);
    }

    /** Store a copy of a failed task, and acknowledge the original if that worked. */
    method HandleTaskFailure(w: nat, task: Task, i: nat, cause: string, r: Replies, env: Schedule, ghost e: Entry)
      requires At(w, Working(i, task, AtFailed(cause)), e) && OthersOf(env, w)
      modifies this
      ensures Freed(w) && Ended(s, i, Refuse(task, cause), r)
      ensures Own(run, w) == old(Own(run, w)) + FailureCalls(task, r)
    {
      ghost var own := Own(run, w);
      PublishEvent(w, env, 6, Working(i, task, AtFailed(cause)), e);
      var t := task;
      t := t.(error := cause);
      if t.currentRetries < t.maxRetries {
        t := t.(currentRetries := t.currentRetries + 1);
        StoreAndAcknowledge(w, Working(i, t, AtRequeue), r, env, 7, e.(life := RetryDue));
        Assoc(own, [Publish], [Add(r.add)] + AfterAdd(r));
      } else {
        BuryTask(w, t, i, r, env, 7, e.(life := BuryDue));
        Assoc(own, [Publish], [Publish, Add(r.add)] + AfterAdd(r));
      }
    }

    /** Tell of the success and acknowledge the message. */
    method Complete(w: nat, t: Task, i: nat, r: Replies, env: Schedule, ghost e: Entry)
      requires At(w, Working(i, t, AtCompleted), e) && OthersOf(env, w)
      modifies this
      ensures Freed(w) && Ended(s, i, Succeed, r)
      ensures Own(run, w) == old(Own(run, w)) + [Publish, Ack(r.ack)]
    {
      PublishEvent(w, env, 6, Working(i, t, AtCompleted), e);
      Acknowledge(w, r.ack, env, 7, Acking(i, Handled), e.(life := Completed));
    }

    /** Worker `w` is done with entry `i`: it is free again, or gone if the processor panicked. */
    ghost predicate Settled(w: nat, i: nat, v: Verdict, r: Replies)
      reads this
    {
      && Valid() && w < |s.workers| && s.workers[w] == (if v.Abandon? then Crashed else Idle)
      && Ended(s, i, v, r)
    }

    /** Run the processor on a message that is to be processed, and settle the message. */
    method ProcessNew(w: nat, t: Task, i: nat, r: Replies, env: Schedule, ghost e: Entry)
      requires At(w, Working(i, t, AtProcessing), e) && OthersOf(env, w)
      modifies this
      ensures Settled(w, i, Attempted(t, r), r)
      ensures Own(run, w) == old(Own(run, w)) + NewCalls(t, r)
    {
      ghost var own := Own(run, w);
      PublishEvent(w, env, 3, Working(i, t, AtProcessing), e);
      match r.outcome {
        case Nil =>
          Process(w, None, env, 4, Working(i, t, AtCall), e.(life := Announced));
          Complete(w, t, i, r, env, e.(life := Succeeded));
          AppendThree(own, [Publish], [Call, Answer(None)], [Publish, Ack(r.ack)]);
        case Fails(cause) =>
          Process(w, Some(cause), env, 4, Working(i, t, AtCall), e.(life := Announced));
          HandleTaskFailure(w, t, i, cause, r, env, e.(life := Failed));
          AppendThree(own, [Publish], [Call, Answer(Some(cause))], FailureCalls(t, r));
        case Panics =>
          Panic(w, env, 4, Working(i, t, AtCall), e.(life := Announced));
          Assoc(own, [Publish], [Call, Crash]);
      }
    }

    /** Check the key of a task; drop a duplicate, process any other. */
    method ProcessKeyed(w: nat, t: Task, i: nat, r: Replies, env: Schedule, ghost e: Entry) returns (isNew: bool)
      requires At(w, Working(i, t, AtCheck), e) && OthersOf(env, w) && cfg.checker && t.key != "" &&
               e.body == Encoded(t)
      modifies this
      ensures Settled(w, i, Judge(true, e.body, isNew, r), r)
      ensures Own(run, w) == old(Own(run, w)) + TaskCalls(true, t, isNew, r)
    {
      ghost var own := Own(run, w);
      isNew := CheckKey(w, r.check, env, 1, Working(i, t, AtCheck), e);
      if r.check.Ok? && !isNew {
        Acknowledge(w, r.ack, env, 2, Acking(i, Duplicate(t.key)), e.(life := Skipped));
        Assoc(own, [Check(r.check)], [Ack(r.ack)]);
        return;
      }
      ProcessNew(w, t, i, r, env, e);
      Assoc(own, [Check(r.check)], NewCalls(t, r));
    }

    /** Drop a duplicate or process the task. */
    method ProcessTask(w: nat, t: Task, i: nat, r: Replies, env: Schedule, ghost e: Entry) returns (isNew: bool)
      requires At(w, Working(i, t, if cfg.checker && t.key != "" then AtCheck else AtProcessing), e) && OthersOf(env, w)
      requires e.body == Encoded(t)
      modifies this
      ensures Settled(w, i, Judge(cfg.checker, e.body, isNew, r), r)
      ensures Own(run, w) == old(Own(run, w)) + TaskCalls(cfg.checker, t, isNew, r)
    {
      isNew := true;
      ConfigIs();
      if s.cfg.checker && t.key != "" {
        isNew := ProcessKeyed(w, t, i, r, env, e);
      } else {
        ProcessNew(w, t, i, r, env, e);
        Unchecked(cfg.checker, t, r);
      }
    }

    /**
     Receive one message and handle it to the end, or until a store call fails or the processor
     panics, while the others do whatever the schedule says between the calls.
    */
    method ProcessMessage(w: nat, r: Replies, env: Schedule) returns (isNew: bool)
      requires Valid() && WorkEnabled(s, w, Take) && OthersOf(env, w)
      modifies this
      ensures var i := old(s).chan[0]; var body := old(s).journal[i].body;
              && Settled(w, i, Judge(cfg.checker, body, isNew, r), r)
              && Own(run, w) == old(Own(run, w)) + Calls(cfg.checker, body, isNew, r)
    {
      isNew := true;
      var i := s.chan[0];
      ghost var own, e := Own(run, w), s.journal[i];
      var body := s.journal[i].body;
      Receive(w);
      match Decode(body) {
        case None =>
          Acknowledge(w, r.ack, env, 1, Acking(i, Malformed), e.(life := Skipped));
          Assoc(own, [Take], [Ack(r.ack)]);
        case Some(t) =>
          isNew := ProcessTask(w, t, i, r, env, e);
          Assoc(own, [Take], TaskCalls(cfg.checker, t, isNew, r));
      }
    }

    /* ---------- the code of the fetcher ---------- */

    ghost predicate Fetching(f: Fetcher)
      reads this
    {
      Valid() && s.fetcher == f && !f.Unborn?
    }

    /** The others take their steps; the fetcher is left alone. */
    method WaitFetcher(env: Schedule, k: nat, ghost f: Fetcher)
      requires Fetching(f) && OthersOfFetcher(env)
      modifies this
      ensures Fetching(f) && sent == old(sent) && s.cursor == old(s).cursor && s.cfg == old(s).cfg
      ensures Grows(old(s).journal, s.journal) && (old(s).cancelled ==> s.cancelled)
    {
      var steps := env(k, s);
      assert steps[0..] == steps;
      for n := 0 to |steps|
        invariant Fetching(f) && sent == old(sent) && s.cursor == old(s).cursor && s.cfg == old(s).cfg
        invariant Grows(old(s).journal, s.journal) && (old(s).cancelled ==> s.cancelled)
        invariant Queue.Valid(s, steps[n..])
      {
        assert steps[n..][0] == steps[n] && steps[n..][1..] == steps[n + 1..];
        Invariant();
        FetcherHandsOff(s, steps[n]);
        Do(steps[n]);
      }
    }

    /**
     Send the messages of a batch in order. Where there is room and the context is cancelled, `stop`
     decides between the two; where there is neither, the fetcher waits.
    */
    method Dispatch(messages: seq<nat>, env: Schedule, stop: nat -> bool) returns (status: Status, k: nat)
      requires Fetching(Dispatching(messages)) && OthersOfFetcher(env)
      modifies this
      ensures k <= |messages| && sent == old(sent) + messages[..k] && s.cursor == old(s).cursor && s.cfg == old(s).cfg
      ensures status.Continue? <==> k == |messages|
      ensures match status
              case Continue => Fetching(Dispatching([]))
              case Stopped => Fetching(Closing) && s.cancelled && Abandons(messages[k..])
              case Blocked => Fetching(Dispatching(messages[k..])) && !s.cancelled && |s.chan| >= Capacity(s.cfg)
    {
      k := 0;
      while k < |messages|
        invariant k <= |messages| && sent == old(sent) + messages[..k] && s.cursor == old(s).cursor &&
                  s.cfg == old(s).cfg
        invariant Fetching(Dispatching(messages[k..]))
      {
        WaitFetcher(env, k, Dispatching(messages[k..]));
        if |s.chan| < Capacity(s.cfg) && !(s.cancelled && stop(k)) {
          Do(Fetch(FSend));
          OneSent(old(sent), messages, k);
          k := k + 1;
        } else if s.cancelled {
          Do(Fetch(FAbandon));
          return Stopped, k;
        } else {
          return Blocked, k;
        }
      }
      assert messages[k..] == [];
      return Continue, k;
    }

    /** The messages will not be delivered by this consumer. */
    ghost predicate Abandons(ids: seq<nat>)
      reads this
    {
      forall i :: i in ids ==> i in s.stuck && s.stuck[i].Abandoned?
    }

    /** Look at the context. */
    method CheckContext()
      requires Fetching(Checking)
      modifies this
      ensures Fetching(if old(s).cancelled then Closing else Reading)
      ensures sent == old(sent) && s == old(s).(fetcher := s.fetcher)
    {
      Do(Fetch(FCheck));
    }

    /** While the others go on, what is to be read stays. */
    method AwaitRead(n: nat, reply: Reply, env: Schedule, ghost ids: seq<nat>)
      requires Fetching(Reading) && OthersOfFetcher(env) && Readable(s, n, reply) && ids == Ahead(s, n)
      modifies this
      ensures Fetching(Reading) && Readable(s, n, reply) && ids == Ahead(s, n)
      ensures sent == old(sent) && s.cursor == old(s).cursor
    {
      ghost var s0 := s;
      WaitFetcher(env, 0, Reading);
      SameRead(s0, s, n, reply);
    }

    /** Read the next messages. A read that fails leads back to the context, or ends the loop if that is cancelled. */
    method ReadGroup(n: nat, reply: Reply, env: Schedule, ghost ids: seq<nat>) returns (messages: seq<nat>)
      requires Fetching(Reading) && OthersOfFetcher(env) && Readable(s, n, reply) && ids == Ahead(s, n)
      modifies this
      ensures sent == old(sent) && s.cursor == old(s).cursor + n
      ensures messages == if reply.Ok? then ids else []
      ensures Fetching(if reply.Ok? then Dispatching(ids) else if s.cancelled then Closing else Checking)
    {
      AwaitRead(n, reply, env, ids);
      ReadTold(s, n, reply);
      messages := if reply.Ok? then Ahead(s, n) else [];
      Do(Fetch(FRead(n, reply)));
    }

    /** Read, and send what was read. */
    method ReadAndSend(n: nat, reply: Reply, env: Schedule, stop: nat -> bool, ghost ids: seq<nat>)
      returns (status: Status, ghost k: nat)
      requires Fetching(Reading) && OthersOfFetcher(env) && Readable(s, n, reply) && ids == Ahead(s, n)
      modifies this
      ensures k <= |ids| && sent == old(sent) + ids[..k] && s.cursor == old(s).cursor + n
      ensures if reply.Err? then k == 0 && !status.Blocked? else status.Continue? <==> k == |ids|
      ensures match status
              case Continue => Fetching(Checking)
              case Stopped => Fetching(Closing) && s.cancelled
              case Blocked => Fetching(Dispatching(ids[k..])) && !s.cancelled && |s.chan| >= Capacity(s.cfg)
    {
      var messages := ReadGroup(n, reply, env, ids);
      if reply.Err? {
        return if s.cancelled then Stopped else Continue, 0;
      }
      status, k := Dispatch(messages, env, stop);
      if status.Continue? {
        Do(Fetch(FNext));
      }
    }

    /**
     One turn of the fetcher's loop: look at the context, read, send what was read, in order. A read
     that fails ends the turn; cancellation ends the loop wherever it is noticed.
    */
    method FetchTurn(n: nat, reply: Reply, env: Schedule, stop: nat -> bool) returns (status: Status, ghost k: nat)
      requires Fetching(Checking) && OthersOfFetcher(env) && Readable(s, n, reply)
      modifies this
      ensures var ids := Ahead(old(s), n);
              if old(s).cancelled then
                status.Stopped? && k == 0 && sent == old(sent) && s == old(s).(fetcher := Closing)
              else
                && k <= |ids| && sent == old(sent) + ids[..k] && s.cursor == old(s).cursor + n
                && (if reply.Err? then k == 0 && !status.Blocked? else status.Continue? <==> k == |ids|)
                && (status.Blocked? ==> Fetching(Dispatching(ids[k..])) && !s.cancelled && |s.chan| >= Capacity(s.cfg))
      ensures status.Continue? ==> Fetching(Checking)
      ensures status.Stopped? ==> Fetching(Closing) && s.cancelled
    {
      ghost var ids := Ahead(s, n);
      var cancelled := s.cancelled;
      CheckContext();
      if cancelled {
        return Stopped, 0;
      }
      SameRead(old(s), s, n, reply);
      status, k := ReadAndSend(n, reply, env, stop, ids);
    }
  }
}
