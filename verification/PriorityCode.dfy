/**
 The code of a priority worker as the sequential program it is, with the rest of the system taking
 any steps of its own before every remote call. It acknowledges on the stream it recomputes, whether
 or not the copy of a failed task was stored.
*/
module PriorityCode {
  import opened Tasks
  import opened Routing
  import opened PriorityMachine
  import opened PriorityRouting
  import opened Sequences

  /** How the processor ends. */
  datatype Outcome = Succeeds | Fails | Panics

  /** How the processor ends, and what the store replies, for one message. */
  datatype Replies = Replies(outcome: Outcome, add: Reply, ack: Reply)

  /** Where the copy of a failed task goes, and what it is. */
  function CopyOf(base: string, t: Task): (string, Task) {
    if t.currentRetries < t.maxRetries
    then (StreamFor(base, t.priority), t.(currentRetries := t.currentRetries + 1))
    else (DlqStream(base), t)
  }

  /** What has become of entry `p`, which held `body`. */
  predicate Ended(s: State, p: nat, body: Body, r: Replies) {
    && p < |s.journal| && s.journal[p].body == body
    && var life := s.journal[p].life;
    match body
    case Encoded(t) =>
      if r.outcome.Succeeds? then life.Won?
      else if r.outcome.Panics? then life.Open?
      else if !r.add.Landed() then life.Dropped?
      else
        && life.Copied? && life.to < |s.journal|
        && (s.journal[life.to].stream, s.journal[life.to].body) == (CopyOf(s.base, t).0, Encoded(CopyOf(s.base, t).1))
    case _ => life.Open?
  }

  predicate Panicked(body: Body, r: Replies) {
    body.Encoded? && r.outcome.Panics?
  }

  /** What the acknowledgement of entry `p` on the recomputed stream has done. */
  ghost predicate Acknowledged(s: State, p: nat, reply: Reply)
    requires p < |s.journal|
  {
    var e := s.journal[p];
    var target := Target(s, e.body);
    if reply.Landed() then Hits(s, target, e.id) == {} && (target == e.stream ==> p in s.acked || p in s.strays)
    else p !in s.acked
  }

  /* ---------- the calls of one message, in order ---------- */

  /** A task is stored before its burial is told. */
  function StoreCalls(t: Task, id: nat, r: Replies): seq<WorkAction> {
    [Store(id, r.add)] + if t.currentRetries < t.maxRetries then [] else [Tell]
  }

  function TaskCalls(t: Task, id: nat, r: Replies): seq<WorkAction> {
    match r.outcome
    case Succeeds => [Answer(true)] + [] + [Ack(r.ack)]
    case Fails => [Answer(false)] + StoreCalls(t, id, r) + [Ack(r.ack)]
    case Panics => [Crash]
  }

  function Calls(body: Body, id: nat, r: Replies): seq<WorkAction> {
    match Decode(body)
    case None => [Take] + [Ack(r.ack)]
    case Some(t) => [Take] + TaskCalls(t, id, r)
  }

  /** The steps of worker `w` in a run. */
  function Own(run: seq<Action>, w: nat): seq<WorkAction> {
    if run == [] then []
    else
      var a := run[|run| - 1];
      Own(run[..|run| - 1], w) + if a.Work? && a.w == w then [a.work] else []
  }

  lemma OwnMore(run: seq<Action>, a: Action, w: nat)
    ensures Own(run + [a], w) == Own(run, w) + if a.Work? && a.w == w then [a.work] else []
  {
    assert (run + [a])[..|run|] == run;
  }

  /* ---------- the rest of the system ---------- */

  type Schedule = (nat, State) -> seq<Action>

  predicate NotBy(run: seq<Action>, w: nat) {
    forall k :: 0 <= k < |run| ==> !(run[k].Work? && run[k].w == w)
  }

  /** The schedule is for the others of worker `w`. */
  ghost predicate OthersOf(env: Schedule, w: nat) {
    forall k, t: State :: Valid(t, env(k, t)) && NotBy(env(k, t), w)
  }

  /** The others leave a worker and the message in its hands alone. */
  ghost predicate Spared(s: State, t: State, w: nat)
    requires w < |s.workers| && s.workers[w].Busy()
  {
    && |t.workers| == |s.workers| && t.workers[w] == s.workers[w] && t.base == s.base && Extends(s.journal, t.journal)
    && s.workers[w].p < |s.journal| && t.journal[s.workers[w].p] == s.journal[s.workers[w].p]
    && s.workers[w].p !in t.acked
  }

  lemma StoreSpares(s: State, v: nat, id: nat, reply: Reply, w: nat)
    requires WorkEnabled(s, v, Store(id, reply)) && v != w && w < |s.workers| && s.workers[w].Busy()
    requires s.workers[w].p < |s.journal| && s.workers[w].p !in s.acked && s.workers[v].p != s.workers[w].p
    ensures Spared(s, StoreNext(s, v, id, reply), w)
  {
  }

  lemma AnswerSpares(s: State, v: nat, ok: bool, w: nat)
    requires WorkEnabled(s, v, Answer(ok)) && v != w && w < |s.workers| && s.workers[w].Busy()
    requires s.workers[w].p < |s.journal| && s.workers[w].p !in s.acked && s.workers[v].p != s.workers[w].p
    ensures Spared(s, AnswerNext(s, v, ok), w)
  {
  }

  lemma WorkSpares(s: State, v: nat, a: WorkAction, w: nat)
    requires WorkEnabled(s, v, a) && v != w && w < |s.workers| && s.workers[w].Busy() && s.workers[w].p < |s.journal|
    requires s.workers[w].p !in s.acked && (s.workers[v].Busy() ==> s.workers[v].p != s.workers[w].p)
    ensures Spared(s, WorkNext(s, v, a), w)
  {
    match a {
      case Store(id, reply) => StoreSpares(s, v, id, reply, w);
      case Answer(ok) => AnswerSpares(s, v, ok, w);
      case _ =>
    }
  }

  lemma WorkHandsOff(s: State, v: nat, a: WorkAction, w: nat)
    requires Inv(s) && WorkEnabled(s, v, a) && v != w && w < |s.workers| && s.workers[w].Busy()
    ensures Spared(s, WorkNext(s, v, a), w)
  {
    assert WorkerFits(s, w) && WorkerFits(s, v) && PlaceFits(s, s.workers[w].p);
    WorkSpares(s, v, a, w);
  }

  lemma OutsideHandsOff(s: State, a: StoreAction, w: nat)
    requires Inv(s) && OutsideEnabled(s, a) && w < |s.workers| && s.workers[w].Busy()
    ensures Spared(s, OutsideNext(s, a), w)
  {
    assert WorkerFits(s, w) && PlaceFits(s, s.workers[w].p);
    if a.Reinsert? {
      assert EntryFits(s, a.p);
    }
  }

  lemma HandsOff(s: State, a: Action, w: nat)
    requires Inv(s) && Enabled(s, a) && w < |s.workers| && s.workers[w].Busy() && !(a.Work? && a.w == w)
    ensures Spared(s, Next(s, a), w)
  {
    match a {
      case Outside(x) => OutsideHandsOff(s, x, w);
      case Fetch(x) => assert WorkerFits(s, w) && PlaceFits(s, s.workers[w].p);
      case Work(v, x) => WorkHandsOff(s, v, x, w);
    }
  }

  lemma HeadFits(s: State)
    requires Inv(s) && s.chan != []
    ensures s.chan[0] < |s.journal| && s.journal[s.chan[0]].life.Open? && s.chan[0] !in s.acked
  {
    assert Queue(s)[0] == s.chan[0];
    assert PlaceFits(s, s.chan[0]);
  }

  /** What an acknowledgement does, whatever went on before it. */
  lemma AckTold(s: State, w: nat, reply: Reply)
    requires Inv(s) && WorkEnabled(s, w, Ack(reply))
    ensures Acknowledged(AckNext(s, w, reply), s.workers[w].p, reply)
  {
    var p := s.workers[w].p;
    assert WorkerFits(s, w) && PlaceFits(s, p);
    var t := AckNext(s, w, reply);
    if reply.Landed() {
      assert p in s.pending && s.workers[w].target == s.journal[p].stream ==>
             p in Hits(s, s.workers[w].target, s.journal[p].id);
    }
  }

  /** An ID that no entry of the stream has. */
  function NextId(j: seq<Entry>, stream: string): (id: nat)
    ensures forall q :: 0 <= q < |j| && j[q].stream == stream ==> j[q].id < id
  {
    if j == [] then 0
    else
      var e := j[|j| - 1];
      var id := NextId(j[..|j| - 1], stream);
      assert forall q :: 0 <= q < |j| - 1 ==> j[..|j| - 1][q] == j[q];
      if e.stream == stream && e.id >= id then e.id + 1 else id
  }

  class PriorityConsumer {
    var s: State
    ghost const start: State
    ghost var run: seq<Action>

    constructor (base: string, batch: int, workerCount: nat)
      ensures s == Init(base, batch, workerCount) && run == [] && Valid()
    {
      InvInit(base, batch, workerCount);
      s := Init(base, batch, workerCount);
      start := Init(base, batch, workerCount);
      run := [];
    }

    /** The state is where a run of the machine has led. */
    ghost predicate Valid()
      reads this
    {
      Inv(start) && PriorityMachine.Valid(start, run) && s == Exec(start, run)
    }

    lemma Invariant()
      requires Valid()
      ensures Inv(s)
    {
      InvRun(start, run);
    }

    method Do(a: Action)
      requires Valid() && Enabled(s, a)
      modifies this
      ensures Valid() && s == Next(old(s), a) && run == old(run) + [a]
    {
      OneMore(start, run, a);
      s := Next(s, a);
      run := run + [a];
    }

    /** Worker `w` is at `x` with entry `e` in its hands. */
    ghost predicate At(w: nat, x: Worker, e: Entry)
      reads this
    {
      && Valid() && w < |s.workers| && s.workers[w] == x && x.Busy()
      && x.p < |s.journal| && s.journal[x.p] == e && x.p !in s.acked
    }

    /** The others take their steps; worker `w` and its message are left alone. */
    method Wait(w: nat, env: Schedule, k: nat, ghost x: Worker, ghost e: Entry)
      requires At(w, x, e) && OthersOf(env, w)
      modifies this
      ensures At(w, x, e) && Own(run, w) == old(Own(run, w))
      ensures s.base == old(s).base && Extends(old(s).journal, s.journal)
    {
      var steps := env(k, s);
      assert steps[0..] == steps;
      for n := 0 to |steps|
        invariant At(w, x, e) && Own(run, w) == old(Own(run, w))
        invariant s.base == old(s).base && Extends(old(s).journal, s.journal)
        invariant PriorityMachine.Valid(s, steps[n..])
      {
        assert steps[n..][0] == steps[n] && steps[n..][1..] == steps[n + 1..];
        Invariant();
        HandsOff(s, steps[n], w);
        OwnMore(run, steps[n], w);
        Do(steps[n]);
      }
    }

    /** Receive from the channel. */
    method Receive(w: nat)
      requires Valid() && WorkEnabled(s, w, Take)
      modifies this
      ensures var p := old(s).chan[0]; p < |old(s).journal| && var e := old(s).journal[p];
              At(w, match Decode(e.body) case None => Acking(p, s.base) case Some(t) => Processing(p, t), e)
      ensures old(s).journal[old(s).chan[0]].life.Open? && s.base == old(s).base &&
              Own(run, w) == old(Own(run, w)) + [Take]
    {
      Invariant();
      HeadFits(s);
      OwnMore(run, Work(w, Take), w);
      Do(Work(w, Take));
    }

    /** The processor returns. */
    method Process(w: nat, ok: bool, env: Schedule, k: nat, ghost x: Worker, ghost e: Entry)
      requires At(w, x, e) && OthersOf(env, w) && x.Processing?
      modifies this
      ensures var t := x.task; var requeue := t.currentRetries < t.maxRetries;
              if ok then At(w, Acking(x.p, StreamFor(s.base, t.priority)), e.(life := Won))
              else At(w, Storing(x.p, CopyOf(s.base, t).1, requeue), e)
      ensures s.base == old(s).base && Own(run, w) == old(Own(run, w)) + [Answer(ok)]
    {
      Wait(w, env, k, x, e);
      OwnMore(run, Work(w, Answer(ok)), w);
      Do(Work(w, Answer(ok)));
    }

    /** The processor panics: the worker is gone, and the message stays pending. */
    method Panic(w: nat, env: Schedule, k: nat, ghost x: Worker, ghost e: Entry)
      requires At(w, x, e) && OthersOf(env, w) && x.Processing?
      modifies this
      ensures Valid() && w < |s.workers| && s.workers[w] == Gone
      ensures x.p < |s.journal| && s.journal[x.p] == e && x.p !in s.acked
      ensures Own(run, w) == old(Own(run, w)) + [Crash]
    {
      Wait(w, env, k, x, e);
      OwnMore(run, Work(w, Crash), w);
      Do(Work(w, Crash));
    }

    /** Add the copy; what the store replies is ignored. */
    method AddCopy(w: nat, reply: Reply, env: Schedule, k: nat, ghost x: Worker, ghost e: Entry)
      returns (id: nat, ghost to: nat)
      requires At(w, x, e) && OthersOf(env, w) && x.Storing?
      modifies this
      ensures At(w, if x.requeue then Acking(x.p, StreamFor(s.base, x.task.priority)) else Telling(x.p, x.task),
                 e.(life := if reply.Landed() then Copied(to) else Dropped))
      ensures reply.Landed() ==>
                to < |s.journal| && s.journal[to].stream == StoredOn(s, x) && s.journal[to].body == Encoded(x.task)
      ensures s.base == old(s).base && Own(run, w) == old(Own(run, w)) + [Store(id, reply)]
    {
      Wait(w, env, k, x, e);
      id := NextId(s.journal, StoredOn(s, s.workers[w]));
      to := |s.journal|;
      OwnMore(run, Work(w, Store(id, reply)), w);
      Do(Work(w, Store(id, reply)));
    }

    /** Publish that the task is on the dead-letter stream; a failure is ignored. */
    method TellBurial(w: nat, env: Schedule, k: nat, ghost x: Worker, ghost e: Entry)
      requires At(w, x, e) && OthersOf(env, w) && x.Telling?
      modifies this
      ensures At(w, Acking(x.p, StreamFor(s.base, x.task.priority)), e) && s.told != [] &&
              s.told[|s.told| - 1] == x.task.id
      ensures s.base == old(s).base && Extends(old(s).journal, s.journal) && Own(run, w) == old(Own(run, w)) + [Tell]
    {
      Wait(w, env, k, x, e);
      OwnMore(run, Work(w, Tell), w);
      Do(Work(w, Tell));
    }

    ghost predicate Freed(w: nat)
      reads this
    {
      Valid() && w < |s.workers| && s.workers[w] == Idle
    }

    /** Acknowledge on the stream the worker has computed. */
    method Acknowledge(w: nat, reply: Reply, env: Schedule, k: nat, ghost x: Worker, ghost e: Entry)
      requires At(w, x, e) && OthersOf(env, w) && x.Acking?
      modifies this
      ensures Freed(w) && x.p < |s.journal| && s.journal[x.p] == e && Acknowledged(s, x.p, reply)
      ensures s.base == old(s).base && Extends(old(s).journal, s.journal) &&
              Own(run, w) == old(Own(run, w)) + [Ack(reply)]
    {
      Wait(w, env, k, x, e);
      OwnMore(run, Work(w, Ack(reply)), w);
      ghost var s1 := s;
      Invariant();
      AckTold(s1, w, reply);
      Do(Work(w, Ack(reply)));
    }

    /** Store the copy of a failed task, and tell of it if it went to the dead-letter stream. */
    method StoreCopy(w: nat, t: Task, p: nat, r: Replies, env: Schedule, ghost e: Entry)
      returns (id: nat, ghost life: Life)
      requires At(w, Storing(p, CopyOf(s.base, t).1, t.currentRetries < t.maxRetries), e) && OthersOf(env, w)
      requires r.outcome.Fails? && e.body == Encoded(t)
      modifies this
      ensures At(w, Acking(p, StreamFor(s.base, t.priority)), e.(life := life)) && Ended(s, p, e.body, r)
      ensures s.base == old(s).base && Own(run, w) == old(Own(run, w)) + StoreCalls(t, id, r)
    {
      var requeue := t.currentRetries < t.maxRetries;
      ghost var copy, to := CopyOf(s.base, t).1, 0;
      id, to := AddCopy(w, r.add, env, 2, Storing(p, copy, requeue), e);
      life := if r.add.Landed() then Copied(to) else Dropped;
      if !requeue {
        TellBurial(w, env, 3, Telling(p, copy), e.(life := life));
      }
    }

    /** Worker `w` is done with entry `p`: it is free again, or gone if the processor panicked. */
    ghost predicate Settled(w: nat, p: nat, body: Body, r: Replies)
      reads this
    {
      && Valid() && w < |s.workers| && s.workers[w] == (if Panicked(body, r) then Gone else Idle)
      && Ended(s, p, body, r) && if Panicked(body, r) then p !in s.acked else Acknowledged(s, p, r.ack)
    }

    /** Handle a task, and acknowledge it. */
    method ProcessTask(w: nat, t: Task, p: nat, r: Replies, env: Schedule, ghost e: Entry) returns (id: nat)
      requires At(w, Processing(p, t), e) && OthersOf(env, w) && e.body == Encoded(t) && e.life.Open?
      modifies this
      ensures Settled(w, p, e.body, r)
      ensures Own(run, w) == old(Own(run, w)) + TaskCalls(t, id, r)
    {
      ghost var own := Own(run, w);
      id := 0;
      match r.outcome {
        case Succeeds =>
          Process(w, true, env, 1, Processing(p, t), e);
          Acknowledge(w, r.ack, env, 4, Acking(p, StreamFor(s.base, t.priority)), e.(life := Won));
          AppendThree(own, [Answer(true)], [], [Ack(r.ack)]);
        case Fails =>
          ghost var life: Life;
          Process(w, false, env, 1, Processing(p, t), e);
          id, life := StoreCopy(w, t, p, r, env, e);
          Acknowledge(w, r.ack, env, 4, Acking(p, StreamFor(s.base, t.priority)), e.(life := life));
          AppendThree(own, [Answer(false)], StoreCalls(t, id, r), [Ack(r.ack)]);
        case Panics =>
          Panic(w, env, 1, Processing(p, t), e);
      }
    }

    /**
     Receive one message and handle it to the end, or until the processor panics, while the others do
     whatever the schedule says between the calls.
    */
    method ProcessMessage(w: nat, r: Replies, env: Schedule) returns (id: nat)
      requires Valid() && WorkEnabled(s, w, Take) && OthersOf(env, w)
      modifies this
      ensures var p := old(s).chan[0]; var body := old(s).journal[p].body;
              && Settled(w, p, body, r)
              && Own(run, w) == old(Own(run, w)) + Calls(body, id, r)
    {
      id := 0;
      var p := s.chan[0];
      ghost var own, e := Own(run, w), s.journal[p];
      var body := s.journal[p].body;
      Receive(w);
      match Decode(body) {
        case None =>
          Acknowledge(w, r.ack, env, 1, Acking(p, s.base), e);
          Assoc(own, [Take], [Ack(r.ack)]);
        case Some(t) =>
          id := ProcessTask(w, t, p, r, env, e);
          Assoc(own, [Take], TaskCalls(t, id, r));
      }
    }
  }
}
