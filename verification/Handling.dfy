/**
 How the program counter of a worker, the task it carries and the entry it handles fit together,
 in every reachable state; and the invariant that the other modules build on.
*/
module Handling {
  import opened Tasks
  import opened Queue
  import opened Custody
  import opened Gauges

  function LifeAt(pc: Pc): Life {
    match pc
    case AtCheck => Fresh case AtProcessing => Fresh case AtCall => Announced case InCall => Called
    case AtFailed(_) => Failed case AtRequeue => RetryDue case AtDlqEvent => BuryDue
    case AtBury => BuryTold case AtCompleted => Succeeded
  }

  /** What the worker may have rewritten in its copy `t` of the stored task `stored`. */
  ghost predicate Carries(pc: Pc, stored: Task, t: Task) {
    match pc
    case AtRequeue =>
      stored.currentRetries < stored.maxRetries
      && t == stored.(error := t.error, currentRetries := stored.currentRetries + 1)
    case AtDlqEvent => stored.currentRetries >= stored.maxRetries && t == stored.(error := t.error)
    case AtBury => stored.currentRetries >= stored.maxRetries && t == stored.(error := t.error)
    case _ => t == stored
  }

  ghost predicate Agrees(cfg: Config, x: Worker, e: Entry)
    requires x.Busy()
  {
    match x
    case Working(_, t, pc) =>
      && e.body.Encoded? && e.life == LifeAt(pc) && Carries(pc, e.body.task, t)
      && (pc.AtCheck? ==> cfg.checker && t.key != "")
    case Acking(_, why) =>
      match why
      case Malformed => !e.body.Encoded? && e.life.Skipped?
      case Duplicate(key) => e.body.Encoded? && e.life.Skipped? && cfg.checker && key == e.body.task.key != ""
      case Handled => e.body.Encoded? && e.life.Completed?
      case Copied => e.body.Encoded? && (e.life.Requeued? || e.life.Buried?)
  }

  predicate Settled(life: Life) {
    life.Completed? || life.Skipped? || life.Requeued? || life.Buried?
  }

  /** A dead-letter entry that a replay request refers to. */
  predicate IsDlq(s: State, d: nat) {
    d < |s.journal| && s.journal[d].stream.Dlq?
  }

  ghost predicate ReplayFits(s: State, x: Replay) {
    && (forall d :: d in x.rest ==> IsDlq(s, d))
    && (x.Deleting? ==> IsDlq(s, x.entry) && s.journal[x.entry].life.Replayed?)
  }

  /** Entries in transit. */
  ghost predicate Transit(s: State) {
    && (forall w :: 0 <= w < |s.workers| && s.workers[w].Busy() ==>
          s.workers[w].id < |s.journal| && Agrees(s.cfg, s.workers[w], s.journal[s.workers[w].id]))
    && (forall i :: i in Queued(s) ==> i < |s.journal| && s.journal[i].life.Fresh?)
    && (forall i :: i in s.acked ==> i < |s.journal| && Settled(s.journal[i].life))
  }

  /** Entries at rest in the store. */
  ghost predicate AtRest(s: State) {
    && (forall i :: s.cursor <= i < |s.journal| && s.journal[i].stream.Main? ==> s.journal[i].life.Fresh?)
    && (forall i :: 0 <= i < |s.journal| && s.journal[i].stream.Dlq? ==>
          s.journal[i].life.Fresh? || s.journal[i].life.Replayed?)
    && (forall i :: 0 <= i < |s.journal| && s.journal[i].stream.Main? ==> !s.journal[i].life.Replayed?)
    && (forall i :: 0 <= i < |s.journal| && !s.journal[i].body.Encoded? ==>
          s.journal[i].life.Fresh? || s.journal[i].life.Skipped?)
    && (forall d :: d in s.deleted ==> IsDlq(s, d) && s.journal[d].life.Replayed?)
    && (forall r :: 0 <= r < |s.replays| ==> ReplayFits(s, s.replays[r]))
  }

  ghost predicate Linked(s: State) {
    Transit(s) && AtRest(s)
  }

  ghost predicate Inv(s: State) {
    Goroutines(s) && InCustody(s) && Linked(s)
  }

  /* ---------- a worker's step ---------- */

  /** The message worker `w` holds after a step, or held before it. */
  function Subject(s: State, w: nat, a: WorkAction): nat
    requires WorkEnabled(s, w, a) && !a.Exit?
  {
    if a.Take? then s.chan[0] else s.workers[w].id
  }

  /** The step touches one entry, leaves its holder in agreement with it, and may append a fresh copy. */
  ghost predicate Local(s: State, t: State, w: nat, i: nat) {
    && w < |t.workers| && |s.journal| <= |t.journal| <= |s.journal| + 1 && i < |s.journal|
    && (forall n :: 0 <= n < |s.journal| && n != i ==> t.journal[n] == s.journal[n])
    && (forall n :: |s.journal| <= n < |t.journal| ==> t.journal[n].life.Fresh? && t.journal[n].body.Encoded?)
    && (t.journal[i] == s.journal[i] || s.journal[i].stream.Main?)
    && !t.journal[i].life.Replayed?
    && (t.workers[w].Busy() ==> t.workers[w].id == i && Agrees(t.cfg, t.workers[w], t.journal[i]))
    && (i in t.acked ==> Settled(t.journal[i].life))
    && (!t.journal[i].body.Encoded? ==> t.journal[i].life.Fresh? || t.journal[i].life.Skipped?)
  }

  /** What a busy worker knows about its message. */
  lemma Held(s: State, w: nat)
    requires Inv(s) && w < |s.workers| && s.workers[w].Busy()
    ensures var i := s.workers[w].id;
            && i < |s.journal| && Delivered(s, i) && Agrees(s.cfg, s.workers[w], s.journal[i])
            && i !in s.acked && i !in s.stuck && i !in Queued(s)
  {
    assert s.workers[w].id in Hands(s.workers);
  }

  lemma Head(s: State)
    requires Inv(s) && s.chan != []
    ensures var i := s.chan[0];
            && i < |s.journal| && Delivered(s, i) && s.journal[i].life.Fresh? && i !in s.acked && i !in s.stuck
  {
    assert Queued(s)[0] == s.chan[0];
    assert s.chan[0] in Queued(s);
  }

  lemma LocalTake(s: State, w: nat)
    requires Inv(s) && WorkEnabled(s, w, Take)
    ensures Local(s, TakeNext(s, w), w, s.chan[0])
  {
    Head(s);
  }

  /** What the steps of a worker about its message need to know of it. */
  ghost predicate Holding(s: State, w: nat) {
    && w < |s.workers| && s.workers[w].Busy() && s.workers[w].id < |s.journal|
    && s.journal[s.workers[w].id].stream.Main? && s.workers[w].id !in s.acked
    && Agrees(s.cfg, s.workers[w], s.journal[s.workers[w].id])
  }

  lemma LocalCheck(s: State, w: nat, reply: Reply)
    requires Holding(s, w) && WorkEnabled(s, w, Check(reply))
    ensures Local(s, CheckNext(s, w, reply), w, s.workers[w].id)
  {
  }

  lemma LocalPublish(s: State, w: nat)
    requires Holding(s, w) && WorkEnabled(s, w, Publish)
    ensures Local(s, PublishNext(s, w), w, s.workers[w].id)
  {
    var x := s.workers[w];
    match x.pc {
      case AtFailed(_) => LocalFailure(Log(s, Published(FailedEvent, x.task.id)), w);
      case AtProcessing => LocalTell(s, w, ProcessingEvent, x.(pc := AtCall), Announced);
      case AtDlqEvent => LocalTell(s, w, DlqEvent, x.(pc := AtBury), BuryTold);
      case AtCompleted => LocalTell(s, w, CompletedEvent, Acking(x.id, Handled), Completed);
    }
  }

  lemma LocalTell(s: State, w: nat, kind: EventKind, y: Worker, life: Life)
    requires Stands(s, w) && y.Busy() && y.id == s.workers[w].id && s.journal[y.id].stream.Main? && y.id !in s.acked
    requires Agrees(s.cfg, y, s.journal[y.id].(life := life)) && !life.Replayed? && s.journal[y.id].body.Encoded?
    ensures Local(s, TellNext(s, w, kind, y, life), w, y.id)
  {
  }

  lemma LocalFailure(s: State, w: nat)
    requires Stands(s, w) && s.workers[w].pc.AtFailed?
    requires Agrees(s.cfg, s.workers[w], s.journal[s.workers[w].id])
    requires s.journal[s.workers[w].id].stream.Main? && s.workers[w].id !in s.acked
    ensures Local(s, FailureNext(s, w), w, s.workers[w].id)
  {
  }

  lemma LocalCall(s: State, w: nat)
    requires Holding(s, w) && WorkEnabled(s, w, Call)
    ensures Local(s, CallNext(s, w), w, s.workers[w].id)
  {
  }

  lemma LocalAnswer(s: State, w: nat, outcome: Option<string>)
    requires Holding(s, w) && WorkEnabled(s, w, Answer(outcome))
    ensures Local(s, AnswerNext(s, w, outcome), w, s.workers[w].id)
  {
  }

  lemma LocalAdd(s: State, w: nat, reply: Reply)
    requires Holding(s, w) && WorkEnabled(s, w, Add(reply))
    ensures Local(s, AddNext(s, w, reply), w, s.workers[w].id)
  {
  }

  lemma LocalAck(s: State, w: nat, reply: Reply)
    requires Holding(s, w) && WorkEnabled(s, w, Ack(reply))
    ensures Local(s, AckNext(s, w, reply), w, s.workers[w].id)
  {
  }

  lemma LocalCrash(s: State, w: nat)
    requires Holding(s, w) && WorkEnabled(s, w, Crash)
    ensures Local(s, CrashNext(s, w), w, s.workers[w].id)
  {
  }

  lemma LocalWork(s: State, w: nat, a: WorkAction)
    requires Inv(s) && WorkEnabled(s, w, a) && !a.Exit?
    ensures Local(s, WorkNext(s, w, a), w, Subject(s, w, a))
  {
    if !a.Take? {
      Held(s, w);
    }
    match a {
      case Take => LocalTake(s, w);
      case Check(reply) => LocalCheck(s, w, reply);
      case Publish => LocalPublish(s, w);
      case Call => LocalCall(s, w);
      case Answer(outcome) => LocalAnswer(s, w, outcome);
      case Add(reply) => LocalAdd(s, w, reply);
      case Ack(reply) => LocalAck(s, w, reply);
      case Crash => LocalCrash(s, w);
    }
  }

  /* ---------- what a worker's step adds to the histories ---------- */

  /** The kind of event the next publish attempt of a worker announces. */
  function EventAt(pc: Pc): EventKind {
    match pc
    case AtProcessing => ProcessingEvent
    case AtDlqEvent => DlqEvent
    case AtCompleted => CompletedEvent
    case _ => FailedEvent
  }

  /** Where a publish attempt leaves the worker. */
  function AfterPublish(x: Worker): Worker
    requires x.Working?
  {
    var t := x.task;
    match x.pc
    case AtProcessing => x.(pc := AtCall)
    case AtFailed(cause) =>
      if t.currentRetries < t.maxRetries
      then Working(x.id, t.(error := cause, currentRetries := t.currentRetries + 1), AtRequeue)
      else Working(x.id, t.(error := cause), AtDlqEvent)
    case AtDlqEvent => x.(pc := AtBury)
    case _ => Acking(x.id, Handled)
  }

  function Says(s: State, w: nat, a: WorkAction): seq<Obs>
    requires WorkEnabled(s, w, a)
  {
    var x := s.workers[w];
    match a
    case Check(reply) => [Checked(x.task.key, reply, x.task.key !in s.seen)]
    case Publish => [Published(EventAt(x.pc), x.task.id)]
    case Call => [Invoked(s.journal[x.id].inj, s.journal[x.id].root, x.task)]
    case Answer(outcome) => [Replied(s.journal[x.id].inj, s.journal[x.id].root, outcome.None?)]
    case Ack(reply) => if reply.Landed() && x.why.Duplicate? then [AckedDuplicate(x.why.key)] else []
    case _ => []
  }

  /** How far the step brings its message. */
  function Becomes(s: State, w: nat, a: WorkAction): Life
    requires WorkEnabled(s, w, a) && !a.Exit? && Subject(s, w, a) < |s.journal|
  {
    var x := s.workers[w];
    var e := s.journal[Subject(s, w, a)];
    match a
    case Take => if e.body.Encoded? then e.life else Skipped
    case Check(reply) => if reply.Ok? && x.task.key in s.seen then Skipped else e.life
    case Publish => (
      match x.pc
      case AtProcessing => Announced
      case AtDlqEvent => BuryTold
      case AtCompleted => Completed
      case _ => if x.task.currentRetries < x.task.maxRetries then RetryDue else BuryDue)
    case Call => Called
    case Answer(outcome) => if outcome.None? then Succeeded else Failed
    case Add(reply) =>
      if !reply.Landed() then e.life
      else if x.pc.AtRequeue? then Requeued(|s.journal|) else Buried(|s.journal|)
    case _ => e.life
  }

  function Copies(s: State, w: nat, a: WorkAction): seq<Entry>
    requires WorkEnabled(s, w, a) && !a.Exit? && Subject(s, w, a) < |s.journal|
  {
    var x := s.workers[w];
    var e := s.journal[Subject(s, w, a)];
    if a.Add? && a.reply.Landed()
    then [Entry(if x.pc.AtRequeue? then Main else Dlq, Encoded(x.task), e.inj, e.root, Fresh)]
    else []
  }

  ghost predicate ToldBy(s: State, t: State, w: nat, a: WorkAction)
    requires WorkEnabled(s, w, a) && !a.Exit? && Subject(s, w, a) < |s.journal|
  {
    var i := Subject(s, w, a);
    && t.hist == s.hist + Says(s, w, a)
    && t.journal == s.journal[i := s.journal[i].(life := Becomes(s, w, a))] + Copies(s, w, a)
  }

  lemma ToldTake(s: State, w: nat)
    requires WorkEnabled(s, w, Take)
    ensures ToldBy(s, TakeNext(s, w), w, Take)
  {
    var i := s.chan[0];
    assert s.journal[i := s.journal[i]] == s.journal;
  }

  lemma ToldCheck(s: State, w: nat, reply: Reply)
    requires WorkEnabled(s, w, Check(reply))
    ensures ToldBy(s, CheckNext(s, w, reply), w, Check(reply))
  {
    var i := s.workers[w].id;
    assert s.journal[i := s.journal[i]] == s.journal;
  }

  lemma ToldPublish(s: State, w: nat)
    requires WorkEnabled(s, w, Publish)
    ensures ToldBy(s, PublishNext(s, w), w, Publish)
  {
    var x := s.workers[w];
    if x.pc.AtFailed? {
      var s1 := Log(s, Published(FailedEvent, x.task.id));
      assert FailureNext(s1, w).journal == s.journal[x.id := s.journal[x.id].(life := Becomes(s, w, Publish))];
      assert FailureNext(s1, w).hist == s1.hist;
    }
  }

  lemma ToldAdd(s: State, w: nat, reply: Reply)
    requires WorkEnabled(s, w, Add(reply))
    ensures ToldBy(s, AddNext(s, w, reply), w, Add(reply))
  {
    var i := s.workers[w].id;
    assert s.journal[i := s.journal[i]] == s.journal;
  }

  lemma Told(s: State, w: nat, a: WorkAction)
    requires Inv(s) && WorkEnabled(s, w, a) && !a.Exit?
    ensures Subject(s, w, a) < |s.journal| && ToldBy(s, WorkNext(s, w, a), w, a)
  {
    if a.Take? {
      Head(s);
      ToldTake(s, w);
    } else {
      Held(s, w);
      match a {
        case Check(reply) => ToldCheck(s, w, reply);
        case Publish => ToldPublish(s, w);
        case Add(reply) => ToldAdd(s, w, reply);
        case _ => ToldOther(s, w, a);
      }
    }
  }

  lemma ToldOther(s: State, w: nat, a: WorkAction)
    requires WorkEnabled(s, w, a) && (a.Call? || a.Answer? || a.Ack? || a.Crash?)
    requires s.workers[w].id < |s.journal|
    ensures ToldBy(s, WorkNext(s, w, a), w, a)
  {
    var i := s.workers[w].id;
    assert s.journal[i := s.journal[i]] == s.journal;
  }

  /** The entry a worker's step is about, as the invariants know it. */
  ghost predicate Known(s: State, w: nat, a: WorkAction)
    requires WorkEnabled(s, w, a) && !a.Exit?
  {
    && Subject(s, w, a) < |s.journal|
    && var e := s.journal[Subject(s, w, a)];
       e.stream.Main? && if a.Take? then e.life.Fresh? else Agrees(s.cfg, s.workers[w], e)
  }

  lemma Knows(s: State, w: nat, a: WorkAction)
    requires Inv(s) && WorkEnabled(s, w, a) && !a.Exit?
    ensures Known(s, w, a) && ToldBy(s, WorkNext(s, w, a), w, a)
  {
    if a.Take? {
      Head(s);
    } else {
      Held(s, w);
    }
    Told(s, w, a);
  }

  lemma AtRestWork(s: State, t: State, w: nat, i: nat)
    requires AtRest(s) && WorkerFrame(s, t, w) && Local(s, t, w, i) && Delivered(s, i)
    ensures AtRest(t)
  {
  }

  /** A message that leaves the queue or a worker is not found there afterwards. */
  lemma Elsewhere(s: State, t: State, w: nat, how: Transfer, i: nat)
    requires InCustody(s) && InCustody(t) && WorkerFrame(s, t, w) && Transfers(s, t, w, how)
    requires !how.Nothing? && i == if how.Takes? then s.chan[0] else s.workers[w].id
    ensures i !in Queued(t)
    ensures forall v :: 0 <= v < |t.workers| && v != w && t.workers[v].Busy() ==> t.workers[v].id != i
  {
    if how.Takes? || how.Keeps? {
      assert t.workers[w].id in Hands(t.workers);
    } else {
      assert i in t.acked || i in t.stuck;
    }
    forall v | 0 <= v < |t.workers| && v != w && t.workers[v].Busy()
      ensures t.workers[v].id != i
    {
      assert t.workers[v].id in Hands(t.workers);
      assert s.workers[v] == t.workers[v];
    }
  }

  lemma TransitWork(s: State, t: State, w: nat, how: Transfer, i: nat)
    requires Transit(s) && InCustody(s) && InCustody(t)
    requires WorkerFrame(s, t, w) && Transfers(s, t, w, how) && Local(s, t, w, i)
    requires !how.Nothing? && i == if how.Takes? then s.chan[0] else s.workers[w].id
    ensures Transit(t)
  {
    Elsewhere(s, t, w, how, i);
    assert forall n :: n in Queued(t) ==> n in Queued(s);
    forall v | 0 <= v < |t.workers| && t.workers[v].Busy()
      ensures t.workers[v].id < |t.journal| && Agrees(t.cfg, t.workers[v], t.journal[t.workers[v].id])
    {
      if v != w {
        assert t.workers[v] == s.workers[v];
      }
    }
  }

  lemma SubjectDelivered(s: State, w: nat, a: WorkAction)
    requires Inv(s) && WorkEnabled(s, w, a) && !a.Exit?
    ensures Delivered(s, Subject(s, w, a))
  {
    if a.Take? {
      Head(s);
    } else {
      Held(s, w);
    }
  }

  lemma LinkedWork(s: State, w: nat, a: WorkAction)
    requires Inv(s) && WorkEnabled(s, w, a) && InCustody(WorkNext(s, w, a))
    ensures Linked(WorkNext(s, w, a))
  {
    var t := WorkNext(s, w, a);
    if a.Exit? {
      assert Queued(t) == Queued(s);
    } else {
      LocalWork(s, w, a);
      SubjectDelivered(s, w, a);
      AtRestWork(s, t, w, Subject(s, w, a));
      TransitWork(s, t, w, HowTransferred(a), Subject(s, w, a));
    }
  }

  /* ---------- the other steps ---------- */

  lemma LinkedFetch(s: State, a: FetchAction)
    requires Inv(s) && FetchEnabled(s, a)
    ensures Linked(FetchNext(s, a))
  {
    var t := FetchNext(s, a);
    if a.FRead? {
      assert Queued(s) == s.chan;
      var ids := MainIds(s.journal, s.cursor, s.cursor + a.n);
      assert Queued(t) == if a.reply.Ok? then s.chan + ids else s.chan;
    } else {
      assert forall i :: i in Queued(t) ==> i in Queued(s);
    }
  }

  lemma LinkedBoot(s: State, a: BootAction)
    requires Inv(s) && BootEnabled(s, a)
    ensures Linked(BootNext(s, a))
  {
    assert Queued(BootNext(s, a)) == Queued(s);
  }

  /** Producers and replay requests leave the main stream's entries alone. */
  lemma TransitSame(s: State, t: State)
    requires Transit(s) && InCustody(s) && ProcessFrame(s, t)
    requires forall n :: 0 <= n < |s.journal| && s.journal[n].stream.Main? ==> t.journal[n] == s.journal[n]
    ensures Transit(t)
  {
    assert Queued(t) == Queued(s);
    assert forall i :: i in Queued(s) || i in s.acked || i in Hands(s.workers) ==> Delivered(s, i);
    forall v | 0 <= v < |t.workers| && t.workers[v].Busy()
      ensures t.workers[v].id in Hands(s.workers)
    {
    }
  }

  lemma AtRestGrows(s: State, t: State)
    requires AtRest(s) && ProcessFrame(s, t) && t.replays == s.replays && t.deleted == s.deleted
    requires t.journal == s.journal || (|t.journal| > 0 && t.journal[|t.journal| - 1].life.Fresh? &&
                                        s.journal == t.journal[..|t.journal| - 1])
    ensures AtRest(t)
  {
    forall q | 0 <= q < |t.replays|
      ensures ReplayFits(t, t.replays[q])
    {
      assert ReplayFits(s, s.replays[q]);
    }
  }

  lemma LinkedEnv(s: State, a: EnvAction)
    requires Inv(s) && EnvEnabled(s, a)
    ensures Linked(EnvNext(s, a))
  {
    TransitSame(s, EnvNext(s, a));
    AtRestEnv(s, a);
  }

  lemma AtRestEnv(s: State, a: EnvAction)
    requires AtRest(s) && EnvEnabled(s, a)
    ensures AtRest(EnvNext(s, a))
  {
    AtRestGrows(s, EnvNext(s, a));
  }

  lemma ForwardFits(s: State, r: nat, reply: Reply)
    requires AtRest(s) && RetryEnabled(s, r, Forward(reply))
    ensures IsDlq(s, s.replays[r].rest[0])
    ensures var t := ForwardNext(s, r, reply);
            forall q :: 0 <= q < |s.replays| ==> ReplayFits(t, t.replays[q])
  {
    var t := ForwardNext(s, r, reply);
    var rest := s.replays[r].rest;
    assert ReplayFits(s, s.replays[r]) && rest[0] in rest;
    assert forall d :: d in rest[1..] ==> d in rest;
    forall q | 0 <= q < |t.replays|
      ensures ReplayFits(t, t.replays[q])
    {
      assert ReplayFits(s, s.replays[q]);
    }
  }

  lemma AtRestForward(s: State, r: nat, reply: Reply)
    requires AtRest(s) && s.cursor <= |s.journal| && RetryEnabled(s, r, Forward(reply))
    ensures AtRest(ForwardNext(s, r, reply))
  {
    ForwardFits(s, r, reply);
  }

  lemma LinkedForward(s: State, r: nat, reply: Reply)
    requires Inv(s) && RetryEnabled(s, r, Forward(reply))
    ensures Linked(ForwardNext(s, r, reply))
  {
    AtRestForward(s, r, reply);
    ForwardFits(s, r, reply);
    TransitSame(s, ForwardNext(s, r, reply));
  }

  lemma LinkedRetry(s: State, r: nat, a: ReplayAction)
    requires Inv(s) && RetryEnabled(s, r, a)
    ensures Linked(RetryNext(s, r, a))
  {
    if a.Forward? {
      LinkedForward(s, r, a.reply);
    } else {
      var t := RetryNext(s, r, a);
      TransitSame(s, t);
      if r < |s.replays| {
        assert ReplayFits(s, s.replays[r]);
      }
      forall q | 0 <= q < |t.replays|
        ensures ReplayFits(t, t.replays[q])
      {
        assert q < |s.replays| ==> ReplayFits(s, s.replays[q]);
      }
    }
  }

  /* ---------- every run ---------- */

  lemma InvInit(cfg: Config)
    ensures Inv(Init(cfg))
  {
    PoolZero(Alive, Init(cfg).workers);
  }

  lemma InvStep(s: State, a: Action)
    requires Inv(s) && Enabled(s, a)
    ensures Inv(Next(s, a))
  {
    GoroutinesStep(s, a);
    CustodyStep(s, a);
    match a {
      case Env(e) => LinkedEnv(s, e);
      case Boot(b) => LinkedBoot(s, b);
      case Fetch(f) => LinkedFetch(s, f);
      case Work(w, x) => LinkedWork(s, w, x);
      case Retry(r, x) => LinkedRetry(s, r, x);
    }
  }

  lemma {:induction false} InvRun(s: State, run: seq<Action>)
    requires Inv(s) && Valid(s, run)
    ensures Inv(Exec(s, run))
    decreases |run|
  {
    if run != [] {
      InvStep(s, run[0]);
      InvRun(Next(s, run[0]), run[1..]);
    }
  }

  lemma {:induction false} ConfigRun(s: State, run: seq<Action>)
    requires Valid(s, run)
    ensures Exec(s, run).cfg == s.cfg
    decreases |run|
  {
    if run != [] {
      ConfigRun(Next(s, run[0]), run[1..]);
    }
  }

  lemma ReachableInv(cfg: Config, s: State)
    requires Reachable(cfg, s)
    ensures Inv(s) && s.cfg == cfg
  {
    var run :| Valid(Init(cfg), run) && s == Exec(Init(cfg), run);
    InvInit(cfg);
    InvRun(Init(cfg), run);
    ConfigRun(Init(cfg), run);
  }
}
