/**
 The queue protocol as a state machine: producers, the consumer's fetcher and worker pool, and
 the dead-letter replay handler, interleaved one store call, one channel operation, one publish
 attempt or one processor return at a time. Every store call may fail, with or without effect.

 The machine is deterministic once the action is known: `Enabled` says when an action may happen
 and `Next` says what it does. Fields in the last group of `State`, and the fields `inj`, `root`
 and `life` of an entry, are history kept for the proofs; `Enabled` and the other fields of
 `Next` never read them (`HistoryIsInert` in module Inert).
*/
module Queue {
  import opened Tasks

  datatype Stream = Main | Dlq

  /** How far the handling of an entry has come. */
  datatype Life =
    | Fresh | Announced | Called | Failed | RetryDue | BuryDue | BuryTold
    | Succeeded | Completed | Skipped
    | Requeued(to: nat) | Buried(to: nat) | Replayed(to: nat)

  /** One entry of a stream; its message ID is its position in the journal. `inj` is the
      injection (a produce or a replay) it descends from, `root` the original produce. */
  datatype Entry = Entry(stream: Stream, body: Body, inj: nat, root: nat, life: Life)

  datatype Injection = Injection(root: nat, task: Task)

  datatype Starter = Creating | Spawning(next: nat) | Waiting | Returned | Refused

  datatype Fetcher =
    | Unborn | Checking | Reading | Dispatching(batch: seq<nat>) | Closing | Finishing | Gone

  /** Where a worker stands inside the handling of one message. */
  datatype Pc =
    | AtCheck | AtProcessing | AtCall | InCall
    | AtFailed(cause: string) | AtRequeue | AtDlqEvent | AtBury | AtCompleted

  datatype AckReason = Malformed | Duplicate(key: string) | Handled | Copied

  datatype Worker =
    | Unstarted | Idle | Working(id: nat, task: Task, pc: Pc) | Acking(id: nat, why: AckReason)
    | Exited | Crashed
  {
    predicate Busy() { Working? || Acking? }
    predicate Live() { Idle? || Busy() }
  }

  datatype Replay =
    | Scanning(rest: seq<nat>, retried: nat)
    | Deleting(entry: nat, taskId: string, rest: seq<nat>, retried: nat)
    | Telling(taskId: string, rest: seq<nat>, retried: nat)

  datatype Reason = LostRead | Abandoned | AckFailed | AddFailed | Panicked

  datatype Metrics = Metrics(success: nat, failed: nat, dlq: nat, duplicate: nat, panics: nat)

  /** One line of the observable history. */
  datatype Obs =
    | Published(kind: EventKind, taskId: string)
    | Invoked(inj: nat, root: nat, task: Task)
    | Replied(inj: nat, root: nat, success: bool)
    | Checked(key: string, reply: Reply, isNew: bool)
    | Expired(key: string)
    | AckedDuplicate(key: string)

  /** `batch` is the read count of the fetcher; a count that is not positive sets no limit. */
  datatype Config = Config(workerCount: nat, batch: int, checker: bool)

  datatype State = State(
    cfg: Config,
    // the store
    journal: seq<Entry>, cursor: nat, acked: set<nat>, deleted: set<nat>, seen: set<string>,
    // the consumer process
    starter: Starter, fetcher: Fetcher, chan: seq<nat>, closed: bool,
    workers: seq<Worker>, wg: int, cancelled: bool, metrics: Metrics,
    // producers about to announce, and replay requests
    announcing: multiset<string>, replays: seq<Replay>,
    // history
    roots: seq<Task>, injections: seq<Injection>, stuck: map<nat, Reason>, leaks: nat, hist: seq<Obs>)

  datatype EnvAction =
    | Produce(task: Task, reply: Reply) | Announce(taskId: string)
    | Foreign(stream: Stream, body: Body) | Cancel | Expire(key: string)

  datatype BootAction = CreateGroup(reply: Reply) | Spawn | Return

  datatype FetchAction =
    | FCheck | FRead(n: nat, reply: Reply) | FSend | FAbandon | FNext | FClose | FDone

  datatype WorkAction =
    | Take | Exit | Check(reply: Reply) | Publish | Call | Answer(outcome: Option<string>)
    | Add(reply: Reply) | Ack(reply: Reply) | Crash

  datatype ReplayAction = Begin | Forward(reply: Reply) | Delete(reply: Reply) | Tell

  /** A step of the environment, of `Start`, of the fetcher, of worker `w` or of replay request `r`. */
  datatype Action =
    | Env(env: EnvAction) | Boot(boot: BootAction) | Fetch(fetch: FetchAction)
    | Work(w: nat, work: WorkAction) | Retry(r: nat, retry: ReplayAction)

  function Init(cfg: Config): State {
    State(cfg, [], 0, {}, {}, {}, Creating, Unborn, [], false,
          seq(cfg.workerCount, i => Unstarted), 0, false, Metrics(0, 0, 0, 0, 0),
          multiset{}, [], [], [], map[], 0, [])
  }

  function Capacity(cfg: Config): nat {
    cfg.workerCount * 10
  }

  /** The entries of the main stream with an ID in [lo, hi), oldest first. */
  function MainIds(journal: seq<Entry>, lo: nat, hi: nat): (ids: seq<nat>)
    requires lo <= hi <= |journal|
    ensures forall i :: i in ids <==> lo <= i < hi && journal[i].stream.Main?
    ensures forall a, b :: 0 <= a < b < |ids| ==> ids[a] < ids[b]
    decreases hi
  {
    if lo == hi then []
    else
      var older := MainIds(journal, lo, hi - 1);
      assert forall a :: 0 <= a < |older| ==> older[a] in older;
      older + (if journal[hi - 1].stream.Main? then [hi - 1] else [])
  }

  lemma IdsMore(j: seq<Entry>, lo: nat, hi: nat)
    requires lo < hi <= |j|
    ensures MainIds(j, lo, hi) == MainIds(j, lo, hi - 1) + if j[hi - 1].stream.Main? then [hi - 1] else []
  {
  }

  /** The entries still on the dead-letter stream among the first `n`, oldest first. */
  function DlqIds(journal: seq<Entry>, deleted: set<nat>, n: nat): (ids: seq<nat>)
    requires n <= |journal|
    ensures forall i :: i in ids <==> 0 <= i < n && journal[i].stream.Dlq? && i !in deleted
    ensures forall a, b :: 0 <= a < b < |ids| ==> ids[a] < ids[b]
  {
    if n == 0 then []
    else
      var older := DlqIds(journal, deleted, n - 1);
      assert forall a :: 0 <= a < |older| ==> older[a] in older;
      older + (if journal[n - 1].stream.Dlq? && n - 1 !in deleted then [n - 1] else [])
  }

  function Batch(f: Fetcher): seq<nat> {
    if f.Dispatching? then f.batch else []
  }

  /** What is on its way to the workers, in order: the channel, then the rest of the batch. */
  function Queued(s: State): seq<nat> {
    s.chan + Batch(s.fetcher)
  }

  function MarkAll(m: map<nat, Reason>, ids: seq<nat>, why: Reason): map<nat, Reason> {
    map i | i in m.Keys + (set j | j in ids) :: if i in ids then why else m[i]
  }

  /* ---------- when an action may happen ---------- */

  predicate EnvEnabled(s: State, a: EnvAction) {
    match a
    case Announce(id) => id in s.announcing
    case Foreign(_, body) => !body.Encoded?
    case Expire(key) => key in s.seen
    case _ => true
  }

  predicate BootEnabled(s: State, a: BootAction) {
    match a
    case CreateGroup(_) => s.starter.Creating?
    case Spawn => s.starter.Spawning? && s.starter.next <= |s.workers|
    case Return => s.starter.Waiting? && s.wg == 0
  }

  predicate FetchEnabled(s: State, a: FetchAction) {
    match a
    case FCheck => s.fetcher.Checking?
    case FRead(n, reply) =>
      && s.fetcher.Reading?
      && s.cursor + n <= |s.journal|
      && (0 < s.cfg.batch ==> |MainIds(s.journal, s.cursor, s.cursor + n)| <= s.cfg.batch)
      && (reply.Landed() || n == 0)
    case FSend => s.fetcher.Dispatching? && s.fetcher.batch != [] && |s.chan| < Capacity(s.cfg)
    case FAbandon => s.fetcher.Dispatching? && s.fetcher.batch != [] && s.cancelled
    case FNext => s.fetcher.Dispatching? && s.fetcher.batch == []
    case FClose => s.fetcher.Closing?
    case FDone => s.fetcher.Finishing?
  }

  /** Worker `w` handles a message that exists and stands at `pc`. */
  predicate Stands(s: State, w: nat) {
    w < |s.workers| && s.workers[w].Working? && s.workers[w].id < |s.journal|
  }

  predicate WorkEnabled(s: State, w: nat, a: WorkAction) {
    match a
    case Take => w < |s.workers| && s.workers[w].Idle? && s.chan != [] && s.chan[0] < |s.journal|
    case Exit => w < |s.workers| && s.workers[w].Idle? && s.chan == [] && s.closed
    case Check(_) => Stands(s, w) && s.workers[w].pc.AtCheck?
    case Publish => Stands(s, w) &&
      var pc := s.workers[w].pc; pc.AtProcessing? || pc.AtFailed? || pc.AtDlqEvent? || pc.AtCompleted?
    case Call => Stands(s, w) && s.workers[w].pc.AtCall?
    case Answer(_) => Stands(s, w) && s.workers[w].pc.InCall?
    case Add(_) => Stands(s, w) && (s.workers[w].pc.AtRequeue? || s.workers[w].pc.AtBury?)
    case Ack(_) => w < |s.workers| && s.workers[w].Acking?
    case Crash => w < |s.workers| && s.workers[w].Busy()
  }

  predicate RetryEnabled(s: State, r: nat, a: ReplayAction) {
    match a
    case Begin => r == |s.replays|
    case Forward(_) =>
      r < |s.replays| && s.replays[r].Scanning? && s.replays[r].rest != [] && s.replays[r].rest[0] < |s.journal|
    case Delete(_) => r < |s.replays| && s.replays[r].Deleting?
    case Tell => r < |s.replays| && s.replays[r].Telling?
  }

  predicate Enabled(s: State, a: Action) {
    match a
    case Env(e) => EnvEnabled(s, e)
    case Boot(b) => BootEnabled(s, b)
    case Fetch(f) => FetchEnabled(s, f)
    case Work(w, x) => WorkEnabled(s, w, x)
    case Retry(r, x) => RetryEnabled(s, r, x)
  }

  /* ---------- what an action does ---------- */

  function Log(s: State, o: Obs): State {
    s.(hist := s.hist + [o])
  }

  /** The journal is append-only, and only the history of an old entry ever changes. */
  ghost predicate Grows(j: seq<Entry>, k: seq<Entry>) {
    && |j| <= |k|
    && forall i :: 0 <= i < |j| ==>
         k[i].stream == j[i].stream && k[i].body == j[i].body && k[i].inj == j[i].inj && k[i].root == j[i].root
  }

  /** What producers, replay requests and the environment never touch. */
  ghost predicate ProcessFrame(s: State, t: State) {
    && t.cfg == s.cfg && t.starter == s.starter && t.fetcher == s.fetcher && t.chan == s.chan
    && t.closed == s.closed && t.workers == s.workers && t.wg == s.wg && t.cursor == s.cursor
    && t.acked == s.acked && t.stuck == s.stuck && t.metrics == s.metrics && t.leaks == s.leaks
    && (s.cancelled ==> t.cancelled) && Grows(s.journal, t.journal) && s.hist <= t.hist
    && s.roots <= t.roots && s.injections <= t.injections
  }

  function EnvNext(s: State, a: EnvAction): (t: State)
    requires EnvEnabled(s, a)
    ensures ProcessFrame(s, t)
  {
    match a
    case Produce(t, reply) =>
      var landed :=
        if !reply.Landed() then s
        else s.(journal := s.journal + [Entry(Main, Encoded(t), |s.injections|, |s.roots|, Fresh)],
                injections := s.injections + [Injection(|s.roots|, t)],
                roots := s.roots + [t]);
      if reply.Ok? then landed.(announcing := s.announcing + multiset{t.id}) else landed
    case Announce(id) =>
      Log(s.(announcing := s.announcing - multiset{id}), Published(PendingEvent, id))
    case Foreign(stream, body) => s.(journal := s.journal + [Entry(stream, body, 0, 0, Fresh)])
    case Cancel => s.(cancelled := true)
    case Expire(key) => Log(s.(seen := s.seen - {key}), Expired(key))
  }

  function BootNext(s: State, a: BootAction): (t: State)
    requires BootEnabled(s, a)
    ensures StoreFrame(s, t) && t.chan == s.chan && t.closed == s.closed && t.cursor == s.cursor
  {
    match a
    case CreateGroup(reply) => s.(starter := if reply.Ok? then Spawning(0) else Refused)
    case Spawn =>
      var i := s.starter.next;
      if i < |s.workers| then s.(workers := s.workers[i := Idle], wg := s.wg + 1, starter := Spawning(i + 1))
      else s.(fetcher := Checking, wg := s.wg + 1, starter := Waiting)
    case Return => s.(starter := Returned)
  }

  /** What `Start` and the fetcher never touch. */
  ghost predicate StoreFrame(s: State, t: State) {
    && t.cfg == s.cfg && t.journal == s.journal && t.acked == s.acked && t.deleted == s.deleted
    && t.seen == s.seen && t.cancelled == s.cancelled && t.metrics == s.metrics && t.replays == s.replays
    && t.roots == s.roots && t.injections == s.injections && t.leaks == s.leaks && t.hist == s.hist
    && s.stuck.Keys <= t.stuck.Keys
  }

  function FetchNext(s: State, a: FetchAction): (t: State)
    requires FetchEnabled(s, a)
    ensures StoreFrame(s, t) && t.workers == s.workers && t.starter == s.starter
  {
    match a
    case FCheck => s.(fetcher := if s.cancelled then Closing else Reading)
    case FRead(n, reply) =>
      var ids := MainIds(s.journal, s.cursor, s.cursor + n);
      if reply.Ok? then s.(cursor := s.cursor + n, fetcher := Dispatching(ids))
      else s.(cursor := s.cursor + n, stuck := MarkAll(s.stuck, ids, LostRead),
              fetcher := if s.cancelled then Closing else Checking)
    case FSend =>
      s.(chan := s.chan + [s.fetcher.batch[0]], fetcher := Dispatching(s.fetcher.batch[1..]))
    case FAbandon => s.(stuck := MarkAll(s.stuck, s.fetcher.batch, Abandoned), fetcher := Closing)
    case FNext => s.(fetcher := Checking)
    case FClose => s.(closed := true, fetcher := Finishing)
    case FDone => s.(wg := s.wg - 1, fetcher := Gone)
  }

  /** What a worker's step cannot touch, and how it may touch the rest of the process. */
  ghost predicate WorkerFrame(s: State, t: State, w: nat) {
    && w < |s.workers| == |t.workers|
    && s.workers[w].Live()
    && t.workers == s.workers[w := t.workers[w]]
    && !t.workers[w].Unstarted?
    && (t.workers[w].Exited? ==> s.closed && s.chan == [])
    && (t.chan == s.chan || (s.chan != [] && t.chan == s.chan[1..]))
    && t.wg == s.wg - (if t.workers[w].Live() then 0 else 1)
    && t.cfg == s.cfg && t.starter == s.starter && t.fetcher == s.fetcher && t.closed == s.closed
    && t.cursor == s.cursor && t.cancelled == s.cancelled && t.deleted == s.deleted
    && t.replays == s.replays && t.roots == s.roots && t.injections == s.injections
    && Grows(s.journal, t.journal) && s.hist <= t.hist
  }

  datatype Transfer = Keeps | Takes | Acks | Strands | Nothing

  /** How worker `w` changes the place of a message: one message, one place to another. */
  ghost predicate Transfers(s: State, t: State, w: nat, how: Transfer) {
    && w < |s.workers| == |t.workers|
    && var x := s.workers[w]; var y := t.workers[w];
    match how
    case Keeps => x.Busy() && y.Busy() && x.id == y.id && t.acked == s.acked && t.stuck == s.stuck && t.chan == s.chan
    case Takes =>
      && s.chan != [] && t.chan == s.chan[1..]
      && !x.Busy() && y.Busy() && y.id == s.chan[0] && t.acked == s.acked && t.stuck == s.stuck
    case Acks =>
      x.Busy() && !y.Busy() && t.acked == s.acked + {x.id} && t.stuck == s.stuck && t.chan == s.chan
    case Strands =>
      && x.Busy() && !y.Busy() && t.acked == s.acked && x.id in t.stuck
      && t.stuck == s.stuck[x.id := t.stuck[x.id]] && t.chan == s.chan
    case Nothing => !x.Busy() && !y.Busy() && t.acked == s.acked && t.stuck == s.stuck && t.chan == s.chan
  }

  function HowTransferred(a: WorkAction): Transfer {
    match a
    case Take => Takes
    case Exit => Nothing
    case Add(reply) => if reply.Ok? then Keeps else Strands
    case Ack(reply) => if reply.Landed() then Acks else Strands
    case Crash => Strands
    case _ => Keeps
  }

  /** Worker `w` moves on to `x`. */
  function Move(s: State, w: nat, x: Worker): State
    requires w < |s.workers|
  {
    s.(workers := s.workers[w := x])
  }

  /** Worker `w` moves on to `x`, and entry `i` has come as far as `life`. */
  function Advance(s: State, w: nat, x: Worker, i: nat, life: Life): (t: State)
    requires w < |s.workers| && i < |s.journal|
    ensures Grows(s.journal, t.journal)
  {
    s.(workers := s.workers[w := x], journal := s.journal[i := s.journal[i].(life := life)])
  }

  /** Receive the next message and decode it. */
  function TakeNext(s: State, w: nat): (t: State)
    requires WorkEnabled(s, w, Take)
    ensures WorkerFrame(s, t, w) && Transfers(s, t, w, Takes)
  {
    var i := s.chan[0];
    var s1 := s.(chan := s.chan[1..]);
    match Decode(s.journal[i].body)
    case None => Advance(s1, w, Acking(i, Malformed), i, Skipped)
    case Some(t) => Move(s1, w, Working(i, t, if s.cfg.checker && t.key != "" then AtCheck else AtProcessing))
  }

  /** The idempotency check. A failed check lets the message through; a repeated key drops it. */
  function CheckNext(s: State, w: nat, reply: Reply): (t: State)
    requires WorkEnabled(s, w, Check(reply))
    ensures WorkerFrame(s, t, w) && Transfers(s, t, w, Keeps)
  {
    var x := s.workers[w];
    var isNew := x.task.key !in s.seen;
    var s1 := Log(s.(seen := if reply.Landed() then s.seen + {x.task.key} else s.seen),
      Checked(x.task.key, reply, isNew));
    if reply.Ok? && !isNew then
      Advance(s1.(metrics := s.metrics.(duplicate := s.metrics.duplicate + 1)),
              w, Acking(x.id, Duplicate(x.task.key)), x.id, Skipped)
    else Move(s1, w, x.(pc := AtProcessing))
  }

  /** After the Failed event: record the error, then choose between a retry and the dead-letter stream. */
  function FailureNext(s: State, w: nat): (t: State)
    requires Stands(s, w) && s.workers[w].pc.AtFailed?
    ensures WorkerFrame(s, t, w) && Transfers(s, t, w, Keeps)
  {
    var x := s.workers[w];
    var t1 := x.task.(error := x.pc.cause);
    if t1.currentRetries < t1.maxRetries then
      Advance(s, w, Working(x.id, t1.(currentRetries := t1.currentRetries + 1), AtRequeue), x.id, RetryDue)
    else
      var s1 := s.(metrics := s.metrics.(dlq := s.metrics.dlq + 1));
      Advance(s1, w, Working(x.id, t1, AtDlqEvent), x.id, BuryDue)
  }

  /** An event is published, and worker `w` moves on to `y` with the same message. */
  function TellNext(s: State, w: nat, kind: EventKind, y: Worker, life: Life): (t: State)
    requires Stands(s, w) && y.Busy() && y.id == s.workers[w].id
    ensures WorkerFrame(s, t, w) && Transfers(s, t, w, Keeps)
  {
    var x := s.workers[w];
    Advance(Log(s, Published(kind, x.task.id)), w, y, x.id, life)
  }

  /** Attempt a publish, then run on to the next remote call. Whether the publish failed is ignored. */
  function PublishNext(s: State, w: nat): (t: State)
    requires WorkEnabled(s, w, Publish)
    ensures WorkerFrame(s, t, w) && Transfers(s, t, w, Keeps)
  {
    var x := s.workers[w];
    var t := x.task;
    match x.pc
    case AtProcessing => TellNext(s, w, ProcessingEvent, x.(pc := AtCall), Announced)
    case AtFailed(cause) => FailureNext(Log(s, Published(FailedEvent, t.id)), w)
    case AtDlqEvent => TellNext(s, w, DlqEvent, x.(pc := AtBury), BuryTold)
    case AtCompleted => TellNext(s, w, CompletedEvent, Acking(x.id, Handled), Completed)
  }

  /** Enter the processor. */
  function CallNext(s: State, w: nat): (t: State)
    requires WorkEnabled(s, w, Call)
    ensures WorkerFrame(s, t, w) && Transfers(s, t, w, Keeps)
  {
    var x := s.workers[w];
    var e := s.journal[x.id];
    Advance(Log(s, Invoked(e.inj, e.root, x.task)), w, x.(pc := InCall), x.id, Called)
  }

  /** Leave the processor, with an error or without. */
  function AnswerNext(s: State, w: nat, outcome: Option<string>): (t: State)
    requires WorkEnabled(s, w, Answer(outcome))
    ensures WorkerFrame(s, t, w) && Transfers(s, t, w, Keeps)
  {
    var x := s.workers[w];
    var e := s.journal[x.id];
    var s1 := Log(s, Replied(e.inj, e.root, outcome.None?));
    match outcome
    case None =>
      Advance(s1.(metrics := s.metrics.(success := s.metrics.success + 1)), w, x.(pc := AtCompleted), x.id, Succeeded)
    case Some(cause) =>
      Advance(s1.(metrics := s.metrics.(failed := s.metrics.failed + 1)), w, x.(pc := AtFailed(cause)), x.id, Failed)
  }

  function IfStuck(s: State, stuck: bool, i: nat, why: Reason): State {
    if stuck then s.(stuck := s.stuck[i := why]) else s
  }

  /** The entry `i` replaced by a note of its copy, and the copy at the end of the journal. */
  function CopyTo(s: State, i: nat, note: Life, stream: Stream, t: Task): (u: State)
    requires i < |s.journal|
    ensures Grows(s.journal, u.journal) && |u.journal| == |s.journal| + 1
    ensures u.journal[i] == s.journal[i].(life := note)
    ensures forall n :: 0 <= n < |s.journal| && n != i ==> u.journal[n] == s.journal[n]
  {
    var e := s.journal[i];
    s.(journal := s.journal[i := e.(life := note)] + [Entry(stream, Encoded(t), e.inj, e.root, Fresh)])
  }

  /** Store the copy of a failed task: back on the main stream, or on the dead-letter stream. */
  function AddNext(s: State, w: nat, reply: Reply): (t: State)
    requires WorkEnabled(s, w, Add(reply))
    ensures WorkerFrame(s, t, w) && Transfers(s, t, w, if reply.Ok? then Keeps else Strands)
    ensures reply.Landed() ==>
              && |t.journal| == |s.journal| + 1 && t.journal[|s.journal|].body == Encoded(s.workers[w].task)
              && t.journal[|s.journal|].stream == if s.workers[w].pc.AtRequeue? then Main else Dlq
    ensures !reply.Landed() ==> t.journal == s.journal
  {
    var x := s.workers[w];
    var n := |s.journal|;
    var s1 :=
      if !reply.Landed() then s.(leaks := s.leaks + MidFailure(x))
      else if x.pc.AtRequeue? then CopyTo(s, x.id, Requeued(n), Main, x.task)
      else CopyTo(s, x.id, Buried(n), Dlq, x.task);
    IfStuck(Move(s1, w, if reply.Ok? then Acking(x.id, Copied) else Idle), !reply.Ok?, x.id, AddFailed)
  }

  function AckNext(s: State, w: nat, reply: Reply): (t: State)
    requires WorkEnabled(s, w, Ack(reply))
    ensures WorkerFrame(s, t, w) && Transfers(s, t, w, if reply.Landed() then Acks else Strands)
  {
    var x := s.workers[w];
    var s1 := Move(s, w, Idle);
    if !reply.Landed() then IfStuck(s1, true, x.id, AckFailed)
    else
      var s2 := s1.(acked := s.acked + {x.id});
      if x.why.Duplicate? then Log(s2, AckedDuplicate(x.why.key)) else s2
  }

  /** The handlers that have counted a failure and have neither stored a copy nor counted a burial. */
  function MidFailure(x: Worker): nat {
    if x.Working? && (x.pc.AtFailed? || x.pc.AtRequeue?) then 1 else 0
  }

  /** A panic below the message loop ends the worker; its message stays unacknowledged. */
  function CrashNext(s: State, w: nat): (t: State)
    requires WorkEnabled(s, w, Crash)
    ensures WorkerFrame(s, t, w) && Transfers(s, t, w, Strands)
  {
    var x := s.workers[w];
    Move(s, w, Crashed).(wg := s.wg - 1, metrics := s.metrics.(panics := s.metrics.panics + 1),
                         stuck := s.stuck[x.id := Panicked], leaks := s.leaks + MidFailure(x))
  }

  function WorkNext(s: State, w: nat, a: WorkAction): (t: State)
    requires WorkEnabled(s, w, a)
    ensures WorkerFrame(s, t, w) && Transfers(s, t, w, HowTransferred(a))
  {
    match a
    case Take => TakeNext(s, w)
    case Exit => Move(s, w, Exited).(wg := s.wg - 1)
    case Check(reply) => CheckNext(s, w, reply)
    case Publish => PublishNext(s, w)
    case Call => CallNext(s, w)
    case Answer(outcome) => AnswerNext(s, w, outcome)
    case Add(reply) => AddNext(s, w, reply)
    case Ack(reply) => AckNext(s, w, reply)
    case Crash => CrashNext(s, w)
  }

  /** One message of a replay: skip it if malformed, else put a reset copy on the main stream. */
  function ForwardNext(s: State, r: nat, reply: Reply): (t: State)
    requires RetryEnabled(s, r, Forward(reply))
    ensures ProcessFrame(s, t)
  {
    var x := s.replays[r];
    var d := x.rest[0];
    var skip := Scanning(x.rest[1..], x.retried);
    match Decode(s.journal[d].body)
    case None => s.(replays := s.replays[r := skip])
    case Some(t) =>
      var e := s.journal[d];
      var t1 := t.(currentRetries := 0);
      var s1 :=
        if !reply.Landed() then s
        else s.(journal := s.journal[d := e.(life := Replayed(|s.journal|))]
                           + [Entry(Main, Encoded(t1), |s.injections|, e.root, Fresh)],
                injections := s.injections + [Injection(e.root, t1)]);
      s1.(replays := s.replays[r := if reply.Ok? then Deleting(d, t.id, x.rest[1..], x.retried) else skip])
  }

  function RetryNext(s: State, r: nat, a: ReplayAction): (t: State)
    requires RetryEnabled(s, r, a)
    ensures ProcessFrame(s, t)
  {
    match a
    case Begin => s.(replays := s.replays + [Scanning(DlqIds(s.journal, s.deleted, |s.journal|), 0)])
    case Forward(reply) => ForwardNext(s, r, reply)
    case Delete(reply) =>
      var x := s.replays[r];
      s.(deleted := if reply.Landed() then s.deleted + {x.entry} else s.deleted,
         replays := s.replays[r := Telling(x.taskId, x.rest, x.retried + 1)])
    case Tell =>
      var x := s.replays[r];
      Log(s.(replays := s.replays[r := Scanning(x.rest, x.retried)]), Published(PendingEvent, x.taskId))
  }

  function Next(s: State, a: Action): State
    requires Enabled(s, a)
  {
    match a
    case Env(e) => EnvNext(s, e)
    case Boot(b) => BootNext(s, b)
    case Fetch(f) => FetchNext(s, f)
    case Work(w, x) => WorkNext(s, w, x)
    case Retry(r, x) => RetryNext(s, r, x)
  }

  /* ---------- runs ---------- */

  predicate Valid(s: State, run: seq<Action>)
    decreases |run|
  {
    run == [] || (Enabled(s, run[0]) && Valid(Next(s, run[0]), run[1..]))
  }

  function Exec(s: State, run: seq<Action>): State
    requires Valid(s, run)
    decreases |run|
  {
    if run == [] then s else Exec(Next(s, run[0]), run[1..])
  }

  /** Some run from the initial state of `cfg` leads to `s`. */
  ghost predicate Reachable(cfg: Config, s: State) {
    exists run :: Valid(Init(cfg), run) && s == Exec(Init(cfg), run)
  }

  /** A run can be continued by any step enabled where it ends. */
  lemma {:induction false} OneMore(s: State, run: seq<Action>, a: Action)
    requires Valid(s, run) && Enabled(Exec(s, run), a)
    ensures Valid(s, run + [a]) && Exec(s, run + [a]) == Next(Exec(s, run), a)
    decreases |run|
  {
    if run == [] {
      assert ([] + [a])[1..] == [];
    } else {
      assert (run + [a])[1..] == run[1..] + [a];
      OneMore(Next(s, run[0]), run[1..], a);
    }
  }

  lemma ReachableNext(cfg: Config, s: State, a: Action)
    requires Reachable(cfg, s) && Enabled(s, a)
    ensures Reachable(cfg, Next(s, a))
  {
    var run :| Valid(Init(cfg), run) && s == Exec(Init(cfg), run);
    OneMore(Init(cfg), run, a);
  }
}
