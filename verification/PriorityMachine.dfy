/**
 The priority consumer as a state machine: three streams read in rounds, a worker pool that
 recomputes from the payload which stream to acknowledge on, and a dead-letter stream that the
 replay handler empties into the base stream. Message IDs are unique within a stream only, so
 an acknowledgement sent to the wrong stream may hit another message there, or none.

 `origin`, `root` and `life` of an entry and the last group of fields of `State` are history.
*/
module PriorityMachine {
  import opened Tasks
  import opened Routing

  datatype Origin = Produced | Retried | Reinserted

  /** How the handling of an entry ended: `Dropped` when the add of its copy did not land. */
  datatype Life = Open | Won | Copied(to: nat) | Dropped

  datatype Entry = Entry(stream: string, id: nat, body: Body, origin: Origin, root: nat, life: Life)

  datatype Fetcher = Top | Reading(k: nat) | Dispatching(k: nat, batch: seq<nat>) | Stopped

  /** A worker holds a message by its position in the journal. */
  datatype Worker =
    | Idle | Gone
    | Processing(p: nat, task: Task)
    | Storing(p: nat, task: Task, requeue: bool)
    | Telling(p: nat, task: Task)
    | Acking(p: nat, target: string)
  {
    predicate Busy() { !Idle? && !Gone? }
  }

  datatype Place = Queued | Hand(w: nat) | Left

  datatype State = State(
    base: string, batch: int,
    // the store
    journal: seq<Entry>, cursors: map<string, nat>, pending: set<nat>, deleted: set<nat>,
    // dead-letter entries that a replay has put back and not yet deleted
    deleting: set<nat>,
    // the consumer process
    fetcher: Fetcher, chan: seq<nat>, workers: seq<Worker>, cancelled: bool,
    // history
    roots: seq<nat>, again: set<nat>, wins: map<nat, nat>,
    places: map<nat, Place>, acked: set<nat>, strays: set<nat>, told: seq<string>)

  datatype StoreAction =
    | Produce(task: Task, id: nat, reply: Reply) | Foreign(stream: string, id: nat, body: Body)
    | Reinsert(p: nat, id: nat, reply: Reply) | Remove(p: nat, reply: Reply) | Cancel

  datatype FetchAction = Check | Read(n: nat, reply: Reply) | Send | Abandon | Advance

  datatype WorkAction =
    | Take | Exit | Answer(ok: bool) | Store(id: nat, reply: Reply) | Tell | Ack(reply: Reply) | Crash

  datatype Action = Outside(store: StoreAction) | Fetch(fetch: FetchAction) | Work(w: nat, work: WorkAction)

  function Init(base: string, batch: int, workerCount: nat): State {
    State(base, batch, [], map[HighStream(base) := 0, base := 0, LowStream(base) := 0], {}, {}, {},
          Top, [], seq(workerCount, i => Idle), false, [], {}, map[], map[], {}, {}, [])
  }

  /** The positions of a stream's entries in [lo, hi), oldest first. */
  function On(journal: seq<Entry>, stream: string, lo: nat, hi: nat): (ps: seq<nat>)
    requires lo <= hi <= |journal|
    ensures forall p :: p in ps <==> lo <= p < hi && journal[p].stream == stream
    ensures NoDup(ps)
    decreases hi
  {
    if lo == hi then []
    else
      var older := On(journal, stream, lo, hi - 1);
      assert forall a :: 0 <= a < |older| ==> older[a] in older;
      older + (if journal[hi - 1].stream == stream then [hi - 1] else [])
  }

  ghost predicate NoDup(q: seq<nat>) {
    forall a, b :: 0 <= a < b < |q| ==> q[a] != q[b]
  }

  predicate NewId(s: State, stream: string, id: nat) {
    forall q :: 0 <= q < |s.journal| && s.journal[q].stream == stream ==> s.journal[q].id != id
  }

  function Batch(f: Fetcher): seq<nat> {
    if f.Dispatching? then f.batch else []
  }

  function Queue(s: State): seq<nat> {
    s.chan + Batch(s.fetcher)
  }

  function PlaceAll(m: map<nat, Place>, ps: seq<nat>, place: Place): map<nat, Place> {
    map p | p in m.Keys + (set q | q in ps) :: if p in ps then place else m[p]
  }

  /** The stream a task is put back on and acknowledged on: recomputed from the payload. */
  function Target(s: State, body: Body): string {
    if body.Encoded? then StreamFor(s.base, body.task.priority) else s.base
  }

  /* ---------- steps ---------- */

  predicate OutsideEnabled(s: State, a: StoreAction) {
    match a
    case Produce(t, id, _) => NewId(s, StreamFor(s.base, t.priority), id)
    case Foreign(stream, id, body) => !body.Encoded? && NewId(s, stream, id)
    case Reinsert(p, id, _) =>
      p < |s.journal| && s.journal[p].stream == DlqStream(s.base) && s.journal[p].body.Encoded? && NewId(s, s.base, id)
    case Remove(p, _) => p in s.deleting
    case Cancel => true
  }

  /** The journal is append-only, and only the life of an old entry ever changes. */
  ghost predicate Extends(j: seq<Entry>, k: seq<Entry>) {
    |j| <= |k| && forall p :: 0 <= p < |j| ==> k[p] == j[p].(life := k[p].life)
  }

  function OutsideNext(s: State, a: StoreAction): (t: State)
    requires OutsideEnabled(s, a)
    ensures t.base == s.base && Extends(s.journal, t.journal) && t.strays == s.strays && t.workers == s.workers
  {
    match a
    case Produce(t, id, reply) =>
      if !reply.Landed() then s
      else s.(journal := s.journal + [Entry(StreamFor(s.base, t.priority), id, Encoded(t), Produced, |s.roots|, Open)],
              roots := s.roots + [|s.journal|])
    case Foreign(stream, id, body) =>
      s.(journal := s.journal + [Entry(stream, id, body, Produced, 0, Open)])
    case Reinsert(p, id, reply) =>
      var e := s.journal[p];
      if !reply.Landed() then s
      else s.(journal := s.journal[p := e.(life := Copied(|s.journal|))]
                         + [Entry(s.base, id, Encoded(e.body.task.(currentRetries := 0)), Reinserted, e.root, Open)],
              again := s.again + {e.root}, deleting := if reply.Ok? then s.deleting + {p} else s.deleting)
    case Remove(p, reply) =>
      s.(deleting := s.deleting - {p}, deleted := if reply.Landed() then s.deleted + {p} else s.deleted)
    case Cancel => s.(cancelled := true)
  }

  /** The stream read at turn `k` of a round. */
  function Turn(s: State, k: nat): string
    requires k < 3
  {
    Streams(s.base)[k]
  }

  predicate FetchEnabled(s: State, a: FetchAction) {
    match a
    case Check => s.fetcher.Top?
    case Read(n, reply) =>
      && s.fetcher.Reading? && s.fetcher.k < 3 && Turn(s, s.fetcher.k) in s.cursors
      && s.cursors[Turn(s, s.fetcher.k)] + n <= |s.journal|
      && (reply.Landed() || n == 0)
      && (0 < s.batch ==>
            |On(s.journal, Turn(s, s.fetcher.k), s.cursors[Turn(s, s.fetcher.k)],
              s.cursors[Turn(s, s.fetcher.k)] + n)| <= s.batch)
    case Send => s.fetcher.Dispatching? && s.fetcher.batch != [] && |s.chan| < |s.workers| * 10
    case Abandon => s.fetcher.Dispatching? && s.fetcher.batch != [] && s.cancelled
    case Advance => s.fetcher.Dispatching? && s.fetcher.batch == []
  }

  /** The fetcher after its turn at stream `k`. */
  function After(k: nat): Fetcher {
    if k + 1 < 3 then Reading(k + 1) else Top
  }

  function FetchNext(s: State, a: FetchAction): (t: State)
    requires FetchEnabled(s, a)
    ensures t.base == s.base && t.journal == s.journal && t.workers == s.workers && t.strays == s.strays
  {
    match a
    case Check => s.(fetcher := if s.cancelled then Stopped else Reading(0))
    case Read(n, reply) =>
      var k := s.fetcher.k;
      var lo := s.cursors[Turn(s, k)];
      var ps := On(s.journal, Turn(s, k), lo, lo + n);
      s.(cursors := s.cursors[Turn(s, k) := lo + n], pending := s.pending + (set p | p in ps),
         places := PlaceAll(s.places, ps, if reply.Ok? then Queued else Left),
         fetcher := if reply.Ok? then Dispatching(k, ps) else if s.cancelled then Stopped else After(k))
    case Send => s.(chan := s.chan + [s.fetcher.batch[0]], fetcher := s.fetcher.(batch := s.fetcher.batch[1..]))
    case Abandon => s.(places := PlaceAll(s.places, s.fetcher.batch, Left), fetcher := Stopped)
    case Advance => s.(fetcher := After(s.fetcher.k))
  }

  predicate Holds(s: State, w: nat) {
    w < |s.workers| && s.workers[w].Busy() && s.workers[w].p < |s.journal|
  }

  predicate WorkEnabled(s: State, w: nat, a: WorkAction) {
    match a
    case Take => w < |s.workers| && s.workers[w].Idle? && s.chan != [] && s.chan[0] < |s.journal|
    case Exit => w < |s.workers| && s.workers[w].Idle? && s.chan == [] && s.fetcher.Stopped?
    case Answer(_) => Holds(s, w) && s.workers[w].Processing?
    case Store(id, _) => Holds(s, w) && s.workers[w].Storing? && NewId(s, StoredOn(s, s.workers[w]), id)
    case Tell => Holds(s, w) && s.workers[w].Telling?
    case Ack(_) => Holds(s, w) && s.workers[w].Acking?
    case Crash => Holds(s, w)
  }

  /** Where the copy of a failed task goes. */
  function StoredOn(s: State, x: Worker): string
    requires x.Storing?
  {
    if x.requeue then StreamFor(s.base, x.task.priority) else DlqStream(s.base)
  }

  /** The pending messages that an acknowledgement on a stream hits. */
  function Hits(s: State, target: string, id: nat): set<nat> {
    set q | q in s.pending && q < |s.journal| && s.journal[q].stream == target && s.journal[q].id == id
  }

  function TakeNext(s: State, w: nat): State
    requires WorkEnabled(s, w, Take)
  {
    var p := s.chan[0];
    var x := match Decode(s.journal[p].body) case None => Acking(p, s.base) case Some(t) => Processing(p, t);
    s.(chan := s.chan[1..], workers := s.workers[w := x], places := s.places[p := Hand(w)])
  }

  function AnswerNext(s: State, w: nat, ok: bool): State
    requires WorkEnabled(s, w, Answer(ok))
  {
    var x := s.workers[w];
    var e := s.journal[x.p];
    var t := x.task;
    if ok then
      s.(journal := s.journal[x.p := e.(life := Won)], wins := s.wins[e.root := x.p],
         workers := s.workers[w := Acking(x.p, StreamFor(s.base, t.priority))])
    else if t.currentRetries < t.maxRetries then
      s.(workers := s.workers[w := Storing(x.p, t.(currentRetries := t.currentRetries + 1), true)])
    else s.(workers := s.workers[w := Storing(x.p, t, false)])
  }

  /** The reply of the add is ignored: the worker goes on to acknowledge the original. */
  function StoreNext(s: State, w: nat, id: nat, reply: Reply): State
    requires WorkEnabled(s, w, Store(id, reply))
  {
    var x := s.workers[w];
    var e := s.journal[x.p];
    var next := if x.requeue then Acking(x.p, StreamFor(s.base, x.task.priority)) else Telling(x.p, x.task);
    var s1 := s.(workers := s.workers[w := next]);
    if reply.Landed() then
      s1.(journal := s.journal[x.p := e.(life := Copied(|s.journal|))]
                     + [Entry(StoredOn(s, x), id, Encoded(x.task), Retried, e.root, Open)])
    else s1.(journal := s.journal[x.p := e.(life := Dropped)])
  }

  function AckNext(s: State, w: nat, reply: Reply): State
    requires WorkEnabled(s, w, Ack(reply))
  {
    var x := s.workers[w];
    var hits := if reply.Landed() then Hits(s, x.target, s.journal[x.p].id) else {};
    s.(workers := s.workers[w := Idle], places := s.places[x.p := Left],
       pending := s.pending - hits, acked := s.acked + (hits * {x.p}), strays := s.strays + (hits - {x.p}))
  }

  function WorkNext(s: State, w: nat, a: WorkAction): (t: State)
    requires WorkEnabled(s, w, a)
    ensures t.base == s.base && Extends(s.journal, t.journal) && (!a.Ack? ==> t.strays == s.strays)
  {
    match a
    case Take => TakeNext(s, w)
    case Exit => s.(workers := s.workers[w := Gone])
    case Answer(ok) => AnswerNext(s, w, ok)
    case Store(id, reply) => StoreNext(s, w, id, reply)
    case Tell =>
      var x := s.workers[w];
      s.(told := s.told + [x.task.id], workers := s.workers[w := Acking(x.p, StreamFor(s.base, x.task.priority))])
    case Ack(reply) => AckNext(s, w, reply)
    case Crash =>
      s.(workers := s.workers[w := Gone], places := s.places[s.workers[w].p := Left])
  }

  predicate Enabled(s: State, a: Action) {
    match a
    case Outside(x) => OutsideEnabled(s, x)
    case Fetch(x) => FetchEnabled(s, x)
    case Work(w, x) => WorkEnabled(s, w, x)
  }

  function Next(s: State, a: Action): State
    requires Enabled(s, a)
  {
    match a
    case Outside(x) => OutsideNext(s, x)
    case Fetch(x) => FetchNext(s, x)
    case Work(w, x) => WorkNext(s, w, x)
  }

  predicate Valid(s: State, run: seq<Action>)
    decreases |run|
  {
    run == [] || (Enabled(s, run[0]) && Valid(Next(s, run[0]), run[1..]))
  }

  function Exec(s: State, run: seq<Action>): State
    requires Valid(s, run)
    decreases |run|
  {
    if run == [] then s else Exec(Next(s, run[0]), run[1..])
  }

  /** A run can be continued by any step enabled where it ends. */
  lemma {:induction false} OneMore(s: State, run: seq<Action>, a: Action)
    requires Valid(s, run) && Enabled(Exec(s, run), a)
    ensures Valid(s, run + [a]) && Exec(s, run + [a]) == Next(Exec(s, run), a)
    decreases |run|
  {
    if run == [] {
      assert ([] + [a])[1..] == [];
    } else {
      assert (run + [a])[1..] == run[1..] + [a];
      OneMore(Next(s, run[0]), run[1..], a);
    }
  }

  /* ---------- the invariant ---------- */

  /** An entry is where its priority says, unless a replay put it on the base stream. */
  ghost predicate Routed(s: State, e: Entry) {
    && (e.origin.Reinserted? ==> e.stream == s.base && e.body.Encoded?)
    && (e.body.Encoded? && e.stream != DlqStream(s.base) && !e.origin.Reinserted? ==>
          e.stream == StreamFor(s.base, e.body.task.priority))
  }

  ghost predicate EntryFits(s: State, p: nat)
    requires p < |s.journal|
  {
    var e := s.journal[p];
    && Routed(s, e)
    && (e.body.Encoded? ==> e.root < |s.roots|)
    && (!e.body.Encoded? ==> e.life.Open?)
    && (e.origin.Reinserted? ==> e.root in s.again)
    && (e.life.Won? ==> e.root in s.wins)
    && (e.life.Copied? ==>
          p < e.life.to < |s.journal| && s.journal[e.life.to].body.Encoded? && s.journal[e.life.to].root == e.root)
    && (e.stream == DlqStream(s.base) ==> p !in s.places && (e.life.Open? || (e.life.Copied? && e.root in s.again)))
    && (e.stream != DlqStream(s.base) && p !in s.places ==> e.life.Open?)
    && (p in s.deleted || p in s.deleting ==> e.life.Copied? && e.stream == DlqStream(s.base))
  }

  /**
   A delivered entry is pending until its own worker, having handled it, or an acknowledgement
   meant for another entry removes it.
  */
  ghost predicate PlaceFits(s: State, p: nat)
    requires p in s.places
  {
    && p < |s.journal| && s.journal[p].stream in s.cursors && p < s.cursors[s.journal[p].stream]
    && (p in s.pending <==> p !in s.acked && p !in s.strays)
    && (p in s.acked ==> s.places[p].Left? && (s.journal[p].body.Encoded? ==> !s.journal[p].life.Open?))
    && (s.places[p].Queued? ==> s.journal[p].life.Open?)
  }

  ghost predicate Agrees(s: State, x: Worker, e: Entry) {
    match x
    case Processing(_, t) => e.body == Encoded(t) && e.life.Open?
    case Storing(_, t, requeue) => e.body.Encoded? && e.life.Open? && SameCore(t, e.body.task)
    case Telling(_, t) => e.body.Encoded? && !e.life.Open? && SameCore(t, e.body.task)
    case Acking(_, target) => target == Target(s, e.body) && (e.body.Encoded? ==> !e.life.Open?)
    case _ => true
  }

  ghost predicate WorkerFits(s: State, w: nat)
    requires w < |s.workers|
  {
    var x := s.workers[w];
    x.Busy() ==> x.p < |s.journal| && x.p in s.places && s.places[x.p] == Hand(w) && Agrees(s, x, s.journal[x.p])
  }

  ghost predicate Custody(s: State) {
    && (forall p :: p in s.places ==> PlaceFits(s, p))
    && s.pending <= s.places.Keys && s.acked <= s.places.Keys && s.strays <= s.places.Keys
    && (forall w :: 0 <= w < |s.workers| ==> WorkerFits(s, w))
    && NoDup(Queue(s))
    && (forall i :: 0 <= i < |Queue(s)| ==> Queue(s)[i] in s.places && s.places[Queue(s)[i]] == Queued)
  }

  ghost predicate StoreFits(s: State) {
    && s.cursors.Keys == {HighStream(s.base), s.base, LowStream(s.base)}
    && (forall p :: p in s.deleted || p in s.deleting ==> p < |s.journal|)
    && (forall stream :: stream in s.cursors ==> s.cursors[stream] <= |s.journal|)
    && (forall p, q :: 0 <= p < q < |s.journal| && s.journal[p].stream == s.journal[q].stream ==>
          s.journal[p].id != s.journal[q].id)
  }

  /** Entry `p` is a copy of produce `r`. */
  ghost predicate Descendant(j: seq<Entry>, p: nat, r: nat) {
    p < |j| && j[p].body.Encoded? && j[p].root == r
  }

  ghost predicate Kin(j: seq<Entry>, p: nat, q: nat)
    requires p < |j| && q < |j|
  {
    j[p].body.Encoded? && j[q].body.Encoded? && j[p].root == j[q].root
  }

  /** Unless it was replayed, only the newest copy of a task has not been copied on. */
  ghost predicate NewestOnly(j: seq<Entry>, again: set<nat>) {
    forall p, q :: 0 <= p < q < |j| && Kin(j, p, q) && j[p].root !in again ==> j[p].life.Copied?
  }

  ghost predicate Chains(s: State) {
    && (forall r :: 0 <= r < |s.roots| ==> Descendant(s.journal, s.roots[r], r))
    && (forall r :: r in s.wins ==> Descendant(s.journal, s.wins[r], r) && s.journal[s.wins[r]].life.Won?)
    && NewestOnly(s.journal, s.again)
  }

  ghost predicate Inv(s: State) {
    && StoreFits(s) && Custody(s) && Chains(s)
    && forall p :: 0 <= p < |s.journal| ==> EntryFits(s, p)
  }
}
