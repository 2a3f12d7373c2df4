/**
 Runs of the priority consumer that lose a task, for every task and every policy that allows them;
 and with them the exact conditions under which tasks are kept and acknowledgements go astray.
*/
module PriorityRuns {
  import opened Tasks
  import opened Routing
  import opened PriorityMachine
  import opened PriorityRouting
  import opened PriorityLoss
  import opened PriorityPolicy

  /* ---------- moving the fetcher and delivering one message ---------- */

  /** The fetcher is between two turns of a round, and nothing is queued. */
  ghost predicate Idling(y: Policy, o: State, s: State) {
    && Reached(y, o, s) && StoreFits(s) && !s.cancelled && s.chan == [] && |s.workers| >= 1
    && (s.fetcher.Top? || (s.fetcher.Reading? && s.fetcher.k < 3))
  }

  /** A turn that finds nothing. */
  lemma SkipTurn(y: Policy, o: State, s: State) returns (t: State)
    requires Idling(y, o, s) && s.fetcher.Reading?
    ensures Idling(y, o, t) && t == s.(fetcher := After(s.fetcher.k))
  {
    assert Turn(s, s.fetcher.k) in s.cursors;
    t := Step(y, o, s, Fetch(Read(0, Ok)));
    assert t == s.(fetcher := Dispatching(s.fetcher.k, []));
    t := Step(y, o, t, Fetch(Advance));
  }

  function Distance(f: Fetcher, k: nat): nat
    requires k < 3
  {
    match f
    case Top => k + 1
    case Reading(j) => if j <= k then k - j else if j < 3 then 4 - j + k else 0
    case _ => 0
  }

  /** Turns that find nothing, up to the turn of stream `k`. */
  lemma {:induction false} GoTo(y: Policy, o: State, s: State, k: nat) returns (t: State)
    requires Idling(y, o, s) && k < 3
    ensures Idling(y, o, t) && t == s.(fetcher := Reading(k))
    decreases Distance(s.fetcher, k)
  {
    if s.fetcher == Reading(k) {
      t := s;
    } else if s.fetcher.Top? {
      t := Step(y, o, s, Fetch(Check));
      t := GoTo(y, o, t, k);
    } else {
      t := SkipTurn(y, o, s);
      t := GoTo(y, o, t, k);
    }
  }

  /** The next entry of stream `k` is `p`, among the next `n` entries of the journal. */
  ghost predicate NextOn(s: State, k: nat, n: nat, p: nat) {
    && k < 3 && Turn(s, k) in s.cursors && s.cursors[Turn(s, k)] + n <= |s.journal| && p < |s.journal|
    && On(s.journal, Turn(s, k), s.cursors[Turn(s, k)], s.cursors[Turn(s, k)] + n) == [p]
  }

  /** The only entry of a stream among those yet to be read is the next one. */
  lemma OnlyNext(s: State, k: nat, n: nat, p: nat)
    requires k < 3 && Turn(s, k) in s.cursors && s.cursors[Turn(s, k)] + n <= |s.journal|
    requires s.cursors[Turn(s, k)] <= p < s.cursors[Turn(s, k)] + n && s.journal[p].stream == Turn(s, k)
    requires forall q :: s.cursors[Turn(s, k)] <= q < s.cursors[Turn(s, k)] + n && q != p ==>
             s.journal[q].stream != Turn(s, k)
    ensures NextOn(s, k, n, p)
  {
    var ps := On(s.journal, Turn(s, k), s.cursors[Turn(s, k)], s.cursors[Turn(s, k)] + n);
    assert p in ps;
    assert |ps| > 1 ==> ps[0] != ps[1];
    forall i | 0 <= i < |ps|
      ensures ps[i] == p
    {
      assert ps[i] in ps;
    }
  }

  /** Delivery of one entry: to the channel, or to worker 0. */
  function Delivered(s: State, k: nat, n: nat, p: nat, place: Place): State
    requires k < 3 && Turn(s, k) in s.cursors
  {
    s.(cursors := s.cursors[Turn(s, k) := s.cursors[Turn(s, k)] + n], pending := s.pending + {p},
       places := s.places[p := place])
  }

  lemma PlaceOne(m: map<nat, Place>, p: nat, place: Place)
    ensures PlaceAll(m, [p], place) == m[p := place] && (set q | q in [p]) == {p}
  {
  }

  lemma ReadMay(s: State, k: nat, n: nat, ps: seq<nat>)
    requires s.fetcher == Reading(k) && k < 3 && Turn(s, k) in s.cursors && s.cursors[Turn(s, k)] + n <= |s.journal|
    requires ps == On(s.journal, Turn(s, k), s.cursors[Turn(s, k)], s.cursors[Turn(s, k)] + n) && |ps| == 1
    ensures FetchEnabled(s, Read(n, Ok))
  {
  }

  lemma ReadGives(s: State, k: nat, n: nat, p: nat, ps: seq<nat>)
    requires s.fetcher == Reading(k) && k < 3 && Turn(s, k) in s.cursors && s.cursors[Turn(s, k)] + n <= |s.journal|
    requires ps == On(s.journal, Turn(s, k), s.cursors[Turn(s, k)], s.cursors[Turn(s, k)] + n) && |ps| == 1
    requires PlaceAll(s.places, ps, Queued) == s.places[p := Queued] && (set q | q in ps) == {p}
    requires FetchEnabled(s, Read(n, Ok))
    ensures FetchNext(s, Read(n, Ok)) == Delivered(s, k, n, p, Queued).(fetcher := Dispatching(k, ps))
  {
  }

  /** A turn at stream `k` that reads entry `p`. */
  lemma ReadOne(y: Policy, o: State, s: State, k: nat, n: nat, p: nat) returns (t: State)
    requires Reached(y, o, s) && s.fetcher == Reading(k) && NextOn(s, k, n, p)
    ensures Reached(y, o, t) && t == Delivered(s, k, n, p, Queued).(fetcher := Dispatching(k, [p]))
  {
    PlaceOne(s.places, p, Queued);
    ReadMay(s, k, n, [p]);
    ReadGives(s, k, n, p, [p]);
    t := Step(y, o, s, Fetch(Read(n, Ok)));
  }

  lemma NextOnStays(s: State, t: State, k: nat, n: nat, p: nat)
    requires NextOn(s, k, n, p) && t.base == s.base && t.journal == s.journal && t.cursors == s.cursors
    ensures NextOn(t, k, n, p)
  {
  }

  lemma DeliveredFits(s: State, t: State, k: nat, n: nat, p: nat)
    requires StoreFits(s) && NextOn(s, k, n, p) && t.base == s.base && t.journal == s.journal
    requires t.deleted == s.deleted && t.deleting == s.deleting
    requires t.cursors == s.cursors[Turn(s, k) := s.cursors[Turn(s, k)] + n]
    ensures StoreFits(t)
  {
  }

  lemma SendOne(y: Policy, o: State, s: State, k: nat, p: nat) returns (t: State)
    requires Reached(y, o, s) && s.fetcher == Dispatching(k, [p]) && s.chan == [] && |s.workers| >= 1
    ensures Reached(y, o, t) && t == s.(fetcher := After(k), chan := [p])
  {
    t := Step(y, o, s, Fetch(Send));
    assert [p][1..] == [] && [] + [p] == [p];
    assert t == s.(fetcher := Dispatching(k, []), chan := [p]);
    t := Step(y, o, t, Fetch(Advance));
  }

  /** Entry `p` of stream `k` is read and queued. */
  lemma Bring(y: Policy, o: State, s: State, k: nat, n: nat, p: nat) returns (t: State)
    requires Idling(y, o, s) && NextOn(s, k, n, p)
    ensures Reached(y, o, t) && StoreFits(t)
    ensures t == Delivered(s, k, n, p, Queued).(fetcher := After(k), chan := [p])
  {
    t := GoTo(y, o, s, k);
    NextOnStays(s, t, k, n, p);
    t := ReadOne(y, o, t, k, n, p);
    t := SendOne(y, o, t, k, p);
    DeliveredFits(s, t, k, n, p);
  }

  /** What a worker makes of a message it receives. */
  function Received(s: State, p: nat): Worker
    requires p < |s.journal|
  {
    match s.journal[p].body
    case Encoded(task) => Processing(p, task)
    case _ => Acking(p, s.base)
  }

  lemma Receive(y: Policy, o: State, s: State, p: nat) returns (t: State)
    requires Reached(y, o, s) && s.chan == [p] && p < |s.journal| && |s.workers| >= 1 && s.workers[0].Idle?
    ensures Reached(y, o, t)
    ensures t == s.(chan := [], workers := s.workers[0 := Received(s, p)], places := s.places[p := Hand(0)])
  {
    t := Step(y, o, s, Work(0, Take));
    assert [p][1..] == [];
  }

  /** Entry `p` of stream `k` is read, and worker 0 receives it. */
  lemma Deliver(y: Policy, o: State, s: State, k: nat, n: nat, p: nat) returns (t: State)
    requires Idling(y, o, s) && NextOn(s, k, n, p) && s.workers[0].Idle?
    ensures Idling(y, o, t)
    ensures t == Delivered(s, k, n, p, Hand(0)).(fetcher := After(k), workers := s.workers[0 := Received(s, p)])
  {
    var u := Bring(y, o, s, k, n, p);
    t := Receive(y, o, u, p);
    InHand(s, k, n, p, u, t);
    DeliveredFits(s, t, k, n, p);
  }

  /** From the channel to the worker's hands. */
  lemma InHand(s: State, k: nat, n: nat, p: nat, u: State, t: State)
    requires k < 3 && Turn(s, k) in s.cursors && p < |s.journal| && |s.workers| >= 1 && s.chan == []
    requires u == Delivered(s, k, n, p, Queued).(fetcher := After(k), chan := [p])
    requires t == u.(chan := [], workers := u.workers[0 := Received(u, p)], places := u.places[p := Hand(0)])
    ensures t == Delivered(s, k, n, p, Hand(0)).(fetcher := After(k), workers := s.workers[0 := Received(s, p)])
  {
    assert s.places[p := Queued][p := Hand(0)] == s.places[p := Hand(0)];
  }

  /** The turn of a priority's stream. */
  function TurnOf(priority: string): (k: nat)
    ensures k < 3
  {
    if priority == HIGH then 0 else if priority == LOW then 2 else 1
  }

  lemma TurnOfStream(s: State, priority: string)
    ensures Turn(s, TurnOf(priority)) == StreamFor(s.base, priority)
  {
  }

  /* ---------- a lost add ---------- */

  lemma Start(y: Policy, base: string, batch: int, workerCount: nat)
    requires workerCount >= 1
    ensures var o := Init(base, batch, workerCount); Idling(y, o, o) && o.workers[0].Idle?
  {
    var o := Init(base, batch, workerCount);
    assert Valid(o, []) && Within(y, o, []) && o == Exec(o, []);
    InvInit(base, batch, workerCount);
  }

  /** The first task of all is produced with ID 0. */
  lemma FirstProduced(y: Policy, base: string, batch: int, workerCount: nat, task: Task) returns (s: State)
    requires workerCount >= 1
    ensures var o := Init(base, batch, workerCount);
            && Idling(y, o, s) && s.workers[0].Idle?
            && s == o.(journal := [Entry(StreamFor(base, task.priority), 0, Encoded(task), Produced, 0, Open)],
                       roots := [0])
  {
    var o := Init(base, batch, workerCount);
    Start(y, base, batch, workerCount);
    InvInit(base, batch, workerCount);
    s := Step(y, o, o, Outside(Produce(task, 0, Ok)));
    OutsideKeeps(o, Produce(task, 0, Ok));
  }

  /** Its entry is the next of its stream. */
  lemma FirstNext(base: string, batch: int, workerCount: nat, s: State, task: Task)
    requires s.base == base && s.cursors == Init(base, batch, workerCount).cursors
    requires |s.journal| == 1 && s.journal[0].stream == StreamFor(base, task.priority)
    ensures NextOn(s, TurnOf(task.priority), 1, 0) && Turn(s, TurnOf(task.priority)) == StreamFor(base, task.priority)
    ensures s.cursors[StreamFor(base, task.priority)] == 0
  {
    TurnOfStream(s, task.priority);
    OnlyNext(s, TurnOf(task.priority), 1, 0);
  }

  /** And worker 0 receives it. */
  lemma FirstReceived(y: Policy, base: string, batch: int, workerCount: nat, task: Task) returns (s: State)
    requires workerCount >= 1
    ensures Idling(y, Init(base, batch, workerCount), s) && s.base == base && s.workers[0] == Processing(0, task)
    ensures s.journal == [Entry(StreamFor(base, task.priority), 0, Encoded(task), Produced, 0, Open)]
    ensures s.roots == [0] && s.again == {}
    ensures s.cursors == Init(base, batch, workerCount).cursors[StreamFor(base, task.priority) := 1]
  {
    var s0 := FirstProduced(y, base, batch, workerCount, task);
    FirstNext(base, batch, workerCount, s0, task);
    s := Deliver(y, Init(base, batch, workerCount), s0, TurnOf(task.priority), 1, 0);
  }

  /** Produce `r` is that task. */
  ghost predicate RootIs(s: State, r: nat, task: Task) {
    r < |s.roots| && s.roots[r] < |s.journal| && s.journal[s.roots[r]].body == Encoded(task)
  }

  lemma {:induction false} RootStays(s: State, run: seq<Action>, r: nat, task: Task)
    requires Valid(s, run) && RootIs(s, r, task)
    ensures RootIs(Exec(s, run), r, task)
    decreases |run|
  {
    if run != [] {
      var t := Next(s, run[0]);
      assert Extends(s.journal, t.journal) && s.roots <= t.roots;
      RootStays(t, run[1..], r, task);
    }
  }

  lemma GiveUpWithin(y: Policy, s: State, w: nat, id: nat, requeue: bool)
    requires y.lostAdds && Valid(s, GiveUp(w, id, requeue))
    ensures Within(y, s, GiveUp(w, id, requeue))
  {
    var run := GiveUp(w, id, requeue);
    var t := Next(s, run[0]);
    if requeue {
      assert run[1..] == [Work(w, Ack(Ok))] && run[1..][1..] == [];
      assert Within(y, Next(t, run[1..][0]), []);
    } else {
      assert run[1..] == [Work(w, Tell), Work(w, Ack(Ok))] && run[1..][1..] == [Work(w, Ack(Ok))];
      var u := Next(t, run[1..][0]);
      assert Within(y, Next(u, Work(w, Ack(Ok))), []);
      assert Within(y, u, [Work(w, Ack(Ok))]);
    }
  }

  /** The only entry is in the hands of worker 0, which is about to store a copy. */
  lemma OnlyOne(s: State, task: Task)
    requires Inv(s) && s.again == {} && |s.workers| >= 1 && s.workers[0].Storing? && s.workers[0].p == 0
    requires s.journal == [Entry(StreamFor(s.base, task.priority), 0, Encoded(task), Produced, 0, Open)]
    ensures LastHope(s, 0, 0) && WorkEnabled(s, 0, Store(1, Err(false)))
  {
  }

  /** The first task of all has failed, and its copy is about to be stored. */
  lemma FirstFailed(y: Policy, base: string, batch: int, workerCount: nat, task: Task) returns (s: State)
    requires workerCount >= 1
    ensures Reached(y, Init(base, batch, workerCount), s) && RootIs(s, 0, task)
    ensures LastHope(s, 0, 0) && WorkEnabled(s, 0, Store(1, Err(false)))
  {
    var s0 := FirstReceived(y, base, batch, workerCount, task);
    AnswerGives(s0, 0, 0, task);
    s := Step(y, Init(base, batch, workerCount), s0, Work(0, Answer(false)));
    ReachedInv(y, base, batch, workerCount, s);
    OnlyOne(s, task);
  }

  lemma AnswerGives(s: State, w: nat, p: nat, task: Task)
    requires w < |s.workers| && s.workers[w] == Processing(p, task) && p < |s.journal|
    ensures WorkEnabled(s, w, Answer(false))
    ensures var t := WorkNext(s, w, Answer(false));
            && t == s.(workers := t.workers) && |t.workers| == |s.workers|
            && t.workers[w].Storing? && t.workers[w].p == p
  {
  }

  /** Every task can be lost by one add that does not land, with nothing else going wrong. */
  lemma AddLost(y: Policy, base: string, batch: int, workerCount: nat, task: Task) returns (s: State)
    requires workerCount >= 1 && y.lostAdds
    ensures Reached(y, Init(base, batch, workerCount), s) && RootIs(s, 0, task) && !Safe(s, 0)
  {
    s := FirstFailed(y, base, batch, workerCount, task);
    var requeue := s.workers[0].requeue;
    FailedAddLoses(s, 0, 1, 0);
    GiveUpWithin(y, s, 0, 1, requeue);
    RootStays(s, GiveUp(0, 1, requeue), 0, task);
    s := Steps(y, Init(base, batch, workerCount), s, GiveUp(0, 1, requeue));
  }

  /* ---------- a stray acknowledgement ---------- */

  /** Entry `v` is the one copy of produce `r`, untouched. */
  ghost predicate Lone(s: State, v: nat, r: nat, task: Task) {
    && RootIs(s, r, task) && r !in s.again && Descendant(s.journal, v, r) && s.journal[v].life.Open?
    && forall q: nat :: Descendant(s.journal, q, r) ==> q == v
  }

  /** Produce `r` is lost to a stray acknowledgement: never replayed, and every add of its copies landed. */
  ghost predicate LostAstray(s: State, r: nat, task: Task) {
    && RootIs(s, r, task) && r !in s.again && !Safe(s, r) && s.strays != {}
    && forall q: nat :: !LostAdd(s, q, r)
  }

  lemma LoneLost(s: State, t: State, v: nat, r: nat, task: Task)
    requires Inv(s) && Lone(s, v, r, task) && s.journal[v].stream != DlqStream(s.base)
    requires t.base == s.base && t.journal == s.journal && t.roots == s.roots && t.again == s.again && t.wins == s.wins
    requires v in t.places && v !in t.pending && v in t.strays
    ensures LostAstray(t, r, task)
  {
    forall q: nat | Descendant(t.journal, q, r)
      ensures !Kept(t, q)
    {
      assert q == v;
    }
  }

  /** Worker 0 acknowledges `p` on the stream of `v`, which has the same ID there and was just delivered. */
  lemma HitNext(y: Policy, o: State, s: State, k: nat, n: nat, v: nat) returns (t: State)
    requires Idling(y, o, s) && NextOn(s, k, n, v) && Holds(s, 0) && s.workers[0].Acking? &&
             s.workers[0].target == Turn(s, k)
    requires s.journal[v].stream == Turn(s, k) && s.journal[v].id == s.journal[s.workers[0].p].id && v != s.workers[0].p
    ensures Reached(y, o, t) && t.chan == [v] && |t.workers| >= 1 && t.workers[0].Idle?
    ensures t.base == s.base && t.journal == s.journal && t.roots == s.roots && t.again == s.again && t.wins == s.wins
    ensures v in t.places && v !in t.pending && v in t.strays
  {
    t := Bring(y, o, s, k, n, v);
    assert v in Hits(t, t.workers[0].target, t.journal[t.workers[0].p].id);
    t := Step(y, o, t, Work(0, Ack(Ok)));
  }

  /** Then the worker receives `v` and panics: nothing of it is left. */
  lemma HitAndGone(y: Policy, o: State, s: State, k: nat, n: nat, v: nat, r: nat, task: Task) returns (t: State)
    requires Idling(y, o, s) && NextOn(s, k, n, v) && Holds(s, 0) && s.workers[0].Acking? &&
             s.workers[0].target == Turn(s, k)
    requires s.journal[v].stream == Turn(s, k) && s.journal[v].id == s.journal[s.workers[0].p].id && v != s.workers[0].p
    requires Inv(s) && Lone(s, v, r, task) && s.journal[v].stream != DlqStream(s.base)
    ensures Reached(y, o, t) && LostAstray(t, r, task)
  {
    t := HitNext(y, o, s, k, n, v);
    t := Receive(y, o, t, v);
    t := Step(y, o, t, Work(0, Crash));
    LoneLost(s, t, v, r, task);
  }

  /** A malformed entry on an urgent or low stream costs a task of the base stream. */
  lemma ForeignLoses(y: Policy, base: string, batch: int, workerCount: nat, k: nat, task: Task) returns (s: State)
    requires workerCount >= 1 && (k == 0 || k == 2) && y.foreign(Streams(base)[k]) && !UrgentOrLow(task)
    ensures Reached(y, Init(base, batch, workerCount), s) && LostAstray(s, 0, task)
  {
    var o := Init(base, batch, workerCount);
    s := ForeignFirst(y, base, batch, workerCount, k, task);
    OnlyNext(s, 1, 2, 1);
    ReachedInv(y, base, batch, workerCount, s);
    NamesDiffer(base);
    s := HitAndGone(y, o, s, 1, 2, 1, 0, task);
  }

  /** A malformed entry, and a task of the base stream with the same ID. */
  lemma ForeignStored(y: Policy, base: string, batch: int, workerCount: nat, k: nat, task: Task) returns (s: State)
    requires workerCount >= 1 && (k == 0 || k == 2) && y.foreign(Streams(base)[k]) && !UrgentOrLow(task)
    ensures Reached(y, Init(base, batch, workerCount), s)
    ensures s == Init(base, batch, workerCount).(roots := [1], journal :=
                   [Entry(Streams(base)[k], 1, NoPayload, Produced, 0, Open),
                     Entry(base, 1, Encoded(task), Produced, 0, Open)])
  {
    var o := Init(base, batch, workerCount);
    Start(y, base, batch, workerCount);
    NamesDiffer(base);
    s := Step(y, o, o, Outside(Foreign(Streams(base)[k], 1, NoPayload)));
    s := Step(y, o, s, Outside(Produce(task, 1, Ok)));
  }

  lemma ForeignFirst(y: Policy, base: string, batch: int, workerCount: nat, k: nat, task: Task) returns (s: State)
    requires workerCount >= 1 && (k == 0 || k == 2) && y.foreign(Streams(base)[k]) && !UrgentOrLow(task)
    ensures Idling(y, Init(base, batch, workerCount), s) && s.base == base && s.workers[0] == Acking(0, base)
    ensures s.journal == [Entry(Streams(base)[k], 1, NoPayload, Produced, 0, Open),
            Entry(base, 1, Encoded(task), Produced, 0, Open)]
    ensures s.roots == [1] && s.again == {} && base in s.cursors && s.cursors[base] == 0
  {
    var o := Init(base, batch, workerCount);
    NamesDiffer(base);
    s := ForeignStored(y, base, batch, workerCount, k, task);
    ReachedInv(y, base, batch, workerCount, s);
    OnlyNext(s, k, 1, 0);
    s := Deliver(y, o, s, k, 1, 0);
  }

  /** The first task has been received, `cursors` says how far each stream was read, and only worker 0 is busy. */
  ghost predicate Underway(y: Policy, base: string, batch: int, workerCount: nat, s: State, x: Worker) {
    && Reached(y, Init(base, batch, workerCount), s) && s.base == base && !s.cancelled && s.chan == []
    && (s.fetcher.Top? || (s.fetcher.Reading? && s.fetcher.k < 3)) && |s.workers| >= 1 && s.workers[0] == x
  }

  /** The three entries: a task that was buried, another behind it, and the dead-letter entry. */
  function Three(base: string, dead: Task, task: Task): seq<Entry> {
    var stream := StreamFor(base, task.priority);
    [Entry(stream, 0, Encoded(dead), Produced, 0, Copied(2)), Entry(stream, 1, Encoded(task), Produced, 1, Open),
     Entry(DlqStream(base), 0, Encoded(dead), Retried, 0, Open)]
  }

  /** A task without retries is received, and another of the same stream is behind it. */
  lemma TwoProduced(y: Policy, base: string, batch: int, workerCount: nat, dead: Task, task: Task) returns (s: State)
    requires workerCount >= 1 && UrgentOrLow(task) && dead.priority == task.priority
    ensures Underway(y, base, batch, workerCount, s, Processing(0, dead))
    ensures s.journal == Three(base, dead, task)[..2][0 := Three(base, dead, task)[0].(life := Open)]
    ensures s.roots == [0, 1] && s.again == {} && CursorsAt(s, task.priority)
  {
    var o := Init(base, batch, workerCount);
    s := FirstReceived(y, base, batch, workerCount, dead);
    s := Step(y, o, s, Outside(Produce(task, 1, Ok)));
  }

  /** One entry of the priority's stream has been read, and none of the base stream. */
  ghost predicate CursorsAt(s: State, priority: string) {
    && StreamFor(s.base, priority) in s.cursors && s.cursors[StreamFor(s.base, priority)] == 1
    && s.base in s.cursors && s.cursors[s.base] == 0
  }

  /** The first task fails, and its copy is on the dead-letter stream. */
  lemma CopyStored(y: Policy, base: string, batch: int, workerCount: nat, dead: Task, task: Task) returns (s: State)
    requires workerCount >= 1 && UrgentOrLow(task) && dead.priority == task.priority && RetriesLeft(dead) == 0
    ensures Underway(y, base, batch, workerCount, s, Telling(0, dead))
    ensures s.journal == Three(base, dead, task) && s.roots == [0, 1] && s.again == {} && CursorsAt(s, task.priority)
  {
    var o := Init(base, batch, workerCount);
    NamesDiffer(base);
    s := TwoProduced(y, base, batch, workerCount, dead, task);
    s := Step(y, o, s, Work(0, Answer(false)));
    s := Step(y, o, s, Work(0, Store(0, Ok)));
  }

  lemma Buried(y: Policy, base: string, batch: int, workerCount: nat, dead: Task, task: Task) returns (s: State)
    requires workerCount >= 1 && UrgentOrLow(task) && dead.priority == task.priority && RetriesLeft(dead) == 0
    ensures Underway(y, base, batch, workerCount, s, Idle)
    ensures s.journal == Three(base, dead, task) && s.roots == [0, 1] && s.again == {} && CursorsAt(s, task.priority)
  {
    var o := Init(base, batch, workerCount);
    s := CopyStored(y, base, batch, workerCount, dead, task);
    s := Step(y, o, s, Work(0, Tell));
    s := Step(y, o, s, Work(0, Ack(Ok)));
  }

  /** The four entries after a replay has put the first task on the base stream. */
  function Four(base: string, dead: Task, task: Task): seq<Entry> {
    Three(base, dead, task)[2 := Three(base, dead, task)[2].(life := Copied(3))]
    + [Entry(base, 1, Encoded(dead.(currentRetries := 0)), Reinserted, 0, Open)]
  }

  lemma PutBack(y: Policy, base: string, batch: int, workerCount: nat, dead: Task, task: Task) returns (s: State)
    requires workerCount >= 1 && UrgentOrLow(task) && dead.priority == task.priority && RetriesLeft(dead) == 0
    requires y.replays(task.priority)
    ensures Underway(y, base, batch, workerCount, s, Idle)
    ensures s.journal == Four(base, dead, task) && s.roots == [0, 1] && s.again == {0} && CursorsAt(s, task.priority)
  {
    var o := Init(base, batch, workerCount);
    NamesDiffer(base);
    s := Buried(y, base, batch, workerCount, dead, task);
    s := Step(y, o, s, Outside(Reinsert(2, 1, Ok)));
  }

  /** The replayed task is received from the base stream. */
  lemma ReceivedAgain(y: Policy, base: string, batch: int, workerCount: nat, dead: Task, task: Task) returns (s: State)
    requires workerCount >= 1 && UrgentOrLow(task) && dead.priority == task.priority && RetriesLeft(dead) == 0
    requires y.replays(task.priority)
    ensures Underway(y, base, batch, workerCount, s, Processing(3, dead.(currentRetries := 0)))
    ensures s.journal == Four(base, dead, task) && s.roots == [0, 1] && s.again == {0}
    ensures StreamFor(base, task.priority) in s.cursors && s.cursors[StreamFor(base, task.priority)] == 1
  {
    var o := Init(base, batch, workerCount);
    NamesDiffer(base);
    s := PutBack(y, base, batch, workerCount, dead, task);
    ReachedInv(y, base, batch, workerCount, s);
    OnlyNext(s, 1, 4, 3);
    s := Deliver(y, o, s, 1, 4, 3);
  }

  /** It succeeds; the worker is about to acknowledge on the stream of its priority. */
  lemma ReplayedAgain(y: Policy, base: string, batch: int, workerCount: nat, dead: Task, task: Task) returns (s: State)
    requires workerCount >= 1 && UrgentOrLow(task) && dead.priority == task.priority && RetriesLeft(dead) == 0
    requires y.replays(task.priority)
    ensures Underway(y, base, batch, workerCount, s, Acking(3, StreamFor(base, task.priority)))
    ensures s.journal == Four(base, dead, task)[3 := Four(base, dead, task)[3].(life := Won)]
    ensures s.roots == [0, 1] && s.again == {0}
    ensures StreamFor(base, task.priority) in s.cursors && s.cursors[StreamFor(base, task.priority)] == 1
  {
    s := ReceivedAgain(y, base, batch, workerCount, dead, task);
    s := Step(y, Init(base, batch, workerCount), s, Work(0, Answer(true)));
  }

  /** A replayed urgent or low task costs another one of its stream, never replayed itself. */
  lemma ReplayLoses(y: Policy, base: string, batch: int, workerCount: nat, task: Task) returns (s: State)
    requires workerCount >= 1 && UrgentOrLow(task) && y.replays(task.priority)
    ensures Reached(y, Init(base, batch, workerCount), s) && LostAstray(s, 1, task)
  {
    var o := Init(base, batch, workerCount);
    NamesDiffer(base);
    var dead := task.(currentRetries := 0, maxRetries := 0);
    s := ReplayedAgain(y, base, batch, workerCount, dead, task);
    TurnOfStream(s, task.priority);
    ReachedInv(y, base, batch, workerCount, s);
    OnlyNext(s, TurnOf(task.priority), 1, 1);
    s := HitAndGone(y, o, s, TurnOf(task.priority), 1, 1, 1, task);
  }

  /* ---------- the exact conditions ---------- */

  lemma StaysObedient(y: Policy, base: string, batch: int, workerCount: nat, s: State)
    requires Reached(y, Init(base, batch, workerCount), s)
    ensures Inv(s) && Obedient(y, s) && s.base == base
  {
    var o := Init(base, batch, workerCount);
    var run :| Valid(o, run) && Within(y, o, run) && s == Exec(o, run);
    InvInit(base, batch, workerCount);
    ReachedInv(y, base, batch, workerCount, s);
    ObedientRun(y, o, run);
    BaseStays(o, run);
  }

  lemma {:induction false} BaseStays(s: State, run: seq<Action>)
    requires Valid(s, run)
    ensures Exec(s, run).base == s.base
    decreases |run|
  {
    if run != [] {
      BaseStays(Next(s, run[0]), run[1..]);
    }
  }

  /**
   A task is kept in every run that keeps to the policy if and only if the policy rules out every add
   of a copy that does not land, and: for an urgent or low task, replays of its priority; for any
   other, foreign entries on the urgent and the low stream. What the policy says of anything else
   does not matter.
  */
  lemma KeptIff(y: Policy, base: string, batch: int, workerCount: nat, task: Task)
    requires workerCount >= 1
    ensures !Threatened(y, base, task) <==>
              forall s, r: nat :: Reached(y, Init(base, batch, workerCount), s) && RootIs(s, r, task) ==> Safe(s, r)
  {
    if !Threatened(y, base, task) {
      forall s, r: nat | Reached(y, Init(base, batch, workerCount), s) && RootIs(s, r, task)
        ensures Safe(s, r)
      {
        ReachedInv(y, base, batch, workerCount, s);
        StaysObedient(y, base, batch, workerCount, s);
        UnthreatenedKept(y, s, r);
      }
    } else {
      var s, r := Loses(y, base, batch, workerCount, task);
    }
  }

  /** Whatever threatens a task can cost it. */
  lemma Loses(y: Policy, base: string, batch: int, workerCount: nat, task: Task) returns (s: State, r: nat)
    requires workerCount >= 1 && Threatened(y, base, task)
    ensures Reached(y, Init(base, batch, workerCount), s) && RootIs(s, r, task) && !Safe(s, r)
  {
    if y.lostAdds {
      r := 0;
      s := AddLost(y, base, batch, workerCount, task);
    } else if UrgentOrLow(task) {
      r := 1;
      s := ReplayLoses(y, base, batch, workerCount, task);
    } else {
      r := 0;
      s := ForeignLoses(y, base, batch, workerCount, if y.foreign(HighStream(base)) then 0 else 2, task);
    }
  }

  /** No urgent or low task is replayed, and nothing foreign lands on their streams. */
  predicate Harmless(y: Policy, base: string) {
    !y.replays(HIGH) && !y.replays(LOW) && !y.foreign(HighStream(base)) && !y.foreign(LowStream(base))
  }

  /** No acknowledgement ever goes astray if and only if the policy is harmless. */
  lemma StrayFreeIff(y: Policy, base: string, batch: int, workerCount: nat)
    requires workerCount >= 1
    ensures Harmless(y, base) <==> forall s :: Reached(y, Init(base, batch, workerCount), s) ==> s.strays == {}
  {
    if Harmless(y, base) {
      forall s | Reached(y, Init(base, batch, workerCount), s)
        ensures s.strays == {}
      {
        StaysObedient(y, base, batch, workerCount, s);
        if p :| p in s.strays {
          assert Misdirected(s, p);
          var e: nat :| Misdirects(s, e, p);
          StrayTells(y, s, e, p);
          assert false;
        }
      }
    } else {
      var s := GoesAstray(y, base, batch, workerCount);
    }
  }

  lemma GoesAstray(y: Policy, base: string, batch: int, workerCount: nat) returns (s: State)
    requires workerCount >= 1 && !Harmless(y, base)
    ensures Reached(y, Init(base, batch, workerCount), s) && s.strays != {}
  {
    var task := Task("", "", "", 0, 0, 0, "", "", "", None);
    if y.replays(HIGH) {
      s := ReplayLoses(y, base, batch, workerCount, task.(priority := HIGH));
    } else if y.replays(LOW) {
      s := ReplayLoses(y, base, batch, workerCount, task.(priority := LOW));
    } else {
      s := ForeignLoses(y, base, batch, workerCount, if y.foreign(HighStream(base)) then 0 else 2, task);
    }
  }
}
