/** Without new work the queue does finitely much: a bound on the steps of every run. */
module Termination {
  import opened Tasks
  import opened Queue
  import opened Gauges
  import opened Custody
  import opened Handling

  /** The price of an undelivered entry: one attempt, and one for every retry left. */
  function Price(body: Body): (p: nat)
    ensures p >= RETRY
  {
    match Decode(body)
    case Some(t) => RETRY * (RetriesLeft(t) + 1)
    case None => RETRY
  }

  /** The price of the main-stream entries with an ID in [lo, hi). */
  function Backlog(j: seq<Entry>, lo: nat, hi: nat): nat
    requires lo <= hi <= |j|
  {
    if lo == hi then 0
    else Backlog(j, lo, hi - 1) + if j[hi - 1].stream.Main? then Price(j[hi - 1].body) else 0
  }

  /** The price of queued messages, less the `paid` steps each has taken on its way. */
  function Underway(j: seq<Entry>, ids: seq<nat>, paid: nat): nat
    requires paid < RETRY
  {
    if ids == [] then 0
    else Underway(j, ids[1..], paid) + if ids[0] < |j| then Price(j[ids[0]].body) - paid else 0
  }

  /** All work in the system, in steps. */
  function Workload(s: State): nat
    requires s.cursor <= |s.journal|
  {
    Backlog(s.journal, s.cursor, |s.journal|) + Underway(s.journal, Batch(s.fetcher), 1)
    + Underway(s.journal, s.chan, 2) + Pool(Effort, s.workers)
  }

  lemma {:induction false} BacklogGrows(j: seq<Entry>, k: seq<Entry>, lo: nat, hi: nat)
    requires lo <= hi <= |j| && Grows(j, k)
    ensures Backlog(k, lo, hi) == Backlog(j, lo, hi)
    decreases hi
  {
    if lo < hi {
      BacklogGrows(j, k, lo, hi - 1);
    }
  }

  lemma {:induction false} BacklogSplit(j: seq<Entry>, lo: nat, mid: nat, hi: nat)
    requires lo <= mid <= hi <= |j|
    ensures Backlog(j, lo, hi) == Backlog(j, lo, mid) + Backlog(j, mid, hi)
    decreases hi
  {
    if mid < hi {
      BacklogSplit(j, lo, mid, hi - 1);
    }
  }

  lemma {:induction false} UnderwayGrows(j: seq<Entry>, k: seq<Entry>, ids: seq<nat>, paid: nat)
    requires paid < RETRY && Grows(j, k) && forall i :: i in ids ==> i < |j|
    ensures Underway(k, ids, paid) == Underway(j, ids, paid)
  {
    if ids != [] {
      assert ids[0] in ids;
      assert forall i :: i in ids[1..] ==> i in ids;
      UnderwayGrows(j, k, ids[1..], paid);
    }
  }

  lemma {:induction false} UnderwayConcat(j: seq<Entry>, a: seq<nat>, b: seq<nat>, paid: nat)
    requires paid < RETRY
    ensures Underway(j, a + b, paid) == Underway(j, a, paid) + Underway(j, b, paid)
  {
    if a == [] {
      assert a + b == b;
    } else {
      assert (a + b)[1..] == a[1..] + b;
      UnderwayConcat(j, a[1..], b, paid);
    }
  }

  lemma UnderwayOne(j: seq<Entry>, i: nat, paid: nat)
    requires paid < RETRY && i < |j|
    ensures Underway(j, [i], paid) == Price(j[i].body) - paid
  {
    assert [i][1..] == [];
  }

  /** Delivering entries pays one step for each. */
  lemma {:induction false} DeliveryPays(j: seq<Entry>, lo: nat, hi: nat)
    requires lo <= hi <= |j|
    ensures Underway(j, MainIds(j, lo, hi), 1) + |MainIds(j, lo, hi)| == Backlog(j, lo, hi)
    decreases hi
  {
    if lo < hi {
      DeliveryPays(j, lo, hi - 1);
      if j[hi - 1].stream.Main? {
        assert MainIds(j, lo, hi) == MainIds(j, lo, hi - 1) + [hi - 1];
        UnderwayConcat(j, MainIds(j, lo, hi - 1), [hi - 1], 1);
        UnderwayOne(j, hi - 1, 1);
      } else {
        assert MainIds(j, lo, hi) == MainIds(j, lo, hi - 1);
      }
    }
  }

  lemma {:induction false} BatchPays(j: seq<Entry>, ids: seq<nat>)
    requires forall i :: i in ids ==> i < |j|
    ensures Underway(j, ids, 1) >= |ids|
  {
    if ids != [] {
      assert ids[0] in ids;
      assert forall i :: i in ids[1..] ==> i in ids;
      BatchPays(j, ids[1..]);
    }
  }

  /* ---------- one step ---------- */

  /** The step moves a message along. */
  predicate Moves(s: State, a: Action)
    requires Enabled(s, a)
  {
    match a
    case Fetch(f) => (
      match f
      case FRead(n, _) => Backlog(s.journal, s.cursor, s.cursor + n) > 0
      case FSend => true
      case FAbandon => true
      case _ => false)
    case Work(_, x) => !x.Exit?
    case _ => false
  }

  /** The step stores new work from outside the consumer: a produce, a foreign entry or a replay. */
  predicate Brings(s: State, a: Action)
    requires Enabled(s, a)
  {
    match a
    case Env(e) => (e.Produce? && e.reply.Landed()) || (e.Foreign? && e.stream.Main?)
    case Retry(r, x) => x.Forward? && x.reply.Landed()
    case _ => false
  }

  /** What a worker's step does to the price of its message. */
  lemma EffortFalls(s: State, w: nat, a: WorkAction)
    requires WorkEnabled(s, w, a) && !a.Exit? && !a.Take? && Known(s, w, a)
    ensures EffortOf(WorkNext(s, w, a).workers[w])
              + (if a.Add? && a.reply.Landed() && s.workers[w].pc.AtRequeue? then Price(Encoded(s.workers[w].task))
                else 0)
            < EffortOf(s.workers[w])
  {
    if a.Publish? {
      EffortPublish(s, w);
    }
  }

  lemma EffortPublish(s: State, w: nat)
    requires WorkEnabled(s, w, Publish)
    ensures EffortOf(PublishNext(s, w).workers[w]) < EffortOf(s.workers[w])
  {
  }

  lemma EffortTake(s: State, w: nat)
    requires WorkEnabled(s, w, Take)
    ensures EffortOf(TakeNext(s, w).workers[w]) + 2 < Price(s.journal[s.chan[0]].body)
  {
  }

  /** Queued messages exist. */
  lemma QueuedExist(s: State)
    requires InCustody(s)
    ensures forall i :: i in s.chan || i in Batch(s.fetcher) ==> i < |s.journal|
  {
    assert forall i :: i in s.chan || i in Batch(s.fetcher) ==> i in Queued(s);
    assert forall i :: i in Queued(s) ==> Delivered(s, i);
  }

  lemma TakePays(s: State, w: nat)
    requires Inv(s) && WorkEnabled(s, w, Take)
    ensures Workload(TakeNext(s, w)) < Workload(s)
  {
    var t := TakeNext(s, w);
    QueuedExist(s);
    Knows(s, w, Take);
    assert forall i :: i in t.chan ==> i in s.chan;
    UnderwayGrows(s.journal, t.journal, Batch(s.fetcher), 1);
    UnderwayGrows(s.journal, t.journal, t.chan, 2);
    BacklogGrows(s.journal, t.journal, s.cursor, |s.journal|);
    PoolMove(Effort, s.workers, w, t.workers[w]);
    EffortTake(s, w);
  }

  lemma WorkPays(s: State, w: nat, a: WorkAction)
    requires Inv(s) && WorkEnabled(s, w, a) && !a.Exit? && !a.Take?
    ensures WorkNext(s, w, a).cursor <= |WorkNext(s, w, a).journal|
    ensures Workload(WorkNext(s, w, a)) < Workload(s)
  {
    var t := WorkNext(s, w, a);
    var n := |s.journal|;
    QueuedExist(s);
    Knows(s, w, a);
    UnderwayGrows(s.journal, t.journal, Batch(s.fetcher), 1);
    UnderwayGrows(s.journal, t.journal, s.chan, 2);
    BacklogGrows(s.journal, t.journal, s.cursor, n);
    PoolMove(Effort, s.workers, w, t.workers[w]);
    EffortFalls(s, w, a);
    assert Transfers(s, t, w, HowTransferred(a));
    CopyPrice(s, t, w, a);
  }

  /** The backlog grows by the price of a re-queued copy only. */
  lemma CopyPrice(s: State, t: State, w: nat, a: WorkAction)
    requires WorkEnabled(s, w, a) && !a.Exit? && Subject(s, w, a) < |s.journal| && ToldBy(s, t, w, a)
    requires s.cursor <= |s.journal| && Grows(s.journal, t.journal)
    ensures Backlog(t.journal, s.cursor, |t.journal|) == Backlog(s.journal, s.cursor, |s.journal|)
              + (if a.Add? && a.reply.Landed() && s.workers[w].pc.AtRequeue? then Price(Encoded(s.workers[w].task))
                else 0)
  {
    BacklogGrows(s.journal, t.journal, s.cursor, |s.journal|);
    assert |t.journal| == |s.journal| + |Copies(s, w, a)|;
  }

  /** What a read changes. */
  ghost predicate IsRead(s: State, t: State, n: nat) {
    && s.cursor + n <= |s.journal| && t.cursor == s.cursor + n && t.journal == s.journal
    && t.chan == s.chan && t.workers == s.workers && Batch(s.fetcher) == []
    && (Batch(t.fetcher) == [] || Batch(t.fetcher) == MainIds(s.journal, s.cursor, s.cursor + n))
  }

  lemma ReadIsRead(s: State, n: nat, reply: Reply)
    requires FetchEnabled(s, FRead(n, reply))
    ensures IsRead(s, FetchNext(s, FRead(n, reply)), n)
  {
  }

  /** A read turns backlog into a batch, one step cheaper for each message; or loses it. */
  lemma BatchForBacklog(s: State, t: State, ids: seq<nat>)
    requires s.cursor <= t.cursor <= |s.journal| && t.journal == s.journal
    requires t.chan == s.chan && t.workers == s.workers && Batch(s.fetcher) == []
    requires Batch(t.fetcher) == ids || Batch(t.fetcher) == []
    requires Underway(s.journal, ids, 1) + |ids| == Backlog(s.journal, s.cursor, t.cursor)
    ensures Workload(t) + |ids| <= Workload(s)
  {
    BacklogSplit(s.journal, s.cursor, t.cursor, |s.journal|);
  }

  lemma ReadPays(s: State, t: State, n: nat)
    requires IsRead(s, t, n)
    ensures Workload(t) + (if Backlog(s.journal, s.cursor, s.cursor + n) > 0 then 1 else 0) <= Workload(s)
  {
    var ids := MainIds(s.journal, s.cursor, s.cursor + n);
    DeliveryPays(s.journal, s.cursor, s.cursor + n);
    BatchForBacklog(s, t, ids);
    if ids == [] {
      assert Underway(s.journal, ids, 1) == 0;
    }
  }

  lemma SendPays(s: State)
    requires Inv(s) && FetchEnabled(s, FSend)
    ensures Workload(FetchNext(s, FSend)) < Workload(s)
  {
    QueuedExist(s);
    var i := s.fetcher.batch[0];
    assert i in Batch(s.fetcher);
    UnderwayConcat(s.journal, s.chan, [i], 2);
    UnderwayOne(s.journal, i, 2);
  }

  lemma AbandonPays(s: State)
    requires Inv(s) && FetchEnabled(s, FAbandon)
    ensures Workload(FetchNext(s, FAbandon)) < Workload(s)
  {
    QueuedExist(s);
    BatchPays(s.journal, s.fetcher.batch);
  }

  lemma Rests(s: State, t: State)
    requires s.cursor == t.cursor <= |s.journal| && t.journal == s.journal
    requires t.chan == s.chan && t.workers == s.workers && Batch(s.fetcher) == Batch(t.fetcher)
    ensures Workload(t) == Workload(s)
  {
  }

  lemma FetchPays(s: State, a: FetchAction)
    requires Inv(s) && FetchEnabled(s, a)
    ensures FetchNext(s, a).cursor <= |FetchNext(s, a).journal|
    ensures Workload(FetchNext(s, a)) + (if Moves(s, Fetch(a)) then 1 else 0) <= Workload(s)
  {
    match a {
      case FRead(n, reply) =>
        ReadIsRead(s, n, reply);
        ReadPays(s, FetchNext(s, a), n);
      case FSend => SendPays(s);
      case FAbandon => AbandonPays(s);
      case _ => Rests(s, FetchNext(s, a));
    }
  }

  lemma OthersKeep(s: State, t: State)
    requires Inv(s) && ProcessFrame(s, t)
    requires |t.journal| == |s.journal| || (|t.journal| == |s.journal| + 1 && t.journal[|s.journal|].stream.Dlq?)
    ensures Workload(t) == Workload(s)
  {
    QueuedExist(s);
    UnderwayGrows(s.journal, t.journal, Batch(s.fetcher), 1);
    UnderwayGrows(s.journal, t.journal, s.chan, 2);
    BacklogGrows(s.journal, t.journal, s.cursor, |s.journal|);
  }

  lemma BootPays(s: State, b: BootAction)
    requires Inv(s) && BootEnabled(s, b)
    ensures Workload(BootNext(s, b)) == Workload(s)
  {
    if b.Spawn? && s.starter.next < |s.workers| {
      PoolMove(Effort, s.workers, s.starter.next, Idle);
    }
  }

  lemma WorkStepPays(s: State, w: nat, x: WorkAction)
    requires Inv(s) && WorkEnabled(s, w, x)
    ensures WorkNext(s, w, x).cursor <= |WorkNext(s, w, x).journal|
    ensures Workload(WorkNext(s, w, x)) + (if x.Exit? then 0 else 1) <= Workload(s)
  {
    if x.Exit? {
      PoolMove(Effort, s.workers, w, Exited);
    } else if x.Take? {
      TakePays(s, w);
    } else {
      WorkPays(s, w, x);
    }
  }

  /** Every step that moves a message lowers the workload; no other step raises it, unless it brings work. */
  lemma StepPays(s: State, a: Action)
    requires Inv(s) && Enabled(s, a) && !Brings(s, a)
    ensures Next(s, a).cursor <= |Next(s, a).journal|
    ensures Workload(Next(s, a)) + (if Moves(s, a) then 1 else 0) <= Workload(s)
  {
    match a {
      case Env(e) => OthersKeep(s, EnvNext(s, e));
      case Boot(b) => BootPays(s, b);
      case Fetch(f) => FetchPays(s, f);
      case Work(w, x) => WorkStepPays(s, w, x);
      case Retry(r, x) => OthersKeep(s, RetryNext(s, r, x));
    }
  }

  /* ---------- every run ---------- */

  predicate BringsNothing(s: State, run: seq<Action>)
    requires Valid(s, run)
    decreases |run|
  {
    run == [] || (!Brings(s, run[0]) && BringsNothing(Next(s, run[0]), run[1..]))
  }

  /** The steps of the run that move a message. */
  function Effective(s: State, run: seq<Action>): nat
    requires Valid(s, run)
    decreases |run|
  {
    if run == [] then 0
    else (if Moves(s, run[0]) then 1 else 0) + Effective(Next(s, run[0]), run[1..])
  }

  /**
   From any reachable state, a run without new produces and replays moves messages at most as
   often as the state's workload says, whatever fails: retries cannot go on forever.
  */
  lemma {:induction false} RetriesTerminate(s: State, run: seq<Action>)
    requires Inv(s) && Valid(s, run) && BringsNothing(s, run)
    ensures Exec(s, run).cursor <= |Exec(s, run).journal|
    ensures Effective(s, run) + Workload(Exec(s, run)) <= Workload(s)
    decreases |run|
  {
    if run != [] {
      StepPays(s, run[0]);
      InvStep(s, run[0]);
      RetriesTerminate(Next(s, run[0]), run[1..]);
    }
  }
}
