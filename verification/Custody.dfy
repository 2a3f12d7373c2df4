/**
 Who holds which message. The goroutines of `Start` and their WaitGroup, the task channel, and
 the place of every delivered entry, in every reachable state.
*/
module Custody {
  import opened Tasks
  import opened Queue
  import opened Gauges

  /* ---------- goroutines, WaitGroup and channel ---------- */

  function FetcherAlive(f: Fetcher): int {
    if f.Unborn? || f.Gone? then 0 else 1
  }

  /** The start-up sequence, the WaitGroup, and the rules of the channel. */
  ghost predicate Goroutines(s: State) {
    && |s.workers| == s.cfg.workerCount
    && (s.starter.Creating? || s.starter.Refused? ==>
          s.fetcher.Unborn? && forall w :: 0 <= w < |s.workers| ==> s.workers[w].Unstarted?)
    && (s.starter.Spawning? ==>
          s.fetcher.Unborn? && s.starter.next <= |s.workers| &&
          forall w :: 0 <= w < |s.workers| ==> (s.workers[w].Unstarted? <==> s.starter.next <= w))
    && (s.starter.Waiting? || s.starter.Returned? ==>
          !s.fetcher.Unborn? && forall w :: 0 <= w < |s.workers| ==> !s.workers[w].Unstarted?)
    && s.wg == Pool(Alive, s.workers) + FetcherAlive(s.fetcher)
    && (s.starter.Returned? ==> s.wg == 0)
    && |s.chan| <= Capacity(s.cfg)
    && (s.closed <==> s.fetcher.Finishing? || s.fetcher.Gone?)
    && (forall w :: 0 <= w < |s.workers| && s.workers[w].Exited? ==> s.closed && s.chan == [])
  }

  /** Goroutines that no longer run do not come back to life. */
  lemma NoneAlive(s: State)
    requires Goroutines(s) && s.wg == 0
    ensures !s.fetcher.Unborn? ==> s.fetcher.Gone?
    ensures forall w :: 0 <= w < |s.workers| ==> !s.workers[w].Live()
  {
    forall w | 0 <= w < |s.workers|
      ensures !s.workers[w].Live()
    {
      PoolAtLeast(Alive, s.workers, w);
    }
  }

  lemma GoroutinesBoot(s: State, a: BootAction)
    requires Goroutines(s) && BootEnabled(s, a)
    ensures Goroutines(BootNext(s, a))
  {
    if a.Spawn? && s.starter.next < |s.workers| {
      PoolMove(Alive, s.workers, s.starter.next, Idle);
    }
  }

  lemma GoroutinesFetch(s: State, a: FetchAction)
    requires Goroutines(s) && FetchEnabled(s, a)
    ensures Goroutines(FetchNext(s, a))
  {
    if s.starter.Returned? {
      NoneAlive(s);
    }
  }

  lemma GoroutinesWork(s: State, t: State, w: nat)
    requires Goroutines(s) && WorkerFrame(s, t, w)
    ensures Goroutines(t)
  {
    PoolMove(Alive, s.workers, w, t.workers[w]);
    PoolAtLeast(Alive, s.workers, w);
  }

  lemma GoroutinesSame(s: State, t: State)
    requires Goroutines(s) && ProcessFrame(s, t)
    ensures Goroutines(t)
  {
  }

  lemma GoroutinesStep(s: State, a: Action)
    requires Goroutines(s) && Enabled(s, a)
    ensures Goroutines(Next(s, a))
  {
    match a {
      case Env(e) => GoroutinesSame(s, EnvNext(s, e));
      case Boot(b) => GoroutinesBoot(s, b);
      case Fetch(f) => GoroutinesFetch(s, f);
      case Work(w, x) => GoroutinesWork(s, WorkNext(s, w, x), w);
      case Retry(r, x) => GoroutinesSame(s, RetryNext(s, r, x));
    }
  }

  /* ---------- the place of every delivered entry ---------- */

  function Hands(ws: seq<Worker>): set<nat> {
    set w | 0 <= w < |ws| && ws[w].Busy() :: ws[w].id
  }

  ghost predicate Distinct(ws: seq<Worker>) {
    forall v, w :: 0 <= v < w < |ws| && ws[v].Busy() && ws[w].Busy() ==> ws[v].id != ws[w].id
  }

  ghost predicate Increasing(q: seq<nat>) {
    forall a, b :: 0 <= a < b < |q| ==> q[a] < q[b]
  }

  /** Entry `i` is on the main stream and has been delivered to the group. */
  predicate Delivered(s: State, i: int) {
    0 <= i < s.cursor && i < |s.journal| && s.journal[i].stream.Main?
  }

  /**
   Every delivered entry is acknowledged, stuck, queued or in one worker's hands, and never two
   of these; what is queued is in stream order.
  */
  ghost predicate InCustody(s: State) {
    var queue := Queued(s);
    var hands := Hands(s.workers);
    && s.cursor <= |s.journal|
    && Increasing(queue)
    && Distinct(s.workers)
    && hands !! s.acked && hands !! s.stuck.Keys && s.acked !! s.stuck.Keys
    && (forall i :: i in queue ==> i !in s.acked && i !in s.stuck && i !in hands)
    && (forall i :: Delivered(s, i) <==> i in s.acked || i in s.stuck || i in queue || i in hands)
  }

  lemma HandsMove(ws: seq<Worker>, w: nat, x: Worker)
    requires w < |ws| && Distinct(ws)
    ensures Hands(ws[w := x])
         == Hands(ws) - (if ws[w].Busy() then {ws[w].id} else {}) + (if x.Busy() then {x.id} else {})
  {
    var vs := ws[w := x];
    var rest := Hands(ws) - (if ws[w].Busy() then {ws[w].id} else {});
    forall i | i in rest
      ensures i in Hands(vs)
    {
      var v :| 0 <= v < |ws| && ws[v].Busy() && ws[v].id == i;
      assert vs[v] == ws[v];
    }
    forall i | i in Hands(vs)
      ensures i in rest || (x.Busy() && i == x.id)
    {
      var v :| 0 <= v < |vs| && vs[v].Busy() && vs[v].id == i;
      assert v != w ==> ws[v] == vs[v];
    }
    if x.Busy() {
      assert vs[w].id in Hands(vs);
    }
  }

  lemma CustodyWork(s: State, t: State, w: nat, how: Transfer)
    requires InCustody(s) && WorkerFrame(s, t, w) && Transfers(s, t, w, how)
    ensures InCustody(t)
  {
    HandsMove(s.workers, w, t.workers[w]);
    assert forall i :: Delivered(t, i) <==> Delivered(s, i);
    if how.Takes? {
      assert Queued(t) == Queued(s)[1..];
      assert Queued(s) == [s.chan[0]] + Queued(t);
      assert s.chan[0] in Queued(s);
    }
    if s.workers[w].Busy() {
      assert s.workers[w].id in Hands(s.workers);
    }
    forall v | 0 <= v < |t.workers| && v != w && t.workers[v].Busy()
      ensures t.workers[v].id in Hands(s.workers)
    {
      assert t.workers[v] == s.workers[v];
    }
  }

  lemma CustodyRead(s: State, n: nat, reply: Reply)
    requires InCustody(s) && FetchEnabled(s, FRead(n, reply))
    ensures InCustody(FetchNext(s, FRead(n, reply)))
  {
    var t := FetchNext(s, FRead(n, reply));
    var ids := MainIds(s.journal, s.cursor, s.cursor + n);
    assert forall i :: Delivered(t, i) <==> Delivered(s, i) || i in ids;
    assert Queued(s) == s.chan;
    forall k | 0 <= k < |s.chan|
      ensures s.chan[k] < s.cursor
    {
      assert Delivered(s, s.chan[k]);
    }
    forall k | 0 <= k < |ids|
      ensures s.cursor <= ids[k]
    {
      assert ids[k] in ids;
    }
    assert Queued(t) == if reply.Ok? then s.chan + ids else s.chan;
  }

  lemma CustodyAbandon(s: State)
    requires InCustody(s) && FetchEnabled(s, FAbandon)
    ensures InCustody(FetchNext(s, FAbandon))
  {
    var t := FetchNext(s, FAbandon);
    assert Queued(s) == s.chan + s.fetcher.batch;
    assert Queued(t) == s.chan;
    assert forall k :: 0 <= k < |s.chan| ==> Queued(s)[k] == s.chan[k];
    assert forall i :: Delivered(t, i) <==> Delivered(s, i);
    forall i | i in s.chan
      ensures i !in s.fetcher.batch
    {
      var b :| 0 <= b < |s.chan| && s.chan[b] == i;
      assert Queued(s)[b] == i;
      assert forall c :: 0 <= c < |s.fetcher.batch| ==> Queued(s)[|s.chan| + c] == s.fetcher.batch[c];
    }
  }

  lemma CustodyFetch(s: State, a: FetchAction)
    requires InCustody(s) && FetchEnabled(s, a)
    ensures InCustody(FetchNext(s, a))
  {
    match a {
      case FRead(n, reply) => CustodyRead(s, n, reply);
      case FAbandon => CustodyAbandon(s);
      case _ =>
        var t := FetchNext(s, a);
        assert Queued(t) == Queued(s);
        assert forall i :: Delivered(t, i) <==> Delivered(s, i);
    }
  }

  lemma CustodySame(s: State, t: State)
    requires InCustody(s) && ProcessFrame(s, t)
    ensures InCustody(t)
  {
    assert Queued(t) == Queued(s);
    assert forall i :: Delivered(t, i) <==> Delivered(s, i);
  }

  lemma CustodyBoot(s: State, a: BootAction)
    requires InCustody(s) && Goroutines(s) && BootEnabled(s, a)
    ensures InCustody(BootNext(s, a))
  {
    var t := BootNext(s, a);
    assert forall i :: Delivered(t, i) <==> Delivered(s, i);
    if a.Spawn? && s.starter.next < |s.workers| {
      HandsMove(s.workers, s.starter.next, Idle);
      assert Hands(t.workers) == Hands(s.workers);
    }
    assert Queued(t) == Queued(s);
  }

  lemma CustodyStep(s: State, a: Action)
    requires InCustody(s) && Goroutines(s) && Enabled(s, a)
    ensures InCustody(Next(s, a))
  {
    match a {
      case Env(e) => CustodySame(s, EnvNext(s, e));
      case Boot(b) => CustodyBoot(s, b);
      case Fetch(f) => CustodyFetch(s, f);
      case Work(w, x) =>
        CustodyWork(s, WorkNext(s, w, x), w, HowTransferred(x));
      case Retry(r, x) => CustodySame(s, RetryNext(s, r, x));
    }
  }
}
