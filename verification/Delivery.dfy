/** The guarantees of delivery in every run: channel discipline, custody, and faults. */
module Delivery {
  import opened Tasks
  import opened Queue
  import opened Gauges
  import opened Custody
  import opened Handling

  /* ---------- the channel and the WaitGroup ---------- */

  /** The goroutines that are running: live workers and the fetcher. */
  function Running(s: State): int {
    Pool(Alive, s.workers) + FetcherAlive(s.fetcher)
  }

  /**
   In every reachable state the channel holds at most ten messages for each worker and the
   WaitGroup counts the running goroutines; only the fetcher sends, never on a closed channel;
   the channel is closed once and stays closed.
  */
  lemma ChannelDiscipline(cfg: Config, s: State, a: Action)
    requires Reachable(cfg, s) && Enabled(s, a)
    ensures |s.chan| <= Capacity(s.cfg) && s.wg == Running(s) && Next(s, a).wg == Running(Next(s, a))
    ensures a == Fetch(FSend) || a == Fetch(FClose) ==> !s.closed
    ensures s.closed ==> Next(s, a).closed
    ensures Next(s, a).closed && !s.closed ==> a == Fetch(FClose)
    ensures a == Fetch(FSend) ==> Next(s, a).chan == s.chan + [s.fetcher.batch[0]]
    ensures a != Fetch(FSend) ==>
              Next(s, a).chan == s.chan || (a.Work? && a.work.Take? && s.chan == [s.chan[0]] + Next(s, a).chan)
  {
    ReachableInv(cfg, s);
    GoroutinesStep(s, a);
    if a.Work? {
      assert Transfers(s, Next(s, a), a.w, HowTransferred(a.work));
    }
  }

  /* ---------- one place for every message ---------- */

  /** In how many places entry `i` is. */
  function Places(s: State, i: nat): nat {
    (if i in s.acked then 1 else 0) + (if i in s.stuck then 1 else 0)
    + (if i in s.chan then 1 else 0) + (if i in Batch(s.fetcher) then 1 else 0)
    + (if i in Hands(s.workers) then 1 else 0)
  }

  /**
   A delivered entry is in exactly one place: acknowledged, stuck, the channel, the fetcher's
   batch, or a worker's hands; any other entry is in none. No two workers hold one entry, and
   the channel followed by the batch is in stream order.
  */
  lemma OnePlace(cfg: Config, s: State, i: nat)
    requires Reachable(cfg, s)
    ensures Places(s, i) == if Delivered(s, i) then 1 else 0
    ensures Distinct(s.workers) && Increasing(s.chan + Batch(s.fetcher))
  {
    ReachableInv(cfg, s);
    var q := Queued(s);
    assert i in q <==> i in s.chan || i in Batch(s.fetcher);
    assert forall a :: 0 <= a < |s.chan| ==> q[a] == s.chan[a];
    assert forall b :: 0 <= b < |Batch(s.fetcher)| ==> q[|s.chan| + b] == Batch(s.fetcher)[b];
    assert i in s.chan ==> i !in Batch(s.fetcher);
  }

  /** Entry `i` has left the queue: a worker took it, or it was lost on the way. */
  predicate Past(s: State, i: nat) {
    Delivered(s, i) && i !in Queued(s)
  }

  lemma PastFetch(s: State, a: FetchAction, i: nat)
    requires Inv(s) && FetchEnabled(s, a) && Past(s, i)
    ensures Past(FetchNext(s, a), i)
  {
    var t := FetchNext(s, a);
    if a.FRead? {
      assert Queued(s) == s.chan;
      assert forall k :: k in Queued(t) ==> k in Queued(s) || k >= s.cursor;
    } else {
      assert forall k :: k in Queued(t) ==> k in Queued(s);
    }
  }

  lemma PastWork(s: State, w: nat, a: WorkAction, i: nat)
    requires Inv(s) && WorkEnabled(s, w, a) && Past(s, i) && InCustody(WorkNext(s, w, a))
    ensures Past(WorkNext(s, w, a), i)
    ensures a.Take? ==> s.chan[0] != i && Past(WorkNext(s, w, a), s.chan[0])
  {
    var t := WorkNext(s, w, a);
    assert Transfers(s, t, w, HowTransferred(a));
    assert forall k :: k in Queued(t) ==> k in Queued(s);
    if a.Take? {
      assert Queued(s)[0] == s.chan[0];
      assert t.workers[w].id in Hands(t.workers);
    }
  }

  lemma PastStep(s: State, a: Action, i: nat)
    requires Inv(s) && Enabled(s, a) && Past(s, i)
    ensures Past(Next(s, a), i)
    ensures a.Work? && a.work.Take? ==> s.chan[0] != i && Past(Next(s, a), s.chan[0])
  {
    CustodyStep(s, a);
    match a {
      case Fetch(f) => PastFetch(s, f, i);
      case Work(w, x) => PastWork(s, w, x, i);
      case _ => assert Queued(Next(s, a)) == Queued(s);
    }
  }

  /** An entry that has left the queue is never given to a worker again, in any continuation. */
  lemma {:induction false} NeverTakenAgain(s: State, run: seq<Action>, i: nat)
    requires Inv(s) && Valid(s, run) && Past(s, i)
    ensures Past(Exec(s, run), i)
    ensures forall k :: 0 <= k < |run| ==>
              && Valid(s, run[..k])
              && Enabled(Exec(s, run[..k]), run[k])
              && (run[k].Work? && run[k].work.Take? ==> Exec(s, run[..k]).chan[0] != i)
    decreases |run|
  {
    if run != [] {
      var t := Next(s, run[0]);
      PastStep(s, run[0], i);
      InvStep(s, run[0]);
      NeverTakenAgain(t, run[1..], i);
      forall k | 0 <= k < |run|
        ensures Valid(s, run[..k]) && Enabled(Exec(s, run[..k]), run[k])
        ensures run[k].Work? && run[k].work.Take? ==> Exec(s, run[..k]).chan[0] != i
      {
        if k > 0 {
          assert run[..k][1..] == run[1..][..k - 1];
          assert run[k] == run[1..][k - 1];
          assert Exec(s, run[..k]) == Exec(t, run[1..][..k - 1]);
        }
      }
    }
  }

  /* ---------- faults ---------- */

  /** The fault that strands entry `i` in a step, if the step strands it. */
  ghost predicate Strands(s: State, a: Action, i: nat, why: Reason)
    requires Enabled(s, a)
  {
    match why
    case LostRead => a.Fetch? && a.fetch.FRead? && a.fetch.reply.Err? && s.cursor <= i < s.cursor + a.fetch.n
    case Abandoned => a == Fetch(FAbandon) && s.cancelled && i in s.fetcher.batch
    case AckFailed => a.Work? && a.work == Ack(Err(false)) && s.workers[a.w].id == i
    case AddFailed => a.Work? && a.work.Add? && a.work.reply.Err? && s.workers[a.w].id == i
    case Panicked => a.Work? && a.work.Crash? && s.workers[a.w].id == i
  }

  /**
   A message gets stuck only through a failed or lost store reply, a panic, or a dispatch cut
   short by cancellation; it stays stuck, and nothing acknowledged ever becomes pending again.
  */
  lemma StuckOnlyByFaults(cfg: Config, s: State, a: Action, i: nat)
    requires Reachable(cfg, s) && Enabled(s, a)
    ensures i in s.stuck ==> i in Next(s, a).stuck && Next(s, a).stuck[i] == s.stuck[i]
    ensures i in Next(s, a).stuck && i !in s.stuck ==> Strands(s, a, i, Next(s, a).stuck[i])
    ensures i in s.acked ==> i in Next(s, a).acked
  {
    ReachableInv(cfg, s);
    if a.Work? {
      WorkStuck(s, a.w, a.work, i);
    } else if a.Fetch? {
      FetchStuck(s, a.fetch, i);
    }
  }

  lemma WorkStuck(s: State, w: nat, a: WorkAction, i: nat)
    requires Inv(s) && WorkEnabled(s, w, a)
    ensures var t := WorkNext(s, w, a);
            && (i in s.stuck ==> i in t.stuck && t.stuck[i] == s.stuck[i])
            && (i in t.stuck && i !in s.stuck ==> Strands(s, Work(w, a), i, t.stuck[i]))
            && (i in s.acked ==> i in t.acked)
  {
    assert Transfers(s, WorkNext(s, w, a), w, HowTransferred(a));
    if s.workers[w].Busy() {
      assert s.workers[w].id in Hands(s.workers);
    }
  }

  lemma FetchStuck(s: State, a: FetchAction, i: nat)
    requires Inv(s) && FetchEnabled(s, a)
    ensures var t := FetchNext(s, a);
            && (i in s.stuck ==> i in t.stuck && t.stuck[i] == s.stuck[i])
            && (i in t.stuck && i !in s.stuck ==> Strands(s, Fetch(a), i, t.stuck[i]))
  {
    if a.FRead? {
      assert i in s.stuck ==> Delivered(s, i);
    } else if a.FAbandon? {
      assert forall k :: k in s.fetcher.batch ==> k in Queued(s);
    }
  }
}
