/** Sums over the worker pool, and the one fact about them that every proof needs. */
module Gauges {
  import opened Tasks
  import opened Queue

  /** Something to add up over the workers. */
  datatype WorkerGauge = Alive | MidHandling | Cleared(key: string) | Effort | Remaining

  /** Cost of the rest of one delivery: `RETRY` steps bound one whole attempt. */
  const RETRY := 16

  /** Steps a worker has left for the message in hand; a message that may still be
      re-queued is charged for the attempts it may cause. */
  function EffortOf(x: Worker): nat {
    match x
    case Working(_, t, pc) => RETRY * RetriesLeft(t) + (
      match pc
      case AtCheck => 9 case AtProcessing => 8 case AtCall => 7 case InCall => 6
      case AtFailed(_) => 5 case AtDlqEvent => 4 case AtBury => 3
      case AtCompleted => 2 case AtRequeue => RETRY + 2)
    case Acking(_, _) => 1
    case _ => 0
  }

  /** Steps a worker has left before it is idle again, and one more to exit. */
  function RemainingOf(x: Worker): nat {
    match x
    case Working(_, _, pc) => (
      match pc
      case AtCheck => 10 case AtProcessing => 9 case AtCall => 8 case InCall => 7
      case AtFailed(_) => 6 case AtDlqEvent => 5 case AtBury => 4
      case AtCompleted => 3 case AtRequeue => 4)
    case Acking(_, _) => 2
    case Idle => 1
    case _ => 0
  }

  function OfWorker(g: WorkerGauge, x: Worker): nat {
    match g
    case Alive => if x.Live() then 1 else 0
    case MidHandling => MidFailure(x)
    case Cleared(key) =>
      if x.Working? && x.task.key == key && (x.pc.AtProcessing? || x.pc.AtCall?) then 1 else 0
    case Effort => EffortOf(x)
    case Remaining => RemainingOf(x)
  }

  function Pool(g: WorkerGauge, ws: seq<Worker>): nat {
    if ws == [] then 0 else OfWorker(g, ws[0]) + Pool(g, ws[1..])
  }

  /** When one worker changes, the sum changes by that worker's share. */
  lemma {:induction false} PoolMove(g: WorkerGauge, ws: seq<Worker>, w: nat, x: Worker)
    requires w < |ws|
    ensures Pool(g, ws[w := x]) == Pool(g, ws) - OfWorker(g, ws[w]) + OfWorker(g, x)
  {
    if w == 0 {
      assert ws[w := x][1..] == ws[1..];
    } else {
      assert ws[w := x][1..] == ws[1..][w - 1 := x];
      PoolMove(g, ws[1..], w - 1, x);
    }
  }

  /** A sum is at least any one worker's share. */
  lemma {:induction false} PoolAtLeast(g: WorkerGauge, ws: seq<Worker>, w: nat)
    requires w < |ws|
    ensures OfWorker(g, ws[w]) <= Pool(g, ws)
  {
    if w != 0 {
      PoolAtLeast(g, ws[1..], w - 1);
    }
  }

  lemma {:induction false} PoolZero(g: WorkerGauge, ws: seq<Worker>)
    requires forall w :: 0 <= w < |ws| ==> OfWorker(g, ws[w]) == 0
    ensures Pool(g, ws) == 0
  {
    if ws != [] {
      PoolZero(g, ws[1..]);
    }
  }
}
