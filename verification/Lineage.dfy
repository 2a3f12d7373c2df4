/**
 Where copies come from. Every copy of a task is faithful to the task first produced, and no
 task that was stored is ever lost.
*/
module Lineage {
  import opened Tasks
  import opened Queue
  import opened Handling

  /** The processor returned nil for some copy of produce `r`. */
  ghost predicate Won(hist: seq<Obs>, r: nat) {
    exists p :: 0 <= p < |hist| && hist[p].Replied? && hist[p].root == r && hist[p].success
  }

  /** The processor returned nil for a copy of that injection. */
  ghost predicate WonBy(hist: seq<Obs>, inj: nat, r: nat) {
    exists p :: 0 <= p < |hist| && hist[p] == Replied(inj, r, true)
  }

  /** Injection `k` is a produce, or a replay with its retry count reset. */
  ghost predicate InjectionFits(s: State, k: nat)
    requires k < |s.injections|
  {
    var x := s.injections[k];
    && x.root < |s.roots| && SameCore(x.task, s.roots[x.root])
    && (x.task.currentRetries == s.roots[x.root].currentRetries || x.task.currentRetries == 0)
  }

  /** The task in entry `e` descends from its injection, with retries spent in between. */
  ghost predicate Descends(s: State, e: Entry) {
    e.body.Encoded? ==>
      && e.inj < |s.injections|
      && var t := e.body.task; var from := s.injections[e.inj].task;
      && e.root == s.injections[e.inj].root && SameCore(t, from)
      && from.currentRetries <= t.currentRetries <= Max(from.currentRetries, from.maxRetries)
      && (e.stream.Dlq? ==> RetriesLeft(t) == 0)
      && (e.life.Succeeded? || e.life.Completed? ==> WonBy(s.hist, e.inj, e.root))
      && (e.life.Skipped? ==> s.cfg.checker && t.key != "")
      && (e.life.RetryDue? ==> RetriesLeft(t) > 0)
  }

  /** A copy of entry `i` recorded at `j` is there, later in the journal. */
  ghost predicate CopyAt(s: State, i: nat, j: nat, stream: Stream) {
    i < j < |s.journal| && s.journal[j].stream == stream && s.journal[j].body.Encoded?
    && s.journal[j].root == s.journal[i].root
  }

  ghost predicate Points(s: State, i: nat)
    requires i < |s.journal|
  {
    match s.journal[i].life
    case Requeued(j) => CopyAt(s, i, j, Main) && s.journal[j].inj == s.journal[i].inj
    case Buried(j) => CopyAt(s, i, j, Dlq) && s.journal[j].inj == s.journal[i].inj
    case Replayed(j) => CopyAt(s, i, j, Main)
    case _ => true
  }

  ghost predicate HasEntry(s: State, r: nat) {
    exists i :: 0 <= i < |s.journal| && s.journal[i].body.Encoded? && s.journal[i].root == r
  }

  ghost predicate Lined(s: State) {
    && (forall k :: 0 <= k < |s.injections| ==> InjectionFits(s, k))
    && (forall i :: 0 <= i < |s.journal| ==> Descends(s, s.journal[i]) && Points(s, i))
    && (forall r :: 0 <= r < |s.roots| ==> HasEntry(s, r))
  }

  /* ---------- preservation ---------- */

  /** What entry `i` says of its descent stays true while the histories grow. */
  lemma Still(s: State, t: State, i: nat)
    requires i < |s.journal| && Descends(s, s.journal[i]) && Points(s, i)
    requires t.cfg == s.cfg && Grows(s.journal, t.journal) && s.injections <= t.injections && s.hist <= t.hist
    requires t.journal[i].life == s.journal[i].life
    ensures Descends(t, t.journal[i]) && Points(t, i)
  {
    var e := s.journal[i];
    if WonBy(s.hist, e.inj, e.root) {
      var p :| 0 <= p < |s.hist| && s.hist[p] == Replied(e.inj, e.root, true);
      assert t.hist[p] == s.hist[p];
    }
  }

  lemma EntriesStay(s: State, t: State)
    requires Grows(s.journal, t.journal) && |t.roots| == |s.roots|
    requires forall r :: 0 <= r < |s.roots| ==> HasEntry(s, r)
    ensures forall r :: 0 <= r < |t.roots| ==> HasEntry(t, r)
  {
    forall r | 0 <= r < |t.roots|
      ensures HasEntry(t, r)
    {
      assert HasEntry(s, r);
      var i :| 0 <= i < |s.journal| && s.journal[i].body.Encoded? && s.journal[i].root == r;
      assert t.journal[i].body.Encoded? && t.journal[i].root == r;
    }
  }

  /** The one entry a worker's step touches, and the copy it may append, descend as they should. */
  ghost predicate SubjectFits(t: State, n: nat, i: nat) {
    && i < |t.journal| && Descends(t, t.journal[i]) && Points(t, i)
    && forall j :: n <= j < |t.journal| ==> Descends(t, t.journal[j]) && Points(t, j)
  }

  lemma FitsTake(s: State, w: nat)
    requires Inv(s) && Lined(s) && WorkEnabled(s, w, Take)
    ensures SubjectFits(TakeNext(s, w), |s.journal|, s.chan[0])
  {
    Head(s);
    assert Descends(s, s.journal[s.chan[0]]);
  }

  lemma FitsCheck(s: State, w: nat, reply: Reply)
    requires Inv(s) && Lined(s) && WorkEnabled(s, w, Check(reply))
    ensures SubjectFits(CheckNext(s, w, reply), |s.journal|, s.workers[w].id)
  {
    Held(s, w);
    assert Descends(s, s.journal[s.workers[w].id]);
  }

  lemma FitsFailure(s: State, w: nat)
    requires Stands(s, w) && s.workers[w].pc.AtFailed? && Descends(s, s.journal[s.workers[w].id])
    requires Agrees(s.cfg, s.workers[w], s.journal[s.workers[w].id])
    ensures SubjectFits(FailureNext(s, w), |s.journal|, s.workers[w].id)
  {
  }

  lemma FitsPublish(s: State, w: nat)
    requires Inv(s) && Lined(s) && WorkEnabled(s, w, Publish)
    ensures SubjectFits(PublishNext(s, w), |s.journal|, s.workers[w].id)
  {
    Held(s, w);
    var i := s.workers[w].id;
    assert Descends(s, s.journal[i]) && Points(s, i);
    if s.workers[w].pc.AtFailed? {
      var s1 := Log(s, Published(FailedEvent, s.workers[w].task.id));
      Still(s, s1, i);
      FitsFailure(s1, w);
    } else {
      FitsTold(s, w);
    }
  }

  /** After any event but a failure, the worker goes on with the same task. */
  lemma FitsTold(s: State, w: nat)
    requires Inv(s) && Lined(s) && WorkEnabled(s, w, Publish) && !s.workers[w].pc.AtFailed?
    ensures SubjectFits(PublishNext(s, w), |s.journal|, s.workers[w].id)
  {
    Held(s, w);
    var i := s.workers[w].id;
    var s1 := Log(s, Published(CompletedEvent, s.workers[w].task.id));
    assert Descends(s, s.journal[i]) && Points(s, i);
    Still(s, s1, i);
    if s.workers[w].pc.AtCompleted? {
      assert WonBy(s1.hist, s.journal[i].inj, s.journal[i].root);
      assert PublishNext(s, w).hist == s1.hist;
    }
  }

  lemma FitsCall(s: State, w: nat)
    requires Inv(s) && Lined(s) && WorkEnabled(s, w, Call)
    ensures SubjectFits(CallNext(s, w), |s.journal|, s.workers[w].id)
  {
    Held(s, w);
    assert Descends(s, s.journal[s.workers[w].id]);
  }

  lemma FitsAnswer(s: State, w: nat, outcome: Option<string>)
    requires Inv(s) && Lined(s) && WorkEnabled(s, w, Answer(outcome))
    ensures SubjectFits(AnswerNext(s, w, outcome), |s.journal|, s.workers[w].id)
  {
    Held(s, w);
    assert Descends(s, s.journal[s.workers[w].id]);
    assert AnswerNext(s, w, outcome).hist[|s.hist|].Replied?;
  }

  lemma FitsCopy(s: State, x: Worker)
    requires x.Working? && (x.pc.AtRequeue? || x.pc.AtBury?) && x.id < |s.journal|
    requires Agrees(s.cfg, x, s.journal[x.id]) && Descends(s, s.journal[x.id])
    ensures var n := |s.journal|;
            SubjectFits(CopyTo(s, x.id, if x.pc.AtRequeue? then Requeued(n) else Buried(n),
                               if x.pc.AtRequeue? then Main else Dlq, x.task), n, x.id)
  {
  }

  /** Descent reads the journal, the injections and the history only. */
  lemma FitsAlike(s: State, t: State, n: nat, i: nat)
    requires SubjectFits(s, n, i)
    requires t.cfg == s.cfg && t.journal == s.journal && t.injections == s.injections && t.hist == s.hist
    ensures SubjectFits(t, n, i)
  {
  }

  lemma FitsAddLanded(s: State, w: nat, reply: Reply)
    requires WorkEnabled(s, w, Add(reply)) && reply.Landed()
    requires Agrees(s.cfg, s.workers[w], s.journal[s.workers[w].id]) && Descends(s, s.journal[s.workers[w].id])
    ensures SubjectFits(AddNext(s, w, reply), |s.journal|, s.workers[w].id)
  {
    var x := s.workers[w];
    var n := |s.journal|;
    FitsCopy(s, x);
    FitsAlike(CopyTo(s, x.id, if x.pc.AtRequeue? then Requeued(n) else Buried(n),
                     if x.pc.AtRequeue? then Main else Dlq, x.task), AddNext(s, w, reply), n, x.id);
  }

  lemma FitsAdd(s: State, w: nat, reply: Reply)
    requires Inv(s) && Lined(s) && WorkEnabled(s, w, Add(reply))
    ensures SubjectFits(AddNext(s, w, reply), |s.journal|, s.workers[w].id)
  {
    Held(s, w);
    assert Descends(s, s.journal[s.workers[w].id]) && Points(s, s.workers[w].id);
    if reply.Landed() {
      FitsAddLanded(s, w, reply);
    } else {
      Still(s, AddNext(s, w, reply), s.workers[w].id);
    }
  }

  lemma FitsAck(s: State, w: nat, reply: Reply)
    requires Inv(s) && Lined(s) && WorkEnabled(s, w, Ack(reply))
    ensures SubjectFits(AckNext(s, w, reply), |s.journal|, s.workers[w].id)
  {
    Held(s, w);
    Still(s, AckNext(s, w, reply), s.workers[w].id);
  }

  lemma FitsCrash(s: State, w: nat)
    requires Inv(s) && Lined(s) && WorkEnabled(s, w, Crash)
    ensures SubjectFits(CrashNext(s, w), |s.journal|, s.workers[w].id)
  {
    Held(s, w);
    Still(s, CrashNext(s, w), s.workers[w].id);
  }

  lemma FitsWork(s: State, w: nat, a: WorkAction)
    requires Inv(s) && Lined(s) && WorkEnabled(s, w, a) && !a.Exit?
    ensures SubjectFits(WorkNext(s, w, a), |s.journal|, Subject(s, w, a))
  {
    match a {
      case Take => FitsTake(s, w);
      case Check(reply) => FitsCheck(s, w, reply);
      case Publish => FitsPublish(s, w);
      case Call => FitsCall(s, w);
      case Answer(outcome) => FitsAnswer(s, w, outcome);
      case Add(reply) => FitsAdd(s, w, reply);
      case Ack(reply) => FitsAck(s, w, reply);
      case Crash => FitsCrash(s, w);
    }
  }

  lemma LinedWork(s: State, w: nat, a: WorkAction)
    requires Inv(s) && Lined(s) && WorkEnabled(s, w, a)
    ensures Lined(WorkNext(s, w, a))
  {
    var t := WorkNext(s, w, a);
    EntriesStay(s, t);
    forall k | 0 <= k < |t.injections|
      ensures InjectionFits(t, k)
    {
      assert k < |s.injections| ==> InjectionFits(s, k);
    }
    if a.Exit? {
      forall n | 0 <= n < |t.journal|
        ensures Descends(t, t.journal[n]) && Points(t, n)
      {
        Still(s, t, n);
      }
    } else {
      FitsWork(s, w, a);
      LocalWork(s, w, a);
      var i := Subject(s, w, a);
      forall n | 0 <= n < |t.journal|
        ensures Descends(t, t.journal[n]) && Points(t, n)
      {
        if n < |s.journal| && n != i {
          Still(s, t, n);
        }
      }
    }
  }

  lemma LinedSame(s: State, t: State)
    requires Lined(s) && t.cfg == s.cfg && t.journal == s.journal && t.injections == s.injections
    requires t.roots == s.roots && s.hist <= t.hist
    ensures Lined(t)
  {
    EntriesStay(s, t);
    forall k | 0 <= k < |t.injections|
      ensures InjectionFits(t, k)
    {
      assert k < |s.injections| ==> InjectionFits(s, k);
    }
    forall n | 0 <= n < |t.journal|
      ensures Descends(t, t.journal[n]) && Points(t, n)
    {
      Still(s, t, n);
    }
  }

  lemma LinedEnv(s: State, a: EnvAction)
    requires Lined(s) && EnvEnabled(s, a)
    ensures Lined(EnvNext(s, a))
  {
    var t := EnvNext(s, a);
    forall n | 0 <= n < |s.journal|
      ensures Descends(t, t.journal[n]) && Points(t, n)
    {
      Still(s, t, n);
    }
    forall k | 0 <= k < |t.injections|
      ensures InjectionFits(t, k)
    {
      assert k < |s.injections| ==> InjectionFits(s, k);
    }
    EntriesStay(s, t.(roots := s.roots));
    forall r | 0 <= r < |t.roots|
      ensures HasEntry(t, r)
    {
      if r < |s.roots| {
        assert HasEntry(t.(roots := s.roots), r);
      } else {
        assert t.journal[|s.journal|].root == r;
      }
    }
  }

  /** A replayed copy is an injection of the produce its entry stems from. */
  lemma ForwardInjects(s: State, r: nat, reply: Reply)
    requires Lined(s) && RetryEnabled(s, r, Forward(reply))
    ensures var t := ForwardNext(s, r, reply); forall k :: 0 <= k < |t.injections| ==> InjectionFits(t, k)
  {
    var t := ForwardNext(s, r, reply);
    var d := s.replays[r].rest[0];
    assert Descends(s, s.journal[d]);
    assert s.journal[d].body.Encoded? ==> InjectionFits(s, s.journal[d].inj);
    forall k | 0 <= k < |t.injections|
      ensures InjectionFits(t, k)
    {
      assert k < |s.injections| ==> InjectionFits(s, k);
    }
  }

  /** The replayed entry and its copy. */
  lemma ForwardedFit(s: State, r: nat, reply: Reply)
    requires Lined(s) && RetryEnabled(s, r, Forward(reply)) && IsDlq(s, s.replays[r].rest[0])
    ensures SubjectFits(ForwardNext(s, r, reply), |s.journal|, s.replays[r].rest[0])
  {
    assert Descends(s, s.journal[s.replays[r].rest[0]]) && Points(s, s.replays[r].rest[0]);
  }

  lemma LinedForward(s: State, r: nat, reply: Reply)
    requires Inv(s) && Lined(s) && RetryEnabled(s, r, Forward(reply))
    ensures Lined(ForwardNext(s, r, reply))
  {
    var t := ForwardNext(s, r, reply);
    var d := s.replays[r].rest[0];
    EntriesStay(s, t);
    ForwardInjects(s, r, reply);
    assert ReplayFits(s, s.replays[r]) && d in s.replays[r].rest;
    ForwardedFit(s, r, reply);
    forall n | 0 <= n < |t.journal|
      ensures Descends(t, t.journal[n]) && Points(t, n)
    {
      if n < |s.journal| && n != d {
        Still(s, t, n);
      }
    }
  }

  lemma LinedStep(s: State, a: Action)
    requires Inv(s) && Lined(s) && Enabled(s, a)
    ensures Lined(Next(s, a))
  {
    match a {
      case Env(e) => LinedEnv(s, e);
      case Boot(b) => LinedSame(s, BootNext(s, b));
      case Fetch(f) => LinedSame(s, FetchNext(s, f));
      case Work(w, x) => LinedWork(s, w, x);
      case Retry(r, x) =>
        if x.Forward? {
          LinedForward(s, r, x.reply);
        } else {
          LinedSame(s, RetryNext(s, r, x));
        }
    }
  }

  lemma {:induction false} LinedRun(s: State, run: seq<Action>)
    requires Inv(s) && Lined(s) && Valid(s, run)
    ensures Inv(Exec(s, run)) && Lined(Exec(s, run))
    decreases |run|
  {
    if run != [] {
      InvStep(s, run[0]);
      LinedStep(s, run[0]);
      LinedRun(Next(s, run[0]), run[1..]);
    }
  }

  lemma ReachableLined(cfg: Config, s: State)
    requires Reachable(cfg, s)
    ensures Inv(s) && Lined(s) && s.cfg == cfg
  {
    ReachableInv(cfg, s);
    var run :| Valid(Init(cfg), run) && s == Exec(Init(cfg), run);
    InvInit(cfg);
    LinedRun(Init(cfg), run);
  }

  /* ---------- fidelity ---------- */

  predicate RetriesInRange(t: Task) {
    0 <= t.currentRetries <= t.maxRetries
  }

  /**
   In every run, every copy of a task on either stream agrees with the produced task on all but
   the retry count and the error; a retry count once in range stays in range, and a copy on the
   dead-letter stream has spent every retry.
  */
  lemma CopyFidelity(cfg: Config, s: State, i: nat)
    requires Reachable(cfg, s) && i < |s.journal| && s.journal[i].body.Encoded?
    ensures var e := s.journal[i];
            && e.root < |s.roots|
            && SameCore(e.body.task, s.roots[e.root])
            && (RetriesInRange(s.roots[e.root]) ==> RetriesInRange(e.body.task))
            && (e.stream.Dlq? ==> e.body.task.currentRetries >= e.body.task.maxRetries)
            && (e.stream.Dlq? && RetriesInRange(s.roots[e.root]) ==>
               e.body.task.currentRetries == e.body.task.maxRetries)
  {
    ReachableLined(cfg, s);
    assert Descends(s, s.journal[i]);
    assert InjectionFits(s, s.journal[i].inj);
  }

  /* ---------- no loss ---------- */

  /** Entry `i` is still there to be handled: not yet delivered, pending, or on the dead-letter stream. */
  predicate Kept(s: State, i: nat) {
    i < |s.journal| && s.journal[i].body.Encoded?
    && (if s.journal[i].stream.Main? then i !in s.acked else i !in s.deleted)
  }

  ghost predicate Safe(s: State, r: nat) {
    Won(s.hist, r) || exists i: nat :: Kept(s, i) && s.journal[i].root == r
  }

  lemma WonByMeansWon(hist: seq<Obs>, inj: nat, r: nat)
    ensures WonBy(hist, inj, r) ==> Won(hist, r)
  {
  }

  /** Following the copies of an entry that is gone leads to one that is kept, or to a success. */
  lemma {:induction false} Follow(s: State, i: nat)
    requires Inv(s) && Lined(s) && i < |s.journal| && s.journal[i].body.Encoded?
    requires !s.cfg.checker || s.journal[i].body.task.key == ""
    ensures Safe(s, s.journal[i].root)
    decreases |s.journal| - i, 0
  {
    var e := s.journal[i];
    assert Descends(s, e) && Points(s, i);
    WonByMeansWon(s.hist, e.inj, e.root);
    if !Kept(s, i) {
      match e.life {
        case Requeued(j) => FollowCopy(s, i, j);
        case Buried(j) => FollowCopy(s, i, j);
        case Replayed(j) => FollowCopy(s, i, j);
        case _ =>
      }
    }
  }

  lemma {:induction false} FollowCopy(s: State, i: nat, j: nat)
    requires Inv(s) && Lined(s) && i < j < |s.journal| && s.journal[i].body.Encoded? && s.journal[j].body.Encoded?
    requires s.journal[j].root == s.journal[i].root
    requires !s.cfg.checker || s.journal[i].body.task.key == ""
    ensures Safe(s, s.journal[i].root)
    decreases |s.journal| - j, 1
  {
    assert Descends(s, s.journal[i]) && Descends(s, s.journal[j]);
    assert InjectionFits(s, s.journal[i].inj) && InjectionFits(s, s.journal[j].inj);
    Follow(s, j);
  }

  /**
   No loss. In every run, whatever fails, panics or is cancelled and however the steps
   interleave, every task that was stored and that no idempotency check may drop still has an
   undelivered, pending or dead-letter entry, or its processor returned nil.
  */
  lemma NoLoss(cfg: Config, s: State, r: nat)
    requires Reachable(cfg, s) && r < |s.roots| && (!cfg.checker || s.roots[r].key == "")
    ensures Safe(s, r)
  {
    ReachableLined(cfg, s);
    assert HasEntry(s, r);
    var i :| 0 <= i < |s.journal| && s.journal[i].body.Encoded? && s.journal[i].root == r;
    assert Descends(s, s.journal[i]) && InjectionFits(s, s.journal[i].inj);
    Follow(s, i);
  }
}
