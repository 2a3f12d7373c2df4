/** What the idempotency check achieves over a whole run, for one key. */
module Idempotency {
  import opened Queue
  import opened Gauges
  import opened Custody
  import opened Handling

  datatype KeyGauge = KeyCalls | NewKeys | FailedChecks | Expiries

  predicate Notes(g: KeyGauge, key: string, o: Obs) {
    match g
    case KeyCalls => o.Invoked? && o.task.key == key
    case NewKeys => o.Checked? && o.key == key && o.reply.Ok? && o.isNew
    case FailedChecks => o.Checked? && o.key == key && o.reply.Err?
    case Expiries => o.Expired? && o.key == key
  }

  function Tally(g: KeyGauge, key: string, hist: seq<Obs>): nat {
    if hist == [] then 0
    else Tally(g, key, hist[..|hist| - 1]) + if Notes(g, key, hist[|hist| - 1]) then 1 else 0
  }

  lemma TallyLog(g: KeyGauge, key: string, hist: seq<Obs>, o: Obs)
    ensures Tally(g, key, hist + [o]) == Tally(g, key, hist) + if Notes(g, key, o) then 1 else 0
  {
    assert (hist + [o])[..|hist|] == hist;
  }

  /** Every call was cleared by a check, and a key is new only once until it expires. */
  ghost predicate KeyLaw(s: State, key: string) {
    && Tally(KeyCalls, key, s.hist) + Pool(Cleared(key), s.workers)
       <= Tally(NewKeys, key, s.hist) + Tally(FailedChecks, key, s.hist)
    && Tally(NewKeys, key, s.hist) <= Tally(Expiries, key, s.hist) + if key in s.seen then 1 else 0
  }

  /** The seen keys after a worker's step. */
  lemma SeenWork(s: State, w: nat, a: WorkAction, key: string)
    requires WorkEnabled(s, w, a)
    ensures var t := WorkNext(s, w, a);
            key in t.seen <==> key in s.seen || (a.Check? && a.reply.Landed() && s.workers[w].task.key == key)
  {
  }

  lemma ClearedPublish(s: State, w: nat, key: string)
    requires WorkEnabled(s, w, Publish)
    ensures OfWorker(Cleared(key), PublishNext(s, w).workers[w]) <= OfWorker(Cleared(key), s.workers[w])
  {
  }

  lemma ClearedTake(s: State, w: nat, key: string)
    requires WorkEnabled(s, w, Take) && s.cfg.checker && key != ""
    ensures OfWorker(Cleared(key), TakeNext(s, w).workers[w]) == 0
  {
  }

  /** A worker is cleared for a key by a check only, and uses its clearance up by the call. */
  lemma ClearedWork(s: State, w: nat, a: WorkAction, key: string)
    requires s.cfg.checker && key != "" && WorkEnabled(s, w, a)
    ensures var t := WorkNext(s, w, a); var x := s.workers[w];
            OfWorker(Cleared(key), t.workers[w]) <= OfWorker(Cleared(key), x)
              + (if a.Check? && x.task.key == key && (a.reply.Err? || key !in s.seen) then 1 else 0)
              - (if a.Call? && x.task.key == key then 1 else 0)
  {
    match a {
      case Take => ClearedTake(s, w, key);
      case Publish => ClearedPublish(s, w, key);
      case _ =>
    }
  }

  lemma TallyAll(key: string, hist: seq<Obs>, o: Obs)
    ensures forall g: KeyGauge :: Tally(g, key, hist + [o]) == Tally(g, key, hist) + if Notes(g, key, o) then 1 else 0
  {
    forall g: KeyGauge {
      TallyLog(g, key, hist, o);
    }
  }

  lemma SaysWork(s: State, w: nat, a: WorkAction)
    requires Inv(s) && WorkEnabled(s, w, a)
    ensures WorkNext(s, w, a).hist == s.hist + Says(s, w, a)
  {
    if !a.Exit? {
      Knows(s, w, a);
    }
  }

  /** What the line a step adds to the history means for one key. */
  lemma SaidOfKey(s: State, w: nat, a: WorkAction, key: string)
    requires WorkEnabled(s, w, a) && Says(s, w, a) != []
    ensures var o := Says(s, w, a)[0]; var x := s.workers[w];
            && (Notes(KeyCalls, key, o) <==> a.Call? && x.task.key == key)
            && (Notes(NewKeys, key, o) <==> a.Check? && x.task.key == key && a.reply.Ok? && key !in s.seen)
            && (Notes(FailedChecks, key, o) <==> a.Check? && x.task.key == key && a.reply.Err?)
            && !Notes(Expiries, key, o) && Says(s, w, a) == [o]
  {
  }

  /** The accounts of one key after a step that says `Says(s, w, a)`. */
  lemma KeyTold(s: State, t: State, w: nat, a: WorkAction, key: string)
    requires WorkEnabled(s, w, a) && KeyLaw(s, key) && t.hist == s.hist + Says(s, w, a)
    requires Pool(Cleared(key), t.workers) <= Pool(Cleared(key), s.workers)
               + (if a.Check? && s.workers[w].task.key == key && (a.reply.Err? || key !in s.seen) then 1 else 0)
               - (if a.Call? && s.workers[w].task.key == key then 1 else 0)
    requires key in t.seen <==> key in s.seen || (a.Check? && a.reply.Landed() && s.workers[w].task.key == key)
    ensures KeyLaw(t, key)
  {
    if Says(s, w, a) != [] {
      var o := Says(s, w, a)[0];
      SaidOfKey(s, w, a, key);
      TallyAll(key, s.hist, o);
    } else {
      assert t.hist == s.hist;
    }
  }

  lemma KeyWork(s: State, w: nat, a: WorkAction, key: string)
    requires Inv(s) && s.cfg.checker && key != "" && WorkEnabled(s, w, a) && KeyLaw(s, key)
    ensures KeyLaw(WorkNext(s, w, a), key)
  {
    var t := WorkNext(s, w, a);
    PoolMove(Cleared(key), s.workers, w, t.workers[w]);
    ClearedWork(s, w, a, key);
    SeenWork(s, w, a, key);
    SaysWork(s, w, a);
    KeyTold(s, t, w, a, key);
  }

  lemma KeySame(s: State, t: State, key: string)
    requires KeyLaw(s, key) && t.seen == s.seen && Pool(Cleared(key), t.workers) == Pool(Cleared(key), s.workers)
    requires t.hist == s.hist || exists k, id :: t.hist == s.hist + [Published(k, id)]
    ensures KeyLaw(t, key)
  {
    if t.hist != s.hist {
      var k, id :| t.hist == s.hist + [Published(k, id)];
      TallyAll(key, s.hist, Published(k, id));
    }
  }

  lemma KeyExpire(s: State, gone: string, key: string)
    requires KeyLaw(s, key) && EnvEnabled(s, Expire(gone))
    ensures KeyLaw(EnvNext(s, Expire(gone)), key)
  {
    TallyAll(key, s.hist, Expired(gone));
  }

  lemma KeyEnv(s: State, e: EnvAction, key: string)
    requires EnvEnabled(s, e) && KeyLaw(s, key)
    ensures KeyLaw(EnvNext(s, e), key)
  {
    if e.Expire? {
      KeyExpire(s, e.key, key);
    } else {
      KeySame(s, EnvNext(s, e), key);
    }
  }

  lemma KeyBoot(s: State, b: BootAction, key: string)
    requires Goroutines(s) && BootEnabled(s, b) && KeyLaw(s, key)
    ensures KeyLaw(BootNext(s, b), key)
  {
    if b.Spawn? && s.starter.next < |s.workers| {
      PoolMove(Cleared(key), s.workers, s.starter.next, Idle);
    }
    KeySame(s, BootNext(s, b), key);
  }

  lemma KeyRetry(s: State, r: nat, x: ReplayAction, key: string)
    requires RetryEnabled(s, r, x) && KeyLaw(s, key)
    ensures KeyLaw(RetryNext(s, r, x), key)
  {
    KeySame(s, RetryNext(s, r, x), key);
  }

  lemma KeyOther(s: State, a: Action, key: string)
    requires Inv(s) && Enabled(s, a) && !a.Work? && KeyLaw(s, key)
    ensures KeyLaw(Next(s, a), key)
  {
    match a {
      case Env(e) => KeyEnv(s, e, key);
      case Boot(b) => KeyBoot(s, b, key);
      case Fetch(f) => KeySame(s, FetchNext(s, f), key);
      case Retry(r, x) => KeyRetry(s, r, x, key);
    }
  }

  lemma {:induction false} KeyRun(s: State, run: seq<Action>, key: string)
    requires Inv(s) && s.cfg.checker && key != "" && Valid(s, run) && KeyLaw(s, key)
    ensures KeyLaw(Exec(s, run), key)
    decreases |run|
  {
    if run != [] {
      InvStep(s, run[0]);
      if run[0].Work? {
        KeyWork(s, run[0].w, run[0].work, key);
      } else {
        KeyOther(s, run[0], key);
      }
      KeyRun(Next(s, run[0]), run[1..], key);
    }
  }

  lemma KeyInit(cfg: Config, key: string)
    ensures KeyLaw(Init(cfg), key)
  {
    PoolZero(Cleared(key), Init(cfg).workers);
  }

  /**
   With a checker, the tasks of one non-empty key are processed at most once, and once more for
   every failed check and every expiry of the key, in every interleaving of the workers.
  */
  lemma AtMostOncePerKey(cfg: Config, s: State, key: string)
    requires cfg.checker && key != "" && Reachable(cfg, s)
    ensures var h := s.hist;
            Tally(KeyCalls, key, h) <= 1 + Tally(FailedChecks, key, h) + Tally(Expiries, key, h)
  {
    var run :| Valid(Init(cfg), run) && s == Exec(Init(cfg), run);
    InvInit(cfg);
    KeyInit(cfg, key);
    KeyRun(Init(cfg), run, key);
  }

  /* ---------- duplicates ---------- */

  /** Line `p` of the history is the check that marked the key. */
  predicate Marks(hist: seq<Obs>, p: nat, key: string) {
    p < |hist| && hist[p].Checked? && hist[p].key == key && hist[p].reply.Landed() && hist[p].isNew
  }

  ghost predicate Marked(hist: seq<Obs>, n: nat, key: string) {
    exists p: nat :: p < n && Marks(hist, p, key)
  }

  ghost predicate DuplicateLaw(s: State) {
    && (forall key :: key in s.seen ==> Marked(s.hist, |s.hist|, key))
    && (forall w :: 0 <= w < |s.workers| && s.workers[w].Acking? && s.workers[w].why.Duplicate? ==>
          Marked(s.hist, |s.hist|, s.workers[w].why.key))
    && (forall q :: 0 <= q < |s.hist| && s.hist[q].AckedDuplicate? ==> Marked(s.hist, q, s.hist[q].key))
  }

  lemma MarkedStays(h: seq<Obs>, k: seq<Obs>, n: nat, m: nat, key: string)
    requires h <= k && n <= |h| && n <= m && Marked(h, n, key)
    ensures Marked(k, m, key)
  {
    var p: nat :| p < n && Marks(h, p, key);
    assert Marks(k, p, key);
  }

  /** What a step says of a key it marks, and of a duplicate it acknowledges. */
  lemma DuplicateSays(s: State, w: nat, a: WorkAction)
    requires WorkEnabled(s, w, a)
    ensures a.Check? && a.reply.Landed() && s.workers[w].task.key !in s.seen ==>
              Says(s, w, a) == [Checked(s.workers[w].task.key, a.reply, true)]
    ensures |Says(s, w, a)| <= 1
    ensures Says(s, w, a) != [] && Says(s, w, a)[0].AckedDuplicate? ==>
              s.workers[w].Acking? && s.workers[w].why == Duplicate(Says(s, w, a)[0].key)
  {
  }

  /** Only a check turns a worker to a duplicate, and only of a key already marked. */
  lemma DuplicateTurns(s: State, w: nat, a: WorkAction)
    requires WorkEnabled(s, w, a)
    ensures var y := WorkNext(s, w, a).workers[w]; y.Acking? && y.why.Duplicate? ==> a.Check? && y.why.key in s.seen
  {
  }

  /** The two lines of a worker's step that matter: a fresh mark, and who turns to a duplicate. */
  lemma DuplicateFacts(s: State, w: nat, a: WorkAction)
    requires Inv(s) && WorkEnabled(s, w, a)
    ensures var t := WorkNext(s, w, a); var y := t.workers[w];
            && (y.Acking? && y.why.Duplicate? ==> a.Check? && y.why.key in s.seen)
            && (a.Check? && a.reply.Landed() && s.workers[w].task.key !in s.seen ==>
                  Marks(t.hist, |s.hist|, s.workers[w].task.key))
            && |t.hist| <= |s.hist| + 1
            && (|t.hist| > |s.hist| && t.hist[|s.hist|].AckedDuplicate? ==>
                  s.workers[w].Acking? && s.workers[w].why == Duplicate(t.hist[|s.hist|].key))
  {
    SaysWork(s, w, a);
    DuplicateSays(s, w, a);
    DuplicateTurns(s, w, a);
  }

  lemma DuplicateTold(s: State, t: State, w: nat)
    requires DuplicateLaw(s) && WorkerFrame(s, t, w)
    requires forall key :: key in t.seen ==> key in s.seen || Marked(t.hist, |t.hist|, key)
    requires t.workers[w].Acking? && t.workers[w].why.Duplicate? ==> t.workers[w].why.key in s.seen
    requires |t.hist| <= |s.hist| + 1
    requires |t.hist| > |s.hist| && t.hist[|s.hist|].AckedDuplicate? ==>
               s.workers[w].Acking? && s.workers[w].why == Duplicate(t.hist[|s.hist|].key)
    ensures DuplicateLaw(t)
  {
    var n := |s.hist|;
    forall key | key in s.seen
      ensures Marked(t.hist, |t.hist|, key)
    {
      MarkedStays(s.hist, t.hist, n, |t.hist|, key);
    }
    forall v | 0 <= v < |t.workers| && t.workers[v].Acking? && t.workers[v].why.Duplicate?
      ensures Marked(t.hist, |t.hist|, t.workers[v].why.key)
    {
      if v != w {
        assert t.workers[v] == s.workers[v];
      }
      MarkedStays(s.hist, t.hist, n, |t.hist|, t.workers[v].why.key);
    }
    forall q | 0 <= q < |t.hist| && t.hist[q].AckedDuplicate?
      ensures Marked(t.hist, q, t.hist[q].key)
    {
      MarkedStays(s.hist, t.hist, if q < n then q else n, q, t.hist[q].key);
    }
  }

  lemma DuplicateWork(s: State, w: nat, a: WorkAction)
    requires Inv(s) && WorkEnabled(s, w, a) && DuplicateLaw(s)
    ensures DuplicateLaw(WorkNext(s, w, a))
  {
    var t := WorkNext(s, w, a);
    DuplicateFacts(s, w, a);
    forall key | key in t.seen
      ensures key in s.seen || Marked(t.hist, |t.hist|, key)
    {
      SeenWork(s, w, a, key);
      assert key !in s.seen ==> Marks(t.hist, |s.hist|, key);
    }
    DuplicateTold(s, t, w);
  }

  lemma DuplicateOther(s: State, a: Action)
    requires Enabled(s, a) && !a.Work? && DuplicateLaw(s)
    ensures DuplicateLaw(Next(s, a))
  {
    var t := Next(s, a);
    var n := |s.hist|;
    assert s.hist <= t.hist;
    assert forall q :: n <= q < |t.hist| ==> !t.hist[q].AckedDuplicate?;
    forall key | key in t.seen
      ensures Marked(t.hist, |t.hist|, key)
    {
      MarkedStays(s.hist, t.hist, n, |t.hist|, key);
    }
    forall v | 0 <= v < |t.workers| && t.workers[v].Acking? && t.workers[v].why.Duplicate?
      ensures Marked(t.hist, |t.hist|, t.workers[v].why.key)
    {
      MarkedStays(s.hist, t.hist, n, |t.hist|, t.workers[v].why.key);
    }
    forall q | 0 <= q < |t.hist| && t.hist[q].AckedDuplicate?
      ensures Marked(t.hist, q, t.hist[q].key)
    {
      assert t.hist[q] == s.hist[q];
      MarkedStays(s.hist, t.hist, q, q, t.hist[q].key);
    }
  }

  lemma {:induction false} DuplicateRun(s: State, run: seq<Action>)
    requires Inv(s) && Valid(s, run) && DuplicateLaw(s)
    ensures DuplicateLaw(Exec(s, run))
    decreases |run|
  {
    if run != [] {
      InvStep(s, run[0]);
      if run[0].Work? {
        DuplicateWork(s, run[0].w, run[0].work);
      } else {
        DuplicateOther(s, run[0]);
      }
      DuplicateRun(Next(s, run[0]), run[1..]);
    }
  }

  /** A message is acknowledged as a duplicate only after an earlier check marked its key. */
  lemma DuplicatesFollowMarks(cfg: Config, s: State, q: nat)
    requires Reachable(cfg, s) && q < |s.hist| && s.hist[q].AckedDuplicate?
    ensures Marked(s.hist, q, s.hist[q].key)
  {
    var run :| Valid(Init(cfg), run) && s == Exec(Init(cfg), run);
    InvInit(cfg);
    DuplicateRun(Init(cfg), run);
  }
}
