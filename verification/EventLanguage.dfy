/**
 The language of the events a consumer announces for one task: attempts that fail until one
 completes or the retries are spent, and a fresh round of attempts only after a DLQ event.
*/
module EventLanguage {
  import opened Tasks
  import opened Queue
  import opened Custody
  import opened Handling
  import opened Lineage

  /* ---------- the language ---------- */

  /** `k` failed attempts. */
  function Tries(k: nat): seq<EventKind> {
    if k == 0 then [] else [ProcessingEvent, FailedEvent] + Tries(k - 1)
  }

  /** A round that used up all `left` retries and ended on the dead-letter stream. */
  function DeadRound(left: nat): seq<EventKind> {
    Tries(left) + [ProcessingEvent, FailedEvent, DlqEvent]
  }

  /** A round that completed, or has not ended yet, after at most `left` retries. */
  ghost predicate LastRound(w: seq<EventKind>, left: nat) {
    exists k: nat :: k <= left && LastRoundAfter(w, k, left)
  }

  predicate LastRoundAfter(w: seq<EventKind>, k: nat, left: nat) {
    || w == Tries(k)
    || w == Tries(k) + [ProcessingEvent]
    || w == Tries(k) + [ProcessingEvent, CompletedEvent]
    || (k == left && w == Tries(k) + [ProcessingEvent, FailedEvent])
  }

  /** Dead rounds, the first with `left` retries and the others with `top`, then a last round. */
  ghost predicate Lifecycle(w: seq<EventKind>, left: nat, top: nat)
    decreases |w|
  {
    || LastRound(w, left)
    || (DeadRound(left) <= w && Lifecycle(w[|DeadRound(left)|..], top, top))
  }

  /* ---------- an automaton for it ---------- */

  datatype Phase = Ready(left: nat) | InAttempt(left: nat) | Doomed | Finished | Broken

  function Hear(p: Phase, kind: EventKind, top: nat): Phase {
    match (p, kind)
    case (Ready(l), ProcessingEvent) => InAttempt(l)
    case (InAttempt(l), CompletedEvent) => Finished
    case (InAttempt(l), FailedEvent) => if l > 0 then Ready(l - 1) else Doomed
    case (Doomed, DlqEvent) => Ready(top)
    case _ => Broken
  }

  function HearAll(p: Phase, w: seq<EventKind>, top: nat): Phase
    decreases |w|
  {
    if w == [] then p else HearAll(Hear(p, w[0], top), w[1..], top)
  }

  lemma {:induction false} HearOneMore(p: Phase, w: seq<EventKind>, kind: EventKind, top: nat)
    ensures HearAll(p, w + [kind], top) == Hear(HearAll(p, w, top), kind, top)
    decreases |w|
  {
    if w == [] {
      assert (w + [kind])[1..] == [];
    } else {
      assert (w + [kind])[1..] == w[1..] + [kind];
      HearOneMore(Hear(p, w[0], top), w[1..], kind, top);
    }
  }

  lemma {:induction false} DeafForever(p: Phase, w: seq<EventKind>, top: nat)
    requires p.Broken? || (p.Finished? && w != [])
    ensures HearAll(p, w, top).Broken?
    decreases |w|
  {
    if w != [] {
      DeafForever(Broken, w[1..], top);
    }
  }

  /** One more failed attempt in front. */
  lemma OneMoreTry(w: seq<EventKind>, left: nat, top: nat)
    requires |w| >= 2 && w[0].ProcessingEvent? && w[1].FailedEvent? && Lifecycle(w[2..], left, top)
    ensures Lifecycle(w, left + 1, top)
  {
    var v := w[2..];
    assert w == [ProcessingEvent, FailedEvent] + v;
    if LastRound(v, left) {
      var k: nat :| k <= left && LastRoundAfter(v, k, left);
      assert LastRoundAfter(w, k + 1, left + 1);
    } else {
      assert DeadRound(left + 1) == [ProcessingEvent, FailedEvent] + DeadRound(left);
      assert w[|DeadRound(left + 1)|..] == v[|DeadRound(left)|..];
    }
  }

  /** The automaton accepts only words of the language. */
  lemma {:induction false} AcceptsOnlyLifecycles(w: seq<EventKind>, left: nat, top: nat)
    requires !HearAll(Ready(left), w, top).Broken?
    ensures Lifecycle(w, left, top)
    decreases |w|
  {
    if w == [] {
      assert LastRoundAfter(w, 0, left);
    } else {
      if !w[0].ProcessingEvent? {
        DeafForever(Broken, w[1..], top);
      }
      if |w| == 1 {
        assert LastRoundAfter(w, 0, left);
      } else {
        assert w[2..] == w[1..][1..];
        if w[1].CompletedEvent? {
          if w[2..] != [] {
            DeafForever(Finished, w[2..], top);
          }
          assert LastRoundAfter(w, 0, left);
        } else if !w[1].FailedEvent? {
          DeafForever(Broken, w[2..], top);
        } else if left > 0 {
          AcceptsOnlyLifecycles(w[2..], left - 1, top);
          OneMoreTry(w, left - 1, top);
        } else if |w| == 2 {
          assert LastRoundAfter(w, 0, left);
        } else {
          assert w[3..] == w[2..][1..];
          if !w[2].DlqEvent? {
            DeafForever(Broken, w[3..], top);
          }
          assert HearAll(Ready(left), w, top) == HearAll(Doomed, w[2..], top);
          assert HearAll(Doomed, w[2..], top) == HearAll(Ready(top), w[3..], top);
          AcceptsOnlyLifecycles(w[3..], top, top);
          assert DeadRound(0) == [ProcessingEvent, FailedEvent, DlqEvent] == w[..3];
        }
      }
    }
  }

  /** Failed tries use up retries and nothing else. */
  lemma {:induction false} TriesHeard(k: nat, left: nat, w: seq<EventKind>, top: nat)
    requires k <= left
    ensures HearAll(Ready(left), Tries(k) + w, top) == HearAll(Ready(left - k), w, top)
    decreases k
  {
    var v := Tries(k) + w;
    if k == 0 {
      assert v == w;
    } else {
      assert v[0] == ProcessingEvent && v[1..][0] == FailedEvent && v[1..][1..] == Tries(k - 1) + w;
      TriesHeard(k - 1, left - 1, w, top);
    }
  }

  lemma HearNext(p: Phase, kind: EventKind, w: seq<EventKind>, top: nat)
    ensures HearAll(p, [kind] + w, top) == HearAll(Hear(p, kind, top), w, top)
  {
    assert ([kind] + w)[1..] == w;
  }

  /** What the automaton makes of a failed attempt, or a completed one. */
  lemma HearAttempt(l: nat, kind: EventKind, w: seq<EventKind>, top: nat)
    ensures HearAll(Ready(l), [ProcessingEvent, kind] + w, top) == HearAll(Hear(InAttempt(l), kind, top), w, top)
  {
    assert [ProcessingEvent, kind] + w == [ProcessingEvent] + ([kind] + w);
    HearNext(Ready(l), ProcessingEvent, [kind] + w, top);
    HearNext(InAttempt(l), kind, w, top);
  }

  lemma LastHeard(w: seq<EventKind>, k: nat, left: nat, top: nat)
    requires k <= left && LastRoundAfter(w, k, left)
    ensures !HearAll(Ready(left), w, top).Broken?
  {
    var l := left - k;
    var end := w[|Tries(k)|..];
    assert w == Tries(k) + end;
    TriesHeard(k, left, end, top);
    assert end == [] || end == [ProcessingEvent] || end == [ProcessingEvent, CompletedEvent] + []
           || (l == 0 && end == [ProcessingEvent, FailedEvent] + []);
    HearNext(Ready(l), ProcessingEvent, [], top);
    assert [ProcessingEvent] + [] == [ProcessingEvent];
    HearAttempt(l, CompletedEvent, [], top);
    HearAttempt(l, FailedEvent, [], top);
  }

  /** The automaton accepts every word of the language. */
  lemma {:induction false} AcceptsLifecycles(w: seq<EventKind>, left: nat, top: nat)
    requires Lifecycle(w, left, top)
    ensures !HearAll(Ready(left), w, top).Broken?
    decreases |w|
  {
    if LastRound(w, left) {
      var k: nat :| k <= left && LastRoundAfter(w, k, left);
      LastHeard(w, k, left, top);
    } else {
      var rest := w[|DeadRound(left)|..];
      var v := [ProcessingEvent, FailedEvent] + ([DlqEvent] + rest);
      assert w == Tries(left) + v;
      TriesHeard(left, left, v, top);
      HearAttempt(0, FailedEvent, [DlqEvent] + rest, top);
      HearNext(Doomed, DlqEvent, rest, top);
      AcceptsLifecycles(rest, top, top);
    }
  }

  /** The words that the automaton accepts are the lifecycles. */
  lemma AcceptedAreLifecycles(w: seq<EventKind>, left: nat, top: nat)
    ensures !HearAll(Ready(left), w, top).Broken? <==> Lifecycle(w, left, top)
  {
    if Lifecycle(w, left, top) {
      AcceptsLifecycles(w, left, top);
    } else if !HearAll(Ready(left), w, top).Broken? {
      AcceptsOnlyLifecycles(w, left, top);
    }
  }

  /* ---------- the events of one task ---------- */

  predicate Concerns(o: Obs, id: string) {
    o.Published? && o.taskId == id && !o.kind.PendingEvent?
  }

  /** What the consumer announced, or tried to announce, about task `id`. */
  function Word(hist: seq<Obs>, id: string): seq<EventKind> {
    if hist == [] then []
    else
      var o := hist[|hist| - 1];
      Word(hist[..|hist| - 1], id) + if Concerns(o, id) then [o.kind] else []
  }

  lemma WordLog(hist: seq<Obs>, o: Obs, id: string)
    ensures Word(hist + [o], id) == Word(hist, id) + if Concerns(o, id) then [o.kind] else []
  {
    assert (hist + [o])[..|hist|] == hist;
  }

  predicate Mine(e: Entry, id: string) {
    e.body.Encoded? && e.body.task.id == id
  }

  predicate PassedOn(life: Life) {
    life.Requeued? || life.Buried? || life.Replayed?
  }

  function Top(t: Task): nat {
    Max(0, t.maxRetries) as nat
  }

  /** The phase of a task whose last copy is entry `e`. */
  function PhaseOf(e: Entry): Phase
    requires e.body.Encoded?
  {
    var left := RetriesLeft(e.body.task);
    if e.stream.Dlq? then Ready(Top(e.body.task))
    else
      match e.life
      case Fresh => Ready(left)
      case Announced => InAttempt(left)
      case Called => InAttempt(left)
      case Succeeded => InAttempt(left)
      case Failed => InAttempt(left)
      case RetryDue => if left > 0 then Ready(left - 1) else Broken
      case BuryDue => Doomed
      case BuryTold => Ready(Top(e.body.task))
      case Completed => Finished
      case _ => Broken
  }

  /** Task `id` is still unknown, or entry `x` is its last copy and its events so far fit. */
  ghost predicate Told(s: State, id: string, x: nat) {
    if forall r :: 0 <= r < |s.roots| ==> s.roots[r].id != id then
      Word(s.hist, id) == [] && forall i :: 0 <= i < |s.journal| ==> !Mine(s.journal[i], id)
    else Last(s, id, x)
  }

  /** The phase the automaton reaches on the events of a task produced as `root`. */
  function Heard(root: Task, w: seq<EventKind>): Phase {
    HearAll(Ready(RetriesLeft(root)), w, Top(root))
  }

  /** Entry `x` is a copy of task `id` that has not been passed on. */
  ghost predicate LastEntry(s: State, id: string, x: nat) {
    && x < |s.journal|
    && var e := s.journal[x];
       && Mine(e, id) && !PassedOn(e.life) && e.root < |s.roots| && s.roots[e.root].id == id
       && (s.cfg.checker ==> e.body.task.key == "")
       && Top(e.body.task) == Top(s.roots[e.root])
       && forall r :: 0 <= r < |s.roots| && s.roots[r].id == id ==> r == e.root
  }

  /** Every other copy has been passed on. */
  ghost predicate OthersPassed(j: seq<Entry>, id: string, x: nat) {
    forall i :: 0 <= i < |j| && i != x && Mine(j[i], id) ==> PassedOn(j[i].life)
  }

  ghost predicate Last(s: State, id: string, x: nat) {
    && LastEntry(s, id, x)
    && OthersPassed(s.journal, id, x)
    && Heard(s.roots[s.journal[x].root], Word(s.hist, id)) == PhaseOf(s.journal[x])
  }

  /* ---------- the runs it is about ---------- */

  predicate AtRest(x: Replay) {
    x.Scanning? && x.rest == []
  }

  /** The task is produced once, and no idempotency check may drop it. */
  predicate ProducedOnce(s: State, a: Action, id: string) {
    a.Env? && a.env.Produce? && a.env.reply.Landed() && a.env.task.id == id ==>
      (s.cfg.checker ==> a.env.task.key == "") && forall r :: 0 <= r < |s.roots| ==> s.roots[r].id != id
  }

  /** A dead-letter entry of the task is put back at most once. */
  predicate PutBackOnce(s: State, a: Action, id: string)
    requires Enabled(s, a)
  {
    match a
    case Retry(r, Forward(reply)) =>
      var e := s.journal[s.replays[r].rest[0]];
      Mine(e, id) && reply.Landed() ==> !e.life.Replayed?
    case _ => true
  }

  /** Replay requests do not overlap; their adds succeed or have no effect, their deletes take effect. */
  predicate SerialReplays(s: State, a: Action) {
    match a
    case Retry(_, Begin) => forall r :: 0 <= r < |s.replays| ==> AtRest(s.replays[r])
    case Retry(_, Forward(reply)) => reply.Ok? || !reply.landed
    case Retry(_, Delete(reply)) => reply.Landed()
    case _ => true
  }

  predicate IsFresh(s: State, d: nat) {
    d < |s.journal| && s.journal[d].life.Fresh?
  }

  ghost predicate RestIsFresh(s: State, x: Replay) {
    Increasing(x.rest) && forall d :: d in x.rest ==> IsFresh(s, d)
  }

  /** One replay at a time, over entries that no replay has put back yet. */
  ghost predicate OneReplay(s: State) {
    var n := |s.replays|;
    && (forall r :: 0 <= r < n - 1 ==> AtRest(s.replays[r]))
    && (n > 0 ==> RestIsFresh(s, s.replays[n - 1]))
    && (forall d :: 0 <= d < |s.journal| && s.journal[d].stream.Dlq? && s.journal[d].life.Replayed? ==>
          d in s.deleted || (n > 0 && s.replays[n - 1].Deleting? && s.replays[n - 1].entry == d))
  }

  lemma OneReplayForward(s: State, r: nat, reply: Reply)
    requires Inv(s) && OneReplay(s) && RetryEnabled(s, r, Forward(reply)) && (reply.Ok? || !reply.landed)
    ensures OneReplay(ForwardNext(s, r, reply))
    ensures s.journal[s.replays[r].rest[0]].life.Fresh?
  {
    var t := ForwardNext(s, r, reply);
    assert r == |s.replays| - 1 == |t.replays| - 1;
    var rest := s.replays[r].rest;
    assert rest[0] in rest && IsFresh(s, rest[0]);
    forall d | d in t.replays[r].rest
      ensures IsFresh(t, d)
    {
      assert d in rest[1..] && d in rest && d != rest[0];
      assert IsFresh(s, d);
    }
  }

  lemma OneReplayRetry(s: State, r: nat, a: ReplayAction)
    requires Inv(s) && OneReplay(s) && RetryEnabled(s, r, a) && SerialReplays(s, Retry(r, a))
    ensures OneReplay(RetryNext(s, r, a))
  {
    var t := RetryNext(s, r, a);
    if a.Begin? {
      assert t.replays[|s.replays|].rest == DlqIds(s.journal, s.deleted, |s.journal|);
    } else if a.Forward? {
      OneReplayForward(s, r, a.reply);
    } else {
      assert r == |s.replays| - 1;
    }
  }

  lemma OneReplayMarked(s: State, t: State, i: nat)
    requires OneReplay(s) && t.replays == s.replays && t.deleted == s.deleted
    requires i < |s.journal| <= |t.journal| && s.journal[i].stream.Main? && t.journal[i].stream.Main?
    requires forall d :: 0 <= d < |s.journal| && d != i ==> t.journal[d] == s.journal[d]
    requires forall d :: |s.journal| <= d < |t.journal| ==> t.journal[d].life.Fresh?
    requires |s.replays| > 0 ==> forall d :: d in s.replays[|s.replays| - 1].rest ==>
             d < |s.journal| && s.journal[d].stream.Dlq?
    ensures OneReplay(t)
  {
    if |s.replays| > 0 {
      var x := s.replays[|s.replays| - 1];
      forall d | d in x.rest
        ensures IsFresh(t, d)
      {
        assert IsFresh(s, d);
      }
    }
  }

  lemma OneReplayWork(s: State, w: nat, a: WorkAction)
    requires Inv(s) && OneReplay(s) && WorkEnabled(s, w, a)
    ensures OneReplay(WorkNext(s, w, a))
  {
    if !a.Exit? {
      LocalWork(s, w, a);
      Knows(s, w, a);
      if |s.replays| > 0 {
        assert ReplayFits(s, s.replays[|s.replays| - 1]);
      }
      OneReplayMarked(s, WorkNext(s, w, a), Subject(s, w, a));
    }
  }

  lemma OneReplayKept(s: State, t: State)
    requires OneReplay(s) && t.replays == s.replays && t.deleted == s.deleted && |s.journal| <= |t.journal|
    requires forall d :: 0 <= d < |s.journal| ==> t.journal[d] == s.journal[d]
    requires forall d :: |s.journal| <= d < |t.journal| ==> t.journal[d].life.Fresh?
    ensures OneReplay(t)
  {
    forall x | RestIsFresh(s, x)
      ensures RestIsFresh(t, x)
    {
    }
  }

  lemma OneReplayEnv(s: State, e: EnvAction)
    requires OneReplay(s) && EnvEnabled(s, e)
    ensures OneReplay(EnvNext(s, e))
  {
    OneReplayKept(s, EnvNext(s, e));
  }

  lemma OneReplayStep(s: State, a: Action)
    requires Inv(s) && OneReplay(s) && Enabled(s, a) && SerialReplays(s, a)
    ensures OneReplay(Next(s, a))
  {
    match a {
      case Env(e) => OneReplayEnv(s, e);
      case Boot(b) => OneReplayKept(s, BootNext(s, b));
      case Fetch(f) => OneReplayKept(s, FetchNext(s, f));
      case Work(w, x) => OneReplayWork(s, w, x);
      case Retry(r, x) => OneReplayRetry(s, r, x);
    }
  }

  /* ---------- one step of the life of a task ---------- */

  /** The next publish attempt at `pc` is what the automaton expects of the entry's phase. */
  lemma PhaseTold(s: State, w: nat, a: WorkAction)
    requires Inv(s) && WorkEnabled(s, w, a) && !a.Exit? && Known(s, w, a)
    requires s.journal[Subject(s, w, a)].body.Encoded? && !PassedOn(s.journal[Subject(s, w, a)].life)
    requires a.Check? ==> s.workers[w].task.key == ""
    ensures var e := s.journal[Subject(s, w, a)]; var f := e.(life := Becomes(s, w, a));
            if Copies(s, w, a) == [] then
              && !PassedOn(f.life)
              && PhaseOf(f) ==
                 if a.Publish? then Hear(PhaseOf(e), EventAt(s.workers[w].pc), Top(e.body.task)) else PhaseOf(e)
            else PassedOn(f.life) && PhaseOf(Copies(s, w, a)[0]) == PhaseOf(e)
  {
  }

  lemma WordWork(s: State, t: State, w: nat, a: WorkAction, id: string)
    requires WorkEnabled(s, w, a) && !a.Exit? && Known(s, w, a) && ToldBy(s, t, w, a)
    ensures var said := a.Publish? && s.workers[w].task.id == id;
            Word(t.hist, id) == Word(s.hist, id) + if said then [EventAt(s.workers[w].pc)] else []
  {
    if Says(s, w, a) != [] {
      var o := Says(s, w, a)[0];
      assert t.hist == s.hist + [o];
      WordLog(s.hist, o, id);
    } else {
      assert t.hist == s.hist;
    }
  }

  /** Neither the copies of the task nor its events change between the two states. */
  ghost predicate Unmoved(s: State, t: State, id: string) {
    && t.cfg == s.cfg && s.roots <= t.roots && |s.journal| <= |t.journal|
    && (forall r :: |s.roots| <= r < |t.roots| ==> t.roots[r].id != id)
    && (forall n :: 0 <= n < |s.journal| && Mine(s.journal[n], id) ==> t.journal[n] == s.journal[n])
    && (forall n :: 0 <= n < |t.journal| && Mine(t.journal[n], id) ==> n < |s.journal| && Mine(s.journal[n], id))
    && Word(t.hist, id) == Word(s.hist, id)
  }

  lemma ToldStill(s: State, t: State, id: string, x: nat)
    requires Told(s, id, x) && Unmoved(s, t, id)
    ensures Told(t, id, x)
  {
    if forall r :: 0 <= r < |s.roots| ==> s.roots[r].id != id {
      assert forall r :: 0 <= r < |t.roots| ==> t.roots[r].id != id;
    } else {
      var r :| 0 <= r < |s.roots| && s.roots[r].id == id;
      assert t.roots[r].id == id;
      assert Last(s, id, x);
      var e := s.journal[x];
      assert t.journal[x] == e && t.roots[e.root] == s.roots[e.root];
      assert LastEntry(t, id, x);
      assert OthersPassed(t.journal, id, x);
    }
  }

  /** A copy that was passed on is only waiting for its acknowledgement. */
  lemma PassedWaits(s: State, w: nat, a: WorkAction)
    requires WorkEnabled(s, w, a) && !a.Exit? && Known(s, w, a) && PassedOn(s.journal[Subject(s, w, a)].life)
    ensures a.Ack? || a.Crash?
    ensures Becomes(s, w, a) == s.journal[Subject(s, w, a)].life && Copies(s, w, a) == [] && !a.Publish?
  {
  }

  /** A worker's task and its copies carry the ID of the entry they come from. */
  lemma SameId(s: State, w: nat, a: WorkAction)
    requires WorkEnabled(s, w, a) && !a.Exit? && Known(s, w, a)
    ensures var e := s.journal[Subject(s, w, a)];
            && (a.Publish? ==> e.body.Encoded? && s.workers[w].task.id == e.body.task.id)
            && (Copies(s, w, a) != [] ==> e.body.Encoded? && Copies(s, w, a)[0].body.Encoded?
                                          && Copies(s, w, a)[0].body.task.id == e.body.task.id)
  {
  }

  /** A step about another task, or about a copy that has been passed on, changes nothing here. */
  lemma Elsewhere(s: State, t: State, w: nat, a: WorkAction, id: string)
    requires WorkEnabled(s, w, a) && !a.Exit? && Known(s, w, a) && ToldBy(s, t, w, a)
    requires t.roots == s.roots && t.cfg == s.cfg
    requires var e := s.journal[Subject(s, w, a)]; !Mine(e, id) || PassedOn(e.life)
    ensures Unmoved(s, t, id)
  {
    WordWork(s, t, w, a, id);
    var i := Subject(s, w, a);
    var e := s.journal[i];
    SameId(s, w, a);
    if PassedOn(e.life) {
      PassedWaits(s, w, a);
      assert t.journal == s.journal[i := e] == s.journal;
    } else {
      var marked := s.journal[i := e.(life := Becomes(s, w, a))];
      Apart(s.journal, marked, Copies(s, w, a), id);
    }
    assert Word(t.hist, id) == Word(s.hist, id);
  }

  /** Marking or appending entries of other tasks leaves the copies of this one as they are. */
  lemma Apart(j: seq<Entry>, marked: seq<Entry>, copies: seq<Entry>, id: string)
    requires |marked| == |j| && |copies| <= 1 && (copies != [] ==> !Mine(copies[0], id))
    requires forall n :: 0 <= n < |j| && (Mine(j[n], id) || Mine(marked[n], id)) ==> marked[n] == j[n]
    ensures forall n :: 0 <= n < |j| && Mine(j[n], id) ==> (marked + copies)[n] == j[n]
    ensures forall n :: 0 <= n < |marked + copies| && Mine((marked + copies)[n], id) ==> n < |j| && Mine(j[n], id)
  {
  }

  /** The automaton follows the event, if there was one. */
  lemma StaysHeard(s: State, t: State, w: nat, a: WorkAction, id: string)
    requires Inv(s) && WorkEnabled(s, w, a) && !a.Exit? && Known(s, w, a) && ToldBy(s, t, w, a)
    requires Last(s, id, Subject(s, w, a)) && Copies(s, w, a) == []
    requires a.Check? ==> s.workers[w].task.key == ""
    ensures var e := s.journal[Subject(s, w, a)];
            Heard(s.roots[e.root], Word(t.hist, id)) == PhaseOf(e.(life := Becomes(s, w, a)))
  {
    var root := s.roots[s.journal[Subject(s, w, a)].root];
    WordWork(s, t, w, a, id);
    PhaseTold(s, w, a);
    SameId(s, w, a);
    if a.Publish? {
      HearOneMore(Ready(RetriesLeft(root)), Word(s.hist, id), EventAt(s.workers[w].pc), Top(root));
    } else {
      assert Word(t.hist, id) == Word(s.hist, id);
    }
  }

  /** A step about the last copy that makes no new one: the phase follows the event. */
  lemma Stays(s: State, t: State, w: nat, a: WorkAction, id: string)
    requires Inv(s) && WorkEnabled(s, w, a) && !a.Exit? && Known(s, w, a) && ToldBy(s, t, w, a)
    requires t.roots == s.roots && t.cfg == s.cfg && Last(s, id, Subject(s, w, a)) && Copies(s, w, a) == []
    requires a.Check? ==> s.workers[w].task.key == ""
    ensures Last(t, id, Subject(s, w, a))
  {
    var x := Subject(s, w, a);
    StaysHeard(s, t, w, a, id);
    PhaseTold(s, w, a);
    assert t.journal == s.journal[x := s.journal[x].(life := Becomes(s, w, a))];
    assert LastEntry(t, id, x);
    assert OthersPassed(t.journal, id, x);
  }

  /** A step that copies the last copy: the new copy takes over its phase. */
  lemma HandsOver(s: State, t: State, w: nat, a: WorkAction, id: string)
    requires Inv(s) && WorkEnabled(s, w, a) && !a.Exit? && Known(s, w, a) && ToldBy(s, t, w, a)
    requires t.roots == s.roots && t.cfg == s.cfg && Last(s, id, Subject(s, w, a)) && Copies(s, w, a) != []
    ensures Last(t, id, |s.journal|)
  {
    var x := Subject(s, w, a);
    var e := s.journal[x];
    var n := |s.journal|;
    WordWork(s, t, w, a, id);
    PhaseTold(s, w, a);
    assert t.journal == s.journal[x := e.(life := Becomes(s, w, a))] + [Copies(s, w, a)[0]];
    assert t.journal[n] == Copies(s, w, a)[0];
    assert Word(t.hist, id) == Word(s.hist, id);
    assert LastEntry(t, id, n);
    assert OthersPassed(t.journal, id, n);
  }

  lemma ToldWork(s: State, w: nat, a: WorkAction, id: string, x: nat) returns (y: nat)
    requires Inv(s) && WorkEnabled(s, w, a) && Told(s, id, x)
    ensures Told(WorkNext(s, w, a), id, y)
  {
    y := x;
    var t := WorkNext(s, w, a);
    if a.Exit? {
      ToldStill(s, t, id, x);
    } else {
      Knows(s, w, a);
      var e := s.journal[Subject(s, w, a)];
      if !Mine(e, id) || PassedOn(e.life) {
        Elsewhere(s, t, w, a, id);
        ToldStill(s, t, id, x);
      } else {
        assert Last(s, id, x) && Subject(s, w, a) == x;
        if Copies(s, w, a) == [] {
          Stays(s, t, w, a, id);
        } else {
          HandsOver(s, t, w, a, id);
          y := |s.journal|;
        }
      }
    }
  }

  lemma ForwardedAway(s: State, r: nat, reply: Reply, id: string)
    requires Inv(s) && RetryEnabled(s, r, Forward(reply))
    requires !Mine(s.journal[s.replays[r].rest[0]], id) || !reply.Landed()
    ensures Unmoved(s, ForwardNext(s, r, reply), id)
  {
    var t := ForwardNext(s, r, reply);
    var d := s.replays[r].rest[0];
    if s.journal[d].body.Encoded? && reply.Landed() {
      assert t.journal[|s.journal|].body == Encoded(s.journal[d].body.task.(currentRetries := 0));
    }
  }

  lemma ForwardedOn(s: State, r: nat, reply: Reply, id: string)
    requires Inv(s) && Lined(s) && RetryEnabled(s, r, Forward(reply)) && reply.Landed() &&
             Last(s, id, s.replays[r].rest[0])
    ensures Last(ForwardNext(s, r, reply), id, |s.journal|)
  {
    var t := ForwardNext(s, r, reply);
    var d := s.replays[r].rest[0];
    var e := s.journal[d];
    var n := |s.journal|;
    ForwardFits(s, r, reply);
    assert Descends(s, e) && InjectionFits(s, e.inj);
    assert t.journal == s.journal[d := e.(life := Replayed(n))]
                        + [Entry(Main, Encoded(e.body.task.(currentRetries := 0)), |s.injections|, e.root, Fresh)];
    assert LastEntry(t, id, n);
    assert OthersPassed(t.journal, id, n);
  }

  /** A dead-letter entry that was not put back has not been passed on. */
  lemma BuriedWaits(s: State, r: nat, reply: Reply)
    requires Inv(s) && RetryEnabled(s, r, Forward(reply)) && !s.journal[s.replays[r].rest[0]].life.Replayed?
    ensures !PassedOn(s.journal[s.replays[r].rest[0]].life)
  {
    assert ReplayFits(s, s.replays[r]) && s.replays[r].rest[0] in s.replays[r].rest;
  }

  lemma ToldForward(s: State, r: nat, reply: Reply, id: string, x: nat) returns (y: nat)
    requires Inv(s) && Lined(s) && RetryEnabled(s, r, Forward(reply)) && Told(s, id, x)
    requires PutBackOnce(s, Retry(r, Forward(reply)), id)
    ensures Told(ForwardNext(s, r, reply), id, y)
  {
    y := x;
    if Mine(s.journal[s.replays[r].rest[0]], id) && reply.Landed() {
      BuriedWaits(s, r, reply);
      assert Last(s, id, x) && s.replays[r].rest[0] == x;
      ForwardedOn(s, r, reply, id);
      y := |s.journal|;
    } else {
      ForwardedAway(s, r, reply, id);
      ToldStill(s, ForwardNext(s, r, reply), id, x);
    }
  }

  lemma Born(s: State, task: Task, reply: Reply, x: nat)
    requires Told(s, task.id, x) && ProducedOnce(s, Env(Produce(task, reply)), task.id) && reply.Landed()
    ensures Last(EnvNext(s, Produce(task, reply)), task.id, |s.journal|)
  {
    var t := EnvNext(s, Produce(task, reply));
    var n := |s.journal|;
    assert t.journal[n] == Entry(Main, Encoded(task), |s.injections|, |s.roots|, Fresh);
    assert LastEntry(t, task.id, n);
    assert OthersPassed(t.journal, task.id, n);
    assert Heard(task, []) == Ready(RetriesLeft(task));
  }

  /** An entry that is no copy of the task is appended, or nothing is. */
  lemma StoredAway(s: State, a: EnvAction, id: string)
    requires EnvEnabled(s, a) && (a.Produce? || a.Foreign? || a.Cancel?)
    requires !(a.Produce? && a.reply.Landed() && a.task.id == id)
    ensures Unmoved(s, EnvNext(s, a), id)
  {
    assert EnvNext(s, a).hist == s.hist;
  }

  lemma EnvAway(s: State, a: EnvAction, id: string)
    requires EnvEnabled(s, a) && !(a.Produce? && a.reply.Landed() && a.task.id == id)
    ensures Unmoved(s, EnvNext(s, a), id)
  {
    match a {
      case Announce(x) => WordLog(s.hist, Published(PendingEvent, x), id);
      case Expire(key) => WordLog(s.hist, Expired(key), id);
      case _ => StoredAway(s, a, id);
    }
  }

  lemma ToldEnv(s: State, a: EnvAction, id: string, x: nat) returns (y: nat)
    requires EnvEnabled(s, a) && Told(s, id, x) && ProducedOnce(s, Env(a), id)
    ensures Told(EnvNext(s, a), id, y)
  {
    y := x;
    if a.Produce? && a.reply.Landed() && a.task.id == id {
      Born(s, a.task, a.reply, x);
      y := |s.journal|;
      assert EnvNext(s, a).roots[|s.roots|].id == id;
    } else {
      EnvAway(s, a, id);
      ToldStill(s, EnvNext(s, a), id, x);
    }
  }

  lemma ToldStep(s: State, a: Action, id: string, x: nat) returns (y: nat)
    requires Inv(s) && Lined(s) && Enabled(s, a) && Told(s, id, x)
    requires ProducedOnce(s, a, id) && PutBackOnce(s, a, id)
    ensures Told(Next(s, a), id, y)
  {
    y := x;
    match a {
      case Env(e) => y := ToldEnv(s, e, id, x);
      case Boot(b) => ToldStill(s, BootNext(s, b), id, x);
      case Fetch(f) => ToldStill(s, FetchNext(s, f), id, x);
      case Work(w, z) => y := ToldWork(s, w, z, id, x);
      case Retry(r, z) =>
        if z.Forward? {
          y := ToldForward(s, r, z.reply, id, x);
        } else {
          if z.Tell? {
            WordLog(s.hist, Published(PendingEvent, s.replays[r].taskId), id);
          }
          ToldStill(s, RetryNext(s, r, z), id, x);
        }
    }
  }

  /* ---------- every run ---------- */

  /** The run produces the task once, unkeyed, and puts none of its dead-letter entries back twice. */
  predicate Orderly(s: State, run: seq<Action>, id: string)
    requires Valid(s, run)
    decreases |run|
  {
    run == [] ||
    (ProducedOnce(s, run[0], id) && PutBackOnce(s, run[0], id) && Orderly(Next(s, run[0]), run[1..], id))
  }

  lemma {:induction false} ToldRun(s: State, run: seq<Action>, id: string, x: nat) returns (y: nat)
    requires Inv(s) && Lined(s) && Told(s, id, x) && Valid(s, run) && Orderly(s, run, id)
    ensures Told(Exec(s, run), id, y)
    decreases |run|
  {
    y := x;
    if run != [] {
      var z := ToldStep(s, run[0], id, x);
      InvStep(s, run[0]);
      LinedStep(s, run[0]);
      y := ToldRun(Next(s, run[0]), run[1..], id, z);
    }
  }

  lemma PhaseSound(s: State, id: string, y: nat)
    requires Last(s, id, y) && Descends(s, s.journal[y])
    ensures !PhaseOf(s.journal[y]).Broken?
  {
  }

  /**
   In every run that produces task `id` once, unkeyed, and puts none of its dead-letter entries
   back twice, whatever else fails, panics or is cancelled, the consumer's publish attempts for the
   task form a lifecycle: rounds of Processing-Failed, a new round only after DLQ, no event after
   Completed, and never more retries in a round than the task had left when it entered the stream.
  */
  lemma EventsFormLifecycles(cfg: Config, run: seq<Action>, id: string, r: nat)
    requires Valid(Init(cfg), run) && Orderly(Init(cfg), run, id)
    requires r < |Exec(Init(cfg), run).roots| && Exec(Init(cfg), run).roots[r].id == id
    ensures var s := Exec(Init(cfg), run);
            Lifecycle(Word(s.hist, id), RetriesLeft(s.roots[r]), Top(s.roots[r]))
  {
    InvInit(cfg);
    LinedRun(Init(cfg), run);
    var y := ToldRun(Init(cfg), run, id, 0);
    var s := Exec(Init(cfg), run);
    assert Told(s, id, y) && Last(s, id, y) && Descends(s, s.journal[y]);
    PhaseSound(s, id, y);
    AcceptsOnlyLifecycles(Word(s.hist, id), RetriesLeft(s.roots[r]), Top(s.roots[r]));
  }

  /* ---------- replays that do not overlap ---------- */

  predicate Serial(s: State, run: seq<Action>)
    requires Valid(s, run)
    decreases |run|
  {
    run == [] || (SerialReplays(s, run[0]) && Serial(Next(s, run[0]), run[1..]))
  }

  predicate OnceProduced(s: State, run: seq<Action>, id: string)
    requires Valid(s, run)
    decreases |run|
  {
    run == [] || (ProducedOnce(s, run[0], id) && OnceProduced(Next(s, run[0]), run[1..], id))
  }

  /** Replays that do not overlap and whose deletes take effect put nothing back twice. */
  lemma {:induction false} SerialIsOrderly(s: State, run: seq<Action>, id: string)
    requires Inv(s) && OneReplay(s) && Valid(s, run) && Serial(s, run) && OnceProduced(s, run, id)
    ensures Orderly(s, run, id)
    decreases |run|
  {
    if run != [] {
      if run[0].Retry? && run[0].retry.Forward? {
        OneReplayForward(s, run[0].r, run[0].retry.reply);
      }
      InvStep(s, run[0]);
      OneReplayStep(s, run[0]);
      SerialIsOrderly(Next(s, run[0]), run[1..], id);
    }
  }
}
