/** The history kept for the proofs has no influence: it is never read by a step. */
module Inert {
  import opened Tasks
  import opened Queue

  function Plain(j: seq<Entry>): seq<Entry> {
    seq(|j|, i requires 0 <= i < |j| => j[i].(inj := 0, root := 0, life := Fresh))
  }

  /** The state without its history. */
  function Erase(s: State): State {
    s.(journal := Plain(s.journal), roots := [], injections := [], stuck := map[], leaks := 0, hist := [])
  }

  lemma {:induction false} MainIdsPlain(j: seq<Entry>, lo: nat, hi: nat)
    requires lo <= hi <= |j|
    ensures MainIds(Plain(j), lo, hi) == MainIds(j, lo, hi)
    decreases hi
  {
    if lo < hi {
      assert Plain(j)[hi - 1].stream == j[hi - 1].stream;
      MainIdsPlain(j, lo, hi - 1);
    }
  }

  lemma {:induction false} DlqIdsPlain(j: seq<Entry>, deleted: set<nat>, n: nat)
    requires n <= |j|
    ensures DlqIds(Plain(j), deleted, n) == DlqIds(j, deleted, n)
  {
    if n > 0 {
      assert Plain(j)[n - 1].stream == j[n - 1].stream;
      DlqIdsPlain(j, deleted, n - 1);
    }
  }

  lemma EnabledPlain(s: State, a: Action)
    ensures Enabled(Erase(s), a) <==> Enabled(s, a)
  {
    if a.Fetch? && a.fetch.FRead? && s.cursor + a.fetch.n <= |s.journal| {
      MainIdsPlain(s.journal, s.cursor, s.cursor + a.fetch.n);
    }
  }

  /** Marking an entry's history, or copying an entry, looks the same without history. */
  lemma PlainMark(j: seq<Entry>, i: nat, life: Life)
    requires i < |j|
    ensures Plain(j[i := j[i].(life := life)]) == Plain(j)
    ensures Plain(Plain(j)[i := Plain(j)[i].(life := life)]) == Plain(j)
  {
  }

  lemma PlainAppend(j: seq<Entry>, e: Entry)
    ensures Plain(j + [e]) == Plain(j) + [e.(inj := 0, root := 0, life := Fresh)]
  {
  }

  lemma AdvancePlain(s: State, t: State, w: nat, x: Worker, i: nat, life: Life)
    requires w < |s.workers| == |t.workers| && i < |s.journal| == |t.journal| && Erase(s) == Erase(t)
    ensures Erase(Advance(s, w, x, i, life)) == Erase(Advance(t, w, x, i, life))
  {
    PlainMark(s.journal, i, life);
    PlainMark(t.journal, i, life);
  }

  /** Two states that differ in history only. */
  ghost predicate Twins(s: State, t: State) {
    Erase(s) == Erase(t)
  }

  lemma TwinsLog(s: State, t: State, o: Obs, p: Obs)
    requires Twins(s, t)
    ensures Twins(Log(s, o), Log(t, p))
  {
  }

  lemma TwinEntries(s: State, t: State, i: nat)
    requires Twins(s, t) && i < |s.journal|
    ensures |t.journal| == |s.journal| && t.journal[i].body == s.journal[i].body &&
            t.journal[i].stream == s.journal[i].stream
  {
    assert Plain(s.journal)[i] == Plain(t.journal)[i];
  }

  lemma TwinsTake(s: State, t: State, w: nat)
    requires Twins(s, t) && WorkEnabled(s, w, Take) && WorkEnabled(t, w, Take)
    ensures Twins(TakeNext(s, w), TakeNext(t, w))
  {
    var i := s.chan[0];
    TwinEntries(s, t, i);
    if !s.journal[i].body.Encoded? {
      AdvancePlain(s.(chan := s.chan[1..]), t.(chan := t.chan[1..]), w, Acking(i, Malformed), i, Skipped);
    }
  }

  lemma TwinsDuplicate(s: State, t: State, w: nat, key: string, i: nat)
    requires Twins(s, t) && w < |s.workers| == |t.workers| && i < |s.journal| == |t.journal|
    ensures var m := s.metrics.(duplicate := s.metrics.duplicate + 1);
            Twins(Advance(s.(metrics := m), w, Acking(i, Duplicate(key)), i, Skipped),
                  Advance(t.(metrics := m), w, Acking(i, Duplicate(key)), i, Skipped))
  {
    var m := s.metrics.(duplicate := s.metrics.duplicate + 1);
    AdvancePlain(s.(metrics := m), t.(metrics := m), w, Acking(i, Duplicate(key)), i, Skipped);
  }

  lemma TwinsSeen(s: State, t: State, seen: set<string>, o: Obs)
    requires Twins(s, t)
    ensures Twins(Log(s.(seen := seen), o), Log(t.(seen := seen), o))
  {
  }

  lemma TwinsMove(s: State, t: State, w: nat, x: Worker)
    requires Twins(s, t) && w < |s.workers| == |t.workers|
    ensures Twins(Move(s, w, x), Move(t, w, x))
  {
  }

  lemma TwinsCheck(s: State, t: State, w: nat, reply: Reply)
    requires Twins(s, t) && WorkEnabled(s, w, Check(reply)) && WorkEnabled(t, w, Check(reply))
    ensures Twins(CheckNext(s, w, reply), CheckNext(t, w, reply))
  {
    if reply.Ok? && s.workers[w].task.key in s.seen {
      TwinsDrop(s, t, w);
    } else {
      TwinsGoOn(s, t, w, reply);
    }
  }

  lemma TwinsDrop(s: State, t: State, w: nat)
    requires Twins(s, t) && WorkEnabled(s, w, Check(Ok)) && WorkEnabled(t, w, Check(Ok))
    requires s.workers[w].task.key in s.seen
    ensures Twins(CheckNext(s, w, Ok), CheckNext(t, w, Ok))
  {
    var x := s.workers[w];
    var o := Checked(x.task.key, Ok, false);
    var seen := s.seen + {x.task.key};
    TwinEntries(s, t, x.id);
    TwinsSeen(s, t, seen, o);
    TwinsDuplicate(Log(s.(seen := seen), o), Log(t.(seen := seen), o), w, x.task.key, x.id);
  }

  lemma TwinsGoOn(s: State, t: State, w: nat, reply: Reply)
    requires Twins(s, t) && WorkEnabled(s, w, Check(reply)) && WorkEnabled(t, w, Check(reply))
    requires !reply.Ok? || s.workers[w].task.key !in s.seen
    ensures Twins(CheckNext(s, w, reply), CheckNext(t, w, reply))
  {
    var x := s.workers[w];
    var o := Checked(x.task.key, reply, x.task.key !in s.seen);
    var seen := if reply.Landed() then s.seen + {x.task.key} else s.seen;
    TwinsSeen(s, t, seen, o);
    TwinsMove(Log(s.(seen := seen), o), Log(t.(seen := seen), o), w, x.(pc := AtProcessing));
  }

  lemma TwinsFailure(s: State, t: State, w: nat)
    requires Twins(s, t) && Stands(s, w) && Stands(t, w) && s.workers[w].pc.AtFailed?
    ensures Twins(FailureNext(s, w), FailureNext(t, w))
  {
    var i := s.workers[w].id;
    PlainMark(s.journal, i, RetryDue);
    PlainMark(t.journal, i, RetryDue);
    PlainMark(s.journal, i, BuryDue);
    PlainMark(t.journal, i, BuryDue);
  }

  lemma TwinsTell(s: State, t: State, w: nat, kind: EventKind, y: Worker, life: Life)
    requires Twins(s, t) && Stands(s, w) && Stands(t, w) && y.Busy() && y.id == s.workers[w].id == t.workers[w].id
    requires s.workers[w] == t.workers[w] && |s.journal| == |t.journal|
    ensures Twins(TellNext(s, w, kind, y, life), TellNext(t, w, kind, y, life))
  {
    var o := Published(kind, s.workers[w].task.id);
    TwinsLog(s, t, o, o);
    AdvancePlain(Log(s, o), Log(t, o), w, y, y.id, life);
  }

  lemma TwinsFailed(s: State, t: State, w: nat)
    requires Twins(s, t) && Stands(s, w) && Stands(t, w) && s.workers[w] == t.workers[w] && s.workers[w].pc.AtFailed?
    ensures Twins(PublishNext(s, w), PublishNext(t, w))
  {
    var o := Published(FailedEvent, s.workers[w].task.id);
    TwinsLog(s, t, o, o);
    TwinsFailure(Log(s, o), Log(t, o), w);
  }

  lemma TwinsPublish(s: State, t: State, w: nat)
    requires Twins(s, t) && WorkEnabled(s, w, Publish) && WorkEnabled(t, w, Publish)
    ensures Twins(PublishNext(s, w), PublishNext(t, w))
  {
    var x := s.workers[w];
    TwinEntries(s, t, x.id);
    match x.pc {
      case AtProcessing => TwinsTell(s, t, w, ProcessingEvent, x.(pc := AtCall), Announced);
      case AtFailed(_) => TwinsFailed(s, t, w);
      case AtDlqEvent => TwinsTell(s, t, w, DlqEvent, x.(pc := AtBury), BuryTold);
      case AtCompleted => TwinsTell(s, t, w, CompletedEvent, Acking(x.id, Handled), Completed);
    }
  }

  lemma TwinsAnswer(s: State, t: State, w: nat, outcome: Option<string>)
    requires Twins(s, t) && WorkEnabled(s, w, Answer(outcome)) && WorkEnabled(t, w, Answer(outcome))
    ensures Twins(AnswerNext(s, w, outcome), AnswerNext(t, w, outcome))
  {
    var i := s.workers[w].id;
    PlainMark(s.journal, i, Succeeded);
    PlainMark(t.journal, i, Succeeded);
    PlainMark(s.journal, i, Failed);
    PlainMark(t.journal, i, Failed);
  }

  lemma TwinsCall(s: State, t: State, w: nat)
    requires Twins(s, t) && WorkEnabled(s, w, Call) && WorkEnabled(t, w, Call)
    ensures Twins(CallNext(s, w), CallNext(t, w))
  {
    var i := s.workers[w].id;
    PlainMark(s.journal, i, Called);
    PlainMark(t.journal, i, Called);
  }

  lemma TwinsCopy(s: State, t: State, i: nat, note: Life, stream: Stream, task: Task)
    requires Twins(s, t) && i < |s.journal| && i < |t.journal|
    ensures Twins(CopyTo(s, i, note, stream, task), CopyTo(t, i, note, stream, task))
  {
    PlainMark(s.journal, i, note);
    PlainMark(t.journal, i, note);
    PlainAppend(s.journal[i := s.journal[i].(life := note)],
      Entry(stream, Encoded(task), s.journal[i].inj, s.journal[i].root, Fresh));
    PlainAppend(t.journal[i := t.journal[i].(life := note)],
      Entry(stream, Encoded(task), t.journal[i].inj, t.journal[i].root, Fresh));
  }

  /** What a worker does after its add, to the state with the copy in it or without. */
  lemma TwinsAfterAdd(s: State, t: State, w: nat, x: Worker, stuck: bool, i: nat)
    requires Twins(s, t) && w < |s.workers| == |t.workers|
    ensures Twins(IfStuck(Move(s, w, x), stuck, i, AddFailed), IfStuck(Move(t, w, x), stuck, i, AddFailed))
  {
  }

  lemma TwinsAdd(s: State, t: State, w: nat, reply: Reply)
    requires Twins(s, t) && WorkEnabled(s, w, Add(reply)) && WorkEnabled(t, w, Add(reply))
    ensures Twins(AddNext(s, w, reply), AddNext(t, w, reply))
  {
    var x := s.workers[w];
    TwinEntries(s, t, x.id);
    if reply.Landed() {
      TwinsAddLanded(s, t, w, reply);
    } else {
      var l := MidFailure(x);
      TwinsAfterAdd(s.(leaks := s.leaks + l), t.(leaks := t.leaks + l), w, Idle, true, x.id);
    }
  }

  lemma TwinsAddLanded(s: State, t: State, w: nat, reply: Reply)
    requires Twins(s, t) && WorkEnabled(s, w, Add(reply)) && WorkEnabled(t, w, Add(reply)) && reply.Landed()
    requires |s.journal| == |t.journal|
    ensures Twins(AddNext(s, w, reply), AddNext(t, w, reply))
  {
    var x := s.workers[w];
    var n := |s.journal|;
    var note := if x.pc.AtRequeue? then Requeued(n) else Buried(n);
    var stream := if x.pc.AtRequeue? then Main else Dlq;
    TwinsCopy(s, t, x.id, note, stream, x.task);
    TwinsAfterAdd(CopyTo(s, x.id, note, stream, x.task), CopyTo(t, x.id, note, stream, x.task), w,
                  if reply.Ok? then Acking(x.id, Copied) else Idle, !reply.Ok?, x.id);
  }

  lemma TwinsAckLanded(s: State, t: State, w: nat, reply: Reply)
    requires Twins(s, t) && WorkEnabled(s, w, Ack(reply)) && WorkEnabled(t, w, Ack(reply)) && reply.Landed()
    ensures Twins(AckNext(s, w, reply), AckNext(t, w, reply))
  {
  }

  lemma TwinsAckLost(s: State, t: State, w: nat)
    requires Twins(s, t) && WorkEnabled(s, w, Ack(Err(false))) && WorkEnabled(t, w, Ack(Err(false)))
    ensures Twins(AckNext(s, w, Err(false)), AckNext(t, w, Err(false)))
  {
  }

  lemma TwinsAck(s: State, t: State, w: nat, reply: Reply)
    requires Twins(s, t) && WorkEnabled(s, w, Ack(reply)) && WorkEnabled(t, w, Ack(reply))
    ensures Twins(AckNext(s, w, reply), AckNext(t, w, reply))
  {
    if reply.Landed() {
      TwinsAckLanded(s, t, w, reply);
    } else {
      TwinsAckLost(s, t, w);
    }
  }

  lemma TwinsCrash(s: State, t: State, w: nat)
    requires Twins(s, t) && WorkEnabled(s, w, Crash) && WorkEnabled(t, w, Crash)
    ensures Twins(CrashNext(s, w), CrashNext(t, w))
  {
  }

  lemma TwinsWork(s: State, t: State, w: nat, a: WorkAction)
    requires Twins(s, t) && WorkEnabled(s, w, a) && WorkEnabled(t, w, a)
    ensures Twins(WorkNext(s, w, a), WorkNext(t, w, a))
  {
    match a {
      case Take => TwinsTake(s, t, w);
      case Check(reply) => TwinsCheck(s, t, w, reply);
      case Publish => TwinsPublish(s, t, w);
      case Call => TwinsCall(s, t, w);
      case Answer(outcome) => TwinsAnswer(s, t, w, outcome);
      case Add(reply) => TwinsAdd(s, t, w, reply);
      case Ack(reply) => TwinsAck(s, t, w, reply);
      case Crash => TwinsCrash(s, t, w);
      case Exit =>
    }
  }

  lemma TwinsForward(s: State, t: State, r: nat, reply: Reply)
    requires Twins(s, t) && RetryEnabled(s, r, Forward(reply)) && RetryEnabled(t, r, Forward(reply))
    ensures Twins(ForwardNext(s, r, reply), ForwardNext(t, r, reply))
  {
    var d := s.replays[r].rest[0];
    TwinEntries(s, t, d);
    var e := s.journal[d];
    var f := t.journal[d];
    if e.body.Encoded? {
      var t1 := e.body.task.(currentRetries := 0);
      PlainMark(s.journal, d, Replayed(|s.journal|));
      PlainMark(t.journal, d, Replayed(|t.journal|));
      PlainAppend(s.journal[d := e.(life := Replayed(|s.journal|))],
        Entry(Main, Encoded(t1), |s.injections|, e.root, Fresh));
      PlainAppend(t.journal[d := f.(life := Replayed(|t.journal|))],
        Entry(Main, Encoded(t1), |t.injections|, f.root, Fresh));
    }
  }

  lemma TwinsRetry(s: State, t: State, r: nat, a: ReplayAction)
    requires Twins(s, t) && RetryEnabled(s, r, a) && RetryEnabled(t, r, a)
    ensures Twins(RetryNext(s, r, a), RetryNext(t, r, a))
  {
    if a.Forward? {
      TwinsForward(s, t, r, a.reply);
    } else if a.Begin? {
      DlqIdsPlain(s.journal, s.deleted, |s.journal|);
      DlqIdsPlain(t.journal, t.deleted, |t.journal|);
    }
  }

  lemma TwinsReadAlike(s: State, t: State, n: nat)
    requires Twins(s, t) && s.cursor + n <= |s.journal|
    ensures t.cursor + n <= |t.journal|
    ensures MainIds(t.journal, t.cursor, t.cursor + n) == MainIds(s.journal, s.cursor, s.cursor + n)
  {
    TwinsAlike(s, t);
    MainIdsPlain(s.journal, s.cursor, s.cursor + n);
    MainIdsPlain(t.journal, t.cursor, t.cursor + n);
  }

  lemma TwinsAlike(s: State, t: State)
    requires Twins(s, t)
    ensures t.cursor == s.cursor && Plain(t.journal) == Plain(s.journal) && |t.journal| == |s.journal|
  {
    assert |Plain(s.journal)| == |s.journal|;
  }

  lemma TwinsRead(s: State, t: State, n: nat, reply: Reply)
    requires Twins(s, t) && FetchEnabled(s, FRead(n, reply)) && FetchEnabled(t, FRead(n, reply))
    ensures Twins(FetchNext(s, FRead(n, reply)), FetchNext(t, FRead(n, reply)))
  {
    TwinsReadAlike(s, t, n);
  }

  lemma TwinsFetch(s: State, t: State, a: FetchAction)
    requires Twins(s, t) && FetchEnabled(s, a) && FetchEnabled(t, a)
    ensures Twins(FetchNext(s, a), FetchNext(t, a))
  {
    if a.FRead? {
      TwinsRead(s, t, a.n, a.reply);
    }
  }

  lemma TwinsEnv(s: State, t: State, a: EnvAction)
    requires Twins(s, t) && EnvEnabled(s, a) && EnvEnabled(t, a)
    ensures Twins(EnvNext(s, a), EnvNext(t, a))
  {
    if a.Produce? {
      PlainAppend(s.journal, Entry(Main, Encoded(a.task), |s.injections|, |s.roots|, Fresh));
      PlainAppend(t.journal, Entry(Main, Encoded(a.task), |t.injections|, |t.roots|, Fresh));
    } else if a.Foreign? {
      PlainAppend(s.journal, Entry(a.stream, a.body, 0, 0, Fresh));
      PlainAppend(t.journal, Entry(a.stream, a.body, 0, 0, Fresh));
    }
  }

  lemma TwinsBoot(s: State, t: State, a: BootAction)
    requires Twins(s, t) && BootEnabled(s, a) && BootEnabled(t, a)
    ensures Twins(BootNext(s, a), BootNext(t, a))
  {
    if a.Spawn? {
      TwinsSpawn(s, t);
    }
  }

  lemma TwinsSpawn(s: State, t: State)
    requires Twins(s, t) && BootEnabled(s, Spawn) && BootEnabled(t, Spawn)
    ensures Twins(BootNext(s, Spawn), BootNext(t, Spawn))
  {
  }

  /**
   The history never influences which steps are possible or what they do to the rest of the
   state: states that differ in history only stay so under every step.
  */
  lemma HistoryIsInert(s: State, t: State, a: Action)
    requires Erase(s) == Erase(t)
    ensures Enabled(s, a) <==> Enabled(t, a)
    ensures Enabled(s, a) ==> Erase(Next(s, a)) == Erase(Next(t, a))
  {
    EnabledPlain(s, a);
    EnabledPlain(t, a);
    if Enabled(s, a) {
      match a {
        case Env(e) => TwinsEnv(s, t, e);
        case Boot(b) => TwinsBoot(s, t, b);
        case Fetch(f) => TwinsFetch(s, t, f);
        case Work(w, x) => TwinsWork(s, t, w, x);
        case Retry(r, x) => TwinsRetry(s, t, r, x);
      }
    }
  }
}
