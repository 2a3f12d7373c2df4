/**
 The exact price of the priority consumer's habits. A policy says what those around the consumer
 may do: which priorities may be replayed, on which streams foreign entries may land, and whether
 the add of a failed task's copy may fail. For every policy and every task: kept in all runs, or a run
 from the start that loses it.
*/
module PriorityPolicy {
  import opened Tasks
  import opened Routing
  import opened PriorityMachine
  import opened PriorityRouting
  import opened PriorityLoss

  datatype Policy = Policy(replays: string -> bool, foreign: string -> bool, lostAdds: bool)

  predicate Allowed(y: Policy, s: State, a: Action)
    requires Enabled(s, a)
  {
    match a
    case Outside(x) => (
      match x
      case Reinsert(p, _, _) => y.replays(s.journal[p].body.task.priority)
      case Foreign(stream, _, _) => y.foreign(stream)
      case _ => true)
    case Work(_, x) => x.Store? ==> y.lostAdds || x.reply.Landed()
    case _ => true
  }

  predicate Within(y: Policy, s: State, run: seq<Action>)
    requires Valid(s, run)
    decreases |run|
  {
    run == [] || (Allowed(y, s, run[0]) && Within(y, Next(s, run[0]), run[1..]))
  }

  /** Some run from `o` that keeps to the policy leads to `s`. */
  ghost predicate Reached(y: Policy, o: State, s: State) {
    exists run :: Valid(o, run) && Within(y, o, run) && s == Exec(o, run)
  }

  lemma {:induction false} WithinThen(y: Policy, s: State, run: seq<Action>, a: Action)
    requires Valid(s, run) && Within(y, s, run) && Enabled(Exec(s, run), a) && Allowed(y, Exec(s, run), a)
    ensures Valid(s, run + [a]) && Within(y, s, run + [a]) && Exec(s, run + [a]) == Next(Exec(s, run), a)
    decreases |run|
  {
    if run == [] {
      assert ([] + [a])[1..] == [];
    } else {
      assert (run + [a])[1..] == run[1..] + [a];
      WithinThen(y, Next(s, run[0]), run[1..], a);
    }
  }

  lemma Step(y: Policy, o: State, s: State, a: Action) returns (t: State)
    requires Reached(y, o, s) && Enabled(s, a) && Allowed(y, s, a)
    ensures t == Next(s, a) && Reached(y, o, t)
  {
    t := Next(s, a);
    var run :| Valid(o, run) && Within(y, o, run) && s == Exec(o, run);
    WithinThen(y, o, run, a);
  }

  lemma {:induction false} Steps(y: Policy, o: State, s: State, run: seq<Action>) returns (t: State)
    requires Reached(y, o, s) && Valid(s, run) && Within(y, s, run)
    ensures t == Exec(s, run) && Reached(y, o, t)
    decreases |run|
  {
    if run == [] {
      t := s;
    } else {
      t := Step(y, o, s, run[0]);
      t := Steps(y, o, t, run[1..]);
    }
  }

  lemma ReachedInv(y: Policy, base: string, batch: int, workerCount: nat, s: State)
    requires Reached(y, Init(base, batch, workerCount), s)
    ensures Reachable(s) && Inv(s)
  {
    var run :| Valid(Init(base, batch, workerCount), run) && Within(y, Init(base, batch, workerCount), run)
               && s == Exec(Init(base, batch, workerCount), run);
    ReachableInv(s);
  }

  /* ---------- what a policy rules out ---------- */

  /** The task first produced as `r`. */
  function Root(s: State, r: nat): Task
    requires r < |s.roots| && s.roots[r] < |s.journal| && s.journal[s.roots[r]].body.Encoded?
  {
    s.journal[s.roots[r]].body.task
  }

  /** A worker that held `e` would send an acknowledgement to the stream of `p`, from another stream. */
  ghost predicate Misdirects(s: State, e: nat, p: nat) {
    && e < |s.journal| && p < |s.journal| && s.journal[e].stream in s.cursors
    && Target(s, s.journal[e].body) == s.journal[p].stream != s.journal[e].stream
  }

  ghost predicate Traced(y: Policy, s: State, p: nat)
    requires p < |s.journal|
  {
    var e := s.journal[p];
    && (e.body.Encoded? ==>
          && e.root < |s.roots| && s.roots[e.root] < |s.journal| && s.journal[s.roots[e.root]].body.Encoded?
          && SameCore(e.body.task, Root(s, e.root)))
    && (e.origin.Reinserted? && e.body.Encoded? ==> y.replays(e.body.task.priority))
    && (!e.body.Encoded? ==> y.foreign(e.stream))
    && (e.life.Dropped? ==> y.lostAdds)
  }

  ghost predicate AllTraced(y: Policy, s: State) {
    forall p :: 0 <= p < |s.journal| ==> Traced(y, s, p)
  }

  ghost predicate Misdirected(s: State, p: nat) {
    exists e: nat :: Misdirects(s, e, p)
  }

  ghost predicate Obedient(y: Policy, s: State) {
    AllTraced(y, s) && forall p :: p in s.strays ==> Misdirected(s, p)
  }

  lemma TracedGrows(y: Policy, s: State, t: State)
    requires AllTraced(y, s) && Extends(s.journal, t.journal) && s.roots <= t.roots
    requires forall p :: 0 <= p < |s.journal| && t.journal[p].life.Dropped? ==> s.journal[p].life.Dropped? || y.lostAdds
    requires forall p :: |s.journal| <= p < |t.journal| ==> Traced(y, t, p)
    ensures AllTraced(y, t)
  {
    forall p | 0 <= p < |t.journal|
      ensures Traced(y, t, p)
    {
      assert p < |s.journal| ==> Traced(y, s, p);
    }
  }

  lemma MisdirectedStays(s: State, t: State, p: nat)
    requires Misdirected(s, p)
    requires t.base == s.base && t.cursors.Keys == s.cursors.Keys && Extends(s.journal, t.journal)
    ensures Misdirected(t, p)
  {
    var e: nat :| Misdirects(s, e, p);
    assert Misdirects(t, e, p);
  }

  lemma ObedientGrows(y: Policy, s: State, t: State)
    requires Obedient(y, s) && t.base == s.base && t.cursors.Keys == s.cursors.Keys && Extends(s.journal, t.journal)
    requires s.roots <= t.roots && t.strays == s.strays
    requires forall p :: 0 <= p < |s.journal| && t.journal[p].life.Dropped? ==> s.journal[p].life.Dropped? || y.lostAdds
    requires forall p :: |s.journal| <= p < |t.journal| ==> Traced(y, t, p)
    ensures Obedient(y, t)
  {
    TracedGrows(y, s, t);
    forall p | p in t.strays
      ensures Misdirected(t, p)
    {
      MisdirectedStays(s, t, p);
    }
  }

  lemma ObedientOutside(y: Policy, s: State, a: StoreAction)
    requires Inv(s) && Obedient(y, s) && OutsideEnabled(s, a) && Allowed(y, s, Outside(a))
    ensures Obedient(y, OutsideNext(s, a))
  {
    if a.Reinsert? {
      assert Traced(y, s, a.p) && EntryFits(s, a.p);
    }
    ObedientGrows(y, s, OutsideNext(s, a));
  }

  lemma ObedientFetch(y: Policy, s: State, a: FetchAction)
    requires Inv(s) && Obedient(y, s) && FetchEnabled(s, a)
    ensures Obedient(y, FetchNext(s, a))
  {
    var t := FetchNext(s, a);
    assert t.cursors.Keys == s.cursors.Keys;
    ObedientGrows(y, s, t);
  }

  /** Whatever an acknowledgement hits astray, the acknowledged entry misdirected it. */
  lemma AckMisdirects(s: State, w: nat, reply: Reply, p: nat)
    requires WorkEnabled(s, w, Ack(reply)) && s.journal[s.workers[w].p].stream in s.cursors
    requires s.workers[w].target == Target(s, s.journal[s.workers[w].p].body)
    requires StoreFits(s) && p in AckNext(s, w, reply).strays && p !in s.strays
    ensures Misdirected(AckNext(s, w, reply), p)
  {
    var x := s.workers[w];
    assert p in Hits(s, x.target, s.journal[x.p].id) && p != x.p;
    assert Misdirects(AckNext(s, w, reply), x.p, p);
  }

  lemma ObedientAck(y: Policy, s: State, w: nat, reply: Reply)
    requires Inv(s) && Obedient(y, s) && WorkEnabled(s, w, Ack(reply))
    ensures Obedient(y, AckNext(s, w, reply))
  {
    var t := AckNext(s, w, reply);
    assert WorkerFits(s, w) && PlaceFits(s, s.workers[w].p);
    TracedGrows(y, s, t);
    forall p | p in t.strays
      ensures Misdirected(t, p)
    {
      if p in s.strays {
        MisdirectedStays(s, t, p);
      } else {
        AckMisdirects(s, w, reply, p);
      }
    }
  }

  lemma ObedientStore(y: Policy, s: State, w: nat, id: nat, reply: Reply)
    requires Inv(s) && Obedient(y, s) && WorkEnabled(s, w, Store(id, reply)) && (y.lostAdds || reply.Landed())
    ensures Obedient(y, StoreNext(s, w, id, reply))
  {
    assert WorkerFits(s, w) && Traced(y, s, s.workers[w].p);
    if reply.Landed() {
      StoredTraced(y, s, w, id, reply);
    }
    StoredGrows(y, s, w, id, reply);
  }

  lemma StoredGrows(y: Policy, s: State, w: nat, id: nat, reply: Reply)
    requires Obedient(y, s) && WorkEnabled(s, w, Store(id, reply)) && (y.lostAdds || reply.Landed())
    requires reply.Landed() ==> Traced(y, StoreNext(s, w, id, reply), |s.journal|)
    ensures Obedient(y, StoreNext(s, w, id, reply))
  {
    ObedientGrows(y, s, StoreNext(s, w, id, reply));
  }

  /** The copy of a failed task is traced as the original is. */
  lemma StoredTraced(y: Policy, s: State, w: nat, id: nat, reply: Reply)
    requires WorkEnabled(s, w, Store(id, reply)) && reply.Landed() && Traced(y, s, s.workers[w].p)
    requires Agrees(s, s.workers[w], s.journal[s.workers[w].p])
    ensures Traced(y, StoreNext(s, w, id, reply), |s.journal|)
  {
  }

  lemma ObedientWork(y: Policy, s: State, w: nat, a: WorkAction)
    requires Inv(s) && Obedient(y, s) && WorkEnabled(s, w, a) && Allowed(y, s, Work(w, a))
    ensures Obedient(y, WorkNext(s, w, a))
  {
    match a {
      case Ack(reply) => ObedientAck(y, s, w, reply);
      case Store(id, reply) => ObedientStore(y, s, w, id, reply);
      case _ => ObedientGrows(y, s, WorkNext(s, w, a));
    }
  }

  lemma {:induction false} ObedientRun(y: Policy, s: State, run: seq<Action>)
    requires Inv(s) && Obedient(y, s) && Valid(s, run) && Within(y, s, run)
    ensures Obedient(y, Exec(s, run))
    decreases |run|
  {
    if run != [] {
      match run[0] {
        case Outside(x) => ObedientOutside(y, s, x);
        case Fetch(x) => ObedientFetch(y, s, x);
        case Work(w, x) => ObedientWork(y, s, w, x);
      }
      InvStep(s, run[0]);
      ObedientRun(y, Next(s, run[0]), run[1..]);
    }
  }

  /** What a misdirected acknowledgement says about the policy. */
  lemma StrayTells(y: Policy, s: State, e: nat, p: nat)
    requires Inv(s) && Obedient(y, s) && p in s.strays && Misdirects(s, e, p)
    ensures s.journal[p].stream == s.base ==> y.foreign(HighStream(s.base)) || y.foreign(LowStream(s.base))
    ensures s.journal[p].stream == HighStream(s.base) ==> y.replays(HIGH)
    ensures s.journal[p].stream == LowStream(s.base) ==> y.replays(LOW)
    ensures s.journal[p].stream in Streams(s.base)
  {
    NamesDiffer(s.base);
    assert PlaceFits(s, p) && EntryFits(s, e) && Traced(y, s, e);
    assert Streams(s.base)[0] == HighStream(s.base) && Streams(s.base)[1] == s.base &&
           Streams(s.base)[2] == LowStream(s.base);
  }

  /** Something the policy allows can cost the task: by its priority, or by any lost add. */
  predicate Threatened(y: Policy, base: string, t: Task) {
    || y.lostAdds
    || (if UrgentOrLow(t) then y.replays(t.priority) else y.foreign(HighStream(base)) || y.foreign(LowStream(base)))
  }

  lemma UnthreatenedKept(y: Policy, s: State, r: nat)
    requires Reachable(s) && Inv(s) && Obedient(y, s) && r < |s.roots|
    requires s.roots[r] < |s.journal| && s.journal[s.roots[r]].body.Encoded? && !Threatened(y, s.base, Root(s, r))
    ensures Safe(s, r)
  {
    LossHasACause(s, r);
    if !Safe(s, r) {
      var p: nat :| LostAdd(s, p, r) || HitAstray(s, p, r);
      assert Traced(y, s, p) && EntryFits(s, p);
      assert Misdirected(s, p);
      var e: nat :| Misdirects(s, e, p);
      StrayTells(y, s, e, p);
      NamesDiffer(s.base);
      assert false;
    }
  }
}
