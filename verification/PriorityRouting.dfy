/**
 What the priority consumer keeps in every run: the routing of entries, and the acknowledgement
 of what was read.
*/
module PriorityRouting {
  import opened Tasks
  import opened Routing
  import opened PriorityMachine

  /* ---------- the invariant is kept ---------- */

  lemma InvInit(base: string, batch: int, workerCount: nat)
    ensures Inv(Init(base, batch, workerCount))
  {
    NamesDiffer(base);
  }

  /** The store has grown: the old entries but `p` are as they were, `p` but for its life. */
  ghost predicate Grown(s: State, t: State, p: int) {
    && t.base == s.base && |s.journal| <= |t.journal|
    && s.roots <= t.roots && s.again <= t.again && s.wins.Keys <= t.wins.Keys
    && (forall q :: 0 <= q < |s.journal| && q != p ==> t.journal[q] == s.journal[q])
    && (0 <= p < |s.journal| ==> t.journal[p] == s.journal[p].(life := t.journal[p].life))
  }

  /** Nothing is deleted; at most `p` is now about to be. */
  ghost predicate SameDlq(s: State, t: State, p: int) {
    t.deleted == s.deleted && forall q :: q in t.deleting ==> q in s.deleting || q == p
  }

  lemma EntriesStay(s: State, t: State, p: int)
    requires Grown(s, t, p) && SameDlq(s, t, p) && s.places.Keys <= t.places.Keys
    requires forall q :: 0 <= q < |s.journal| ==> EntryFits(s, q)
    requires forall q :: q in t.places && q !in s.places && q < |s.journal| ==> s.journal[q].stream != DlqStream(s.base)
    ensures forall q :: 0 <= q < |s.journal| && q != p ==> EntryFits(t, q)
  {
    forall q | 0 <= q < |s.journal| && q != p
      ensures EntryFits(t, q)
    {
      assert EntryFits(s, q);
    }
  }

  /** An appended entry with a new ID on its stream. */
  lemma IdsAppend(s: State, t: State, p: int)
    requires StoreFits(s) && Grown(s, t, p) && t.cursors == s.cursors && SameDlq(s, t, p)
    requires p < |s.journal| && |t.journal| == |s.journal| + 1
    requires NewId(s, t.journal[|s.journal|].stream, t.journal[|s.journal|].id)
    ensures StoreFits(t)
  {
    assert forall q :: 0 <= q < |s.journal| ==>
             t.journal[q].stream == s.journal[q].stream && t.journal[q].id == s.journal[q].id;
  }

  /** The appended entry is malformed, starts a chain, or is the copy of the handled entry `p` of its chain. */
  predicate Joins(s: State, t: State, p: int)
    requires p < |s.journal| == |t.journal| - 1
  {
    var e := t.journal[|s.journal|];
    if p < 0 then
      if e.body.Encoded? then t.roots == s.roots + [|s.journal|] && e.root == |s.roots| else t.roots == s.roots
    else
      && t.roots == s.roots && s.journal[p].body.Encoded? && !s.journal[p].life.Won? && t.journal[p].life.Copied?
      && e.body.Encoded? && e.root == s.journal[p].root && (s.journal[p].life.Open? || e.root in t.again)
  }

  /** The entry appended to a chain is its newest; the one it copies is no longer. */
  lemma ChainsAppend(s: State, t: State, p: int)
    requires Chains(s) && Grown(s, t, p) && p < |s.journal| == |t.journal| - 1 && t.wins == s.wins && Joins(s, t, p)
    requires forall q :: 0 <= q < |s.journal| && s.journal[q].body.Encoded? ==> s.journal[q].root < |s.roots|
    ensures Chains(t)
  {
    forall r | 0 <= r < |t.roots|
      ensures Descendant(t.journal, t.roots[r], r)
    {
      assert r < |s.roots| ==> Descendant(s.journal, s.roots[r], r);
    }
    forall r | r in t.wins
      ensures Descendant(t.journal, t.wins[r], r) && t.journal[t.wins[r]].life.Won?
    {
      assert Descendant(s.journal, s.wins[r], r);
    }
    forall a, b | 0 <= a < b < |t.journal| && Kin(t.journal, a, b) && t.journal[a].root !in t.again
      ensures t.journal[a].life.Copied?
    {
      if b < |s.journal| {
        assert Kin(s.journal, a, b);
      } else if 0 <= p && a != p {
        assert if a < p then Kin(s.journal, a, p) else Kin(s.journal, p, a);
      }
    }
  }

  /** Marking the newest entry of a chain. */
  lemma ChainsMark(s: State, t: State, p: nat)
    requires Chains(s) && Grown(s, t, p) && |t.journal| == |s.journal| && t.roots == s.roots && t.again == s.again
    requires p < |s.journal| && s.journal[p].life.Open? && s.journal[p].body.Encoded?
    requires t.wins == if t.journal[p].life.Won? then s.wins[s.journal[p].root := p] else s.wins
    ensures Chains(t)
  {
    forall r | 0 <= r < |t.roots|
      ensures Descendant(t.journal, t.roots[r], r)
    {
      assert Descendant(s.journal, s.roots[r], r);
    }
    forall r | r in t.wins
      ensures Descendant(t.journal, t.wins[r], r) && t.journal[t.wins[r]].life.Won?
    {
      assert r in s.wins ==> Descendant(s.journal, s.wins[r], r);
    }
    forall a, b | 0 <= a < b < |t.journal| && Kin(t.journal, a, b) && t.journal[a].root !in t.again
      ensures t.journal[a].life.Copied?
    {
      assert Kin(s.journal, a, b);
    }
  }

  /** Steps of the environment leave custody alone. */
  lemma CustodyStays(s: State, t: State, p: int)
    requires Custody(s) && Grown(s, t, p) && t.cursors == s.cursors && (p >= 0 ==> p !in s.places)
    requires t.pending == s.pending && t.places == s.places && t.strays == s.strays && t.acked == s.acked
    requires t.fetcher == s.fetcher && t.chan == s.chan && t.workers == s.workers
    ensures Custody(t)
  {
    assert Queue(t) == Queue(s);
    forall q | q in t.places
      ensures PlaceFits(t, q)
    {
      assert PlaceFits(s, q);
    }
    forall w | 0 <= w < |t.workers|
      ensures WorkerFits(t, w)
    {
      assert WorkerFits(s, w);
    }
  }

  lemma RootsKnown(s: State)
    requires Inv(s)
    ensures forall q :: 0 <= q < |s.journal| && s.journal[q].body.Encoded? ==> s.journal[q].root < |s.roots|
    ensures forall q :: q in s.places ==> q < |s.journal|
  {
    forall q | 0 <= q < |s.journal| && s.journal[q].body.Encoded?
      ensures s.journal[q].root < |s.roots|
    {
      assert EntryFits(s, q);
    }
    assert forall q :: q in s.places ==> PlaceFits(s, q);
  }

  /** The store is as it was, but for what has been delivered. */
  lemma SameStore(s: State, t: State)
    requires Inv(s) && t.base == s.base && t.journal == s.journal && SameDlq(s, t, -1)
    requires t.roots == s.roots && t.again == s.again && t.wins == s.wins
    requires t.cursors.Keys == s.cursors.Keys && forall stream :: stream in t.cursors ==>
             t.cursors[stream] <= |t.journal|
    requires s.places.Keys <= t.places.Keys
    requires forall q :: q in t.places && q !in s.places && q < |s.journal| ==> s.journal[q].stream != DlqStream(s.base)
    ensures StoreFits(t) && Chains(t) && forall q :: 0 <= q < |t.journal| ==> EntryFits(t, q)
  {
    EntriesStay(s, t, -1);
  }

  /** A copy or a produced task is appended to the store. */
  lemma Appended(s: State, t: State, p: int)
    requires Inv(s) && Grown(s, t, p) && |t.journal| == |s.journal| + 1 && t.wins == s.wins && SameDlq(s, t, p)
    requires p < |s.journal| && t.cursors == s.cursors && t.places == s.places && EntryFits(t, |s.journal|)
    requires NewId(s, t.journal[|s.journal|].stream, t.journal[|s.journal|].id)
    requires Joins(s, t, p) && (p >= 0 ==> EntryFits(t, p))
    ensures StoreFits(t) && Chains(t) && forall q :: 0 <= q < |t.journal| ==> EntryFits(t, q)
  {
    RootsKnown(s);
    EntriesStay(s, t, p);
    IdsAppend(s, t, p);
    ChainsAppend(s, t, p);
  }

  lemma ReinsertKeeps(s: State, p: nat, id: nat, reply: Reply)
    requires Inv(s) && OutsideEnabled(s, Reinsert(p, id, reply)) && reply.Landed()
    ensures Inv(OutsideNext(s, Reinsert(p, id, reply)))
  {
    var t := OutsideNext(s, Reinsert(p, id, reply));
    NamesDiffer(s.base);
    assert EntryFits(s, p);
    RootsKnown(s);
    CustodyStays(s, t, p);
    Appended(s, t, p);
  }

  lemma RemoveKeeps(s: State, p: nat, reply: Reply)
    requires Inv(s) && OutsideEnabled(s, Remove(p, reply))
    ensures Inv(OutsideNext(s, Remove(p, reply)))
  {
    var t := OutsideNext(s, Remove(p, reply));
    CustodyStays(s, t, -1);
    forall q | 0 <= q < |s.journal|
      ensures EntryFits(t, q)
    {
      assert EntryFits(s, q);
    }
  }

  lemma OutsideKeeps(s: State, a: StoreAction)
    requires Inv(s) && OutsideEnabled(s, a)
    ensures Inv(OutsideNext(s, a))
  {
    var t := OutsideNext(s, a);
    if a.Remove? {
      RemoveKeeps(s, a.p, a.reply);
    } else if a.Reinsert? && a.reply.Landed() {
      ReinsertKeeps(s, a.p, a.id, a.reply);
    } else {
      RootsKnown(s);
      CustodyStays(s, t, -1);
      if |t.journal| == |s.journal| {
        SameStore(s, t);
      } else {
        NamesDiffer(s.base);
        Appended(s, t, -1);
      }
    }
  }

  lemma UnreadOpen(s: State, k: nat)
    requires Inv(s) && k < 3
    ensures Turn(s, k) in s.cursors && Turn(s, k) != DlqStream(s.base)
    ensures forall p :: 0 <= p < |s.journal| && s.journal[p].stream == Turn(s, k) && p !in s.places ==>
            s.journal[p].life.Open?
  {
    NamesDiffer(s.base);
    forall p | 0 <= p < |s.journal| && s.journal[p].stream == Turn(s, k) && p !in s.places
      ensures s.journal[p].life.Open?
    {
      assert EntryFits(s, p);
    }
  }

  /** What a read changes. */
  ghost predicate IsRead(s: State, t: State, stream: string, n: nat, ok: bool) {
    && stream in s.cursors && s.cursors[stream] + n <= |s.journal| && s.fetcher.Reading?
    && var ps := On(s.journal, stream, s.cursors[stream], s.cursors[stream] + n);
    && t.journal == s.journal && t.base == s.base && t.workers == s.workers && t.chan == s.chan &&
       t.strays == s.strays && t.acked == s.acked
    && t.deleted == s.deleted && t.deleting == s.deleting && t.roots == s.roots && t.again == s.again &&
       t.wins == s.wins
    && t.cursors == s.cursors[stream := s.cursors[stream] + n]
    && t.pending == s.pending + (set p | p in ps)
    && t.places == PlaceAll(s.places, ps, if ok then Queued else Left)
    && Batch(t.fetcher) == if ok then ps else []
  }

  lemma ReadIsRead(s: State, n: nat, reply: Reply)
    requires FetchEnabled(s, Read(n, reply))
    ensures IsRead(s, FetchNext(s, Read(n, reply)), Turn(s, s.fetcher.k), n, reply.Ok?)
  {
  }

  lemma ReadKeeps(s: State, t: State, stream: string, n: nat, ok: bool)
    requires Inv(s) && IsRead(s, t, stream, n, ok) && stream != DlqStream(s.base)
    requires forall p :: 0 <= p < |s.journal| && s.journal[p].stream == stream && p !in s.places ==>
             s.journal[p].life.Open?
    ensures Inv(t)
  {
    CustodyRead(s, t, stream, n, ok);
    SameStore(s, t);
  }

  lemma FetchKeeps(s: State, a: FetchAction)
    requires Inv(s) && FetchEnabled(s, a)
    ensures Inv(FetchNext(s, a))
  {
    match a {
      case Read(n, reply) =>
        UnreadOpen(s, s.fetcher.k);
        ReadIsRead(s, n, reply);
        ReadKeeps(s, FetchNext(s, a), Turn(s, s.fetcher.k), n, reply.Ok?);
      case Abandon => AbandonKeeps(s);
      case _ =>
        var t := FetchNext(s, a);
        assert Queue(t) == Queue(s);
        SameStore(s, t);
        forall q | q in t.places
          ensures PlaceFits(t, q)
        {
          assert PlaceFits(s, q);
        }
        forall w | 0 <= w < |t.workers|
          ensures WorkerFits(t, w)
        {
          assert WorkerFits(s, w);
        }
    }
  }

  lemma CustodyRead(s: State, t: State, stream: string, n: nat, ok: bool)
    requires Custody(s) && IsRead(s, t, stream, n, ok)
    requires forall p :: 0 <= p < |s.journal| && s.journal[p].stream == stream && p !in s.places ==>
             s.journal[p].life.Open?
    ensures Custody(t)
  {
    var ps := On(s.journal, stream, s.cursors[stream], s.cursors[stream] + n);
    forall q | q in s.places
      ensures q !in ps
    {
      assert PlaceFits(s, q);
    }
    forall q | q in t.places
      ensures PlaceFits(t, q)
    {
      assert q !in ps ==> PlaceFits(s, q);
    }
    assert Queue(s) == s.chan;
    assert Queue(t) == if ok then s.chan + ps else s.chan;
    forall w | 0 <= w < |t.workers|
      ensures WorkerFits(t, w)
    {
      assert WorkerFits(s, w);
    }
  }

  lemma AbandonKeeps(s: State)
    requires Inv(s) && FetchEnabled(s, Abandon)
    ensures Inv(FetchNext(s, Abandon))
  {
    var t := FetchNext(s, Abandon);
    var batch := s.fetcher.batch;
    assert forall i :: 0 <= i < |batch| ==> Queue(s)[|s.chan| + i] == batch[i];
    assert forall i :: 0 <= i < |s.chan| ==> Queue(s)[i] == s.chan[i];
    assert Queue(t) == s.chan;
    SameStore(s, t);
    forall p | p in t.places
      ensures PlaceFits(t, p)
    {
      assert PlaceFits(s, p);
    }
    forall w | 0 <= w < |t.workers|
      ensures WorkerFits(t, w)
    {
      assert WorkerFits(s, w);
    }
  }

  lemma TakeKeeps(s: State, w: nat)
    requires Inv(s) && WorkEnabled(s, w, Take)
    ensures Inv(TakeNext(s, w))
  {
    var t := TakeNext(s, w);
    var p := s.chan[0];
    assert Queue(s)[0] == p && Queue(t) == Queue(s)[1..];
    SameStore(s, t);
    assert PlaceFits(s, p);
    forall q | q in t.places
      ensures PlaceFits(t, q)
    {
      assert PlaceFits(s, q);
    }
    forall v | 0 <= v < |t.workers|
      ensures WorkerFits(t, v)
    {
      assert WorkerFits(s, v);
    }
  }

  /** A step of worker `w` that keeps its message in its hands. */
  lemma CustodyHandles(s: State, t: State, w: nat)
    requires Custody(s) && Holds(s, w) && Grown(s, t, s.workers[w].p) && t.cursors == s.cursors
    requires t.pending == s.pending && t.places == s.places && t.strays == s.strays && t.acked == s.acked &&
             Queue(t) == Queue(s)
    requires w < |t.workers| && t.workers == s.workers[w := t.workers[w]]
    requires t.workers[w].Busy() && t.workers[w].p == s.workers[w].p
    requires Agrees(t, t.workers[w], t.journal[t.workers[w].p])
    ensures Custody(t)
  {
    assert WorkerFits(s, w);
    forall q | q in t.places
      ensures PlaceFits(t, q)
    {
      assert PlaceFits(s, q);
    }
    forall v | 0 <= v < |t.workers|
      ensures WorkerFits(t, v)
    {
      assert WorkerFits(s, v);
    }
  }

  /** A handled entry is marked with how it ended, without a copy. */
  lemma Marked(s: State, t: State, p: nat)
    requires Inv(s) && Grown(s, t, p) && |t.journal| == |s.journal| && t.roots == s.roots && t.again == s.again
    requires SameDlq(s, t, p) && t.places == s.places && t.cursors == s.cursors
    requires p < |s.journal| && s.journal[p].life.Open? && s.journal[p].body.Encoded? && EntryFits(t, p)
    requires t.wins == if t.journal[p].life.Won? then s.wins[s.journal[p].root := p] else s.wins
    ensures StoreFits(t) && Chains(t) && forall q :: 0 <= q < |t.journal| ==> EntryFits(t, q)
  {
    EntriesStay(s, t, p);
    ChainsMark(s, t, p);
  }

  lemma SuccessKeeps(s: State, w: nat)
    requires Inv(s) && WorkEnabled(s, w, Answer(true))
    ensures Inv(AnswerNext(s, w, true))
  {
    var t := AnswerNext(s, w, true);
    var p := s.workers[w].p;
    assert WorkerFits(s, w) && EntryFits(s, p);
    CustodyHandles(s, t, w);
    Marked(s, t, p);
  }

  /** Nothing changes but what worker `w` is about to do with its message. */
  lemma OnlyMoves(s: State, t: State, w: nat)
    requires Inv(s) && Holds(s, w) && w < |t.workers|
    requires t == s.(workers := s.workers[w := t.workers[w]], told := t.told)
    requires t.workers[w].Busy() && t.workers[w].p == s.workers[w].p &&
             Agrees(s, t.workers[w], s.journal[s.workers[w].p])
    ensures Inv(t)
  {
    CustodyHandles(s, t, w);
    SameStore(s, t);
  }

  lemma WorkerMoves(s: State, w: nat, a: WorkAction)
    requires Inv(s) && WorkEnabled(s, w, a) && (a.Tell? || a == Answer(false))
    ensures Inv(WorkNext(s, w, a))
  {
    assert WorkerFits(s, w);
    OnlyMoves(s, WorkNext(s, w, a), w);
  }

  lemma StoreLanded(s: State, w: nat, id: nat, reply: Reply)
    requires Inv(s) && WorkEnabled(s, w, Store(id, reply)) && reply.Landed()
    ensures Inv(StoreNext(s, w, id, reply))
  {
    var t := StoreNext(s, w, id, reply);
    var p := s.workers[w].p;
    NamesDiffer(s.base);
    assert WorkerFits(s, w) && EntryFits(s, p);
    CustodyHandles(s, t, w);
    Appended(s, t, p);
  }

  lemma StoreLost(s: State, w: nat, id: nat)
    requires Inv(s) && WorkEnabled(s, w, Store(id, Err(false)))
    ensures Inv(StoreNext(s, w, id, Err(false)))
  {
    var t := StoreNext(s, w, id, Err(false));
    var p := s.workers[w].p;
    assert WorkerFits(s, w) && EntryFits(s, p);
    CustodyHandles(s, t, w);
    Marked(s, t, p);
  }

  /** Worker `w` lets go of its message; what is no longer pending was acknowledged, by it or astray. */
  lemma LetsGo(s: State, t: State, w: nat, hits: set<nat>)
    requires Inv(s) && Holds(s, w) && w < |t.workers| && !t.workers[w].Busy() && hits <= s.pending
    requires var p := s.workers[w].p;
             && (p in hits && s.journal[p].body.Encoded? ==> !s.journal[p].life.Open?)
             && t == s.(workers := s.workers[w := t.workers[w]],
                        places := s.places[p := Left], pending := s.pending - hits,
                        acked := s.acked + (hits * {p}), strays := s.strays + (hits - {p}))
    ensures Inv(t)
  {
    assert WorkerFits(s, w) && PlaceFits(s, s.workers[w].p);
    SameStore(s, t);
    assert Queue(t) == Queue(s);
    forall q | q in t.places
      ensures PlaceFits(t, q)
    {
      assert PlaceFits(s, q);
    }
    forall v | 0 <= v < |t.workers|
      ensures WorkerFits(t, v)
    {
      assert WorkerFits(s, v);
    }
  }

  /** By an acknowledgement, a failed one, or a panic. */
  lemma LeaveKeeps(s: State, w: nat, a: WorkAction)
    requires Inv(s) && WorkEnabled(s, w, a) && (a.Ack? || a.Crash?)
    ensures Inv(WorkNext(s, w, a))
  {
    assert WorkerFits(s, w);
    var x := s.workers[w];
    var none: set<nat> := {};
    assert s.pending - none == s.pending && s.acked + (none * {x.p}) == s.acked &&
           s.strays + (none - {x.p}) == s.strays;
    var hits := if a.Ack? && a.reply.Landed() then Hits(s, x.target, s.journal[x.p].id) else {};
    LetsGo(s, WorkNext(s, w, a), w, hits);
  }

  lemma ExitKeeps(s: State, w: nat)
    requires Inv(s) && WorkEnabled(s, w, Exit)
    ensures Inv(WorkNext(s, w, Exit))
  {
    var t := WorkNext(s, w, Exit);
    SameStore(s, t);
    assert Queue(t) == Queue(s);
    assert forall q :: q in s.places ==> PlaceFits(s, q) && PlaceFits(t, q);
    forall v | 0 <= v < |t.workers|
      ensures WorkerFits(t, v)
    {
      assert WorkerFits(s, v);
    }
  }

  lemma WorkKeeps(s: State, w: nat, a: WorkAction)
    requires Inv(s) && WorkEnabled(s, w, a)
    ensures Inv(WorkNext(s, w, a))
  {
    match a {
      case Take => TakeKeeps(s, w);
      case Exit => ExitKeeps(s, w);
      case Answer(ok) =>
        if ok {
          SuccessKeeps(s, w);
        } else {
          WorkerMoves(s, w, a);
        }
      case Store(id, reply) =>
        if reply.Landed() {
          StoreLanded(s, w, id, reply);
        } else {
          StoreLost(s, w, id);
        }
      case Tell => WorkerMoves(s, w, a);
      case _ => LeaveKeeps(s, w, a);
    }
  }

  lemma InvStep(s: State, a: Action)
    requires Inv(s) && Enabled(s, a)
    ensures Inv(Next(s, a))
  {
    match a {
      case Outside(x) => OutsideKeeps(s, x);
      case Fetch(x) => FetchKeeps(s, x);
      case Work(w, x) => WorkKeeps(s, w, x);
    }
  }

  lemma {:induction false} InvRun(s: State, run: seq<Action>)
    requires Inv(s) && Valid(s, run)
    ensures Inv(Exec(s, run))
    decreases |run|
  {
    if run != [] {
      InvStep(s, run[0]);
      InvRun(Next(s, run[0]), run[1..]);
    }
  }

  /** Some run of some priority consumer leads to `s`. */
  ghost predicate Reachable(s: State) {
    exists base, batch, workerCount, run ::
      Valid(Init(base, batch, workerCount), run) && s == Exec(Init(base, batch, workerCount), run)
  }

  lemma ReachableInv(s: State)
    requires Reachable(s)
    ensures Inv(s)
  {
    var base, batch, workerCount, run :|
      Valid(Init(base, batch, workerCount), run) && s == Exec(Init(base, batch, workerCount), run);
    InvInit(base, batch, workerCount);
    InvRun(Init(base, batch, workerCount), run);
  }

  /* ---------- routing ---------- */

  predicate UrgentOrLow(t: Task) {
    t.priority == HIGH || t.priority == LOW
  }

  /** Every task on one of the three streams is on the stream of its priority, replayed tasks apart. */
  lemma RoutingAgrees(s: State, p: nat)
    requires Reachable(s)
    requires p < |s.journal| && s.journal[p].body.Encoded? && s.journal[p].stream in Streams(s.base)
    ensures var e := s.journal[p];
            e.stream == StreamFor(s.base, e.body.task.priority) <==> !(e.origin.Reinserted? && UrgentOrLow(e.body.task))
  {
    ReachableInv(s);
    NamesDiffer(s.base);
    assert EntryFits(s, p);
    assert s.journal[p].stream != DlqStream(s.base);
  }

  /**
   A worker about to acknowledge names the stream its message was read from, unless the message
   is a replayed task of another priority, or malformed on another stream than the base stream.
   When it does, the message is pending there and is the only one hit; otherwise it is not hit.
  */
  lemma AckFindsItsMessage(s: State, w: nat)
    requires Reachable(s)
    requires w < |s.workers| && s.workers[w].Acking?
    ensures s.workers[w].p < |s.journal|
    ensures var p := s.workers[w].p; var e := s.journal[p]; var target := s.workers[w].target;
            && (e.body.Encoded? ==> (target == e.stream <==> !(e.origin.Reinserted? && UrgentOrLow(e.body.task))))
            && (!e.body.Encoded? ==> (target == e.stream <==> e.stream == s.base))
            && (target == e.stream && p !in s.strays ==> Hits(s, target, e.id) == {p})
            && (target != e.stream ==> p !in Hits(s, target, e.id))
  {
    ReachableInv(s);
    var p := s.workers[w].p;
    assert WorkerFits(s, w) && PlaceFits(s, p) && EntryFits(s, p);
    NamesDiffer(s.base);
    if s.journal[p].body.Encoded? {
      RoutedToRead(s.base, s.journal[p].body.task.priority);
      RoutingAgrees(s, p);
    }
  }
}
