/**
 What the priority consumer loses. It acknowledges a failed task even if the copy was not stored,
 and it may acknowledge on a stream its message was not read from; what follows from that, exactly,
 for what the callers around it may do.
*/
module PriorityLoss {
  import opened Tasks
  import opened Routing
  import opened PriorityMachine
  import opened PriorityRouting

  /* ---------- what can be lost ---------- */

  /** Entry `p` is still there: not delivered, pending, or on the dead-letter stream. */
  predicate Kept(s: State, p: nat) {
    p < |s.journal| && s.journal[p].body.Encoded?
    && (if s.journal[p].stream == DlqStream(s.base) then p !in s.deleted else p !in s.places || p in s.pending)
  }

  /** The processor returned nil for a copy of produce `r`, or a copy is still there. */
  ghost predicate Safe(s: State, r: nat) {
    r in s.wins || exists p: nat :: Kept(s, p) && Descendant(s.journal, p, r)
  }

  /** The add of a failed task's copy did not land. */
  ghost predicate LostAdd(s: State, p: nat, r: nat) {
    Descendant(s.journal, p, r) && s.journal[p].life.Dropped?
  }

  /** An acknowledgement meant for another message removed this one from the pending ones. */
  ghost predicate HitAstray(s: State, p: nat, r: nat) {
    Descendant(s.journal, p, r) && p in s.strays
  }

  lemma {:induction false} Follow(s: State, p: nat, r: nat)
    requires Inv(s) && Descendant(s.journal, p, r)
    ensures Safe(s, r) || exists q: nat :: LostAdd(s, q, r) || HitAstray(s, q, r)
    decreases |s.journal| - p
  {
    assert EntryFits(s, p);
    if !Kept(s, p) {
      if s.journal[p].stream != DlqStream(s.base) {
        assert PlaceFits(s, p);
      }
      match s.journal[p].life {
        case Copied(q) => Follow(s, q, r);
        case Dropped => assert LostAdd(s, p, r);
        case Open => assert HitAstray(s, p, r);
        case Won =>
      }
    }
  }

  /**
   In every run every stored task is undelivered, pending or on the dead-letter stream, or its
   processor returned nil, or one of two things happened to it: the add of its copy did not land,
   or an acknowledgement meant for another message hit it.
  */
  lemma LossHasACause(s: State, r: nat)
    requires Reachable(s) && r < |s.roots|
    ensures Safe(s, r) || exists p: nat :: LostAdd(s, p, r) || HitAstray(s, p, r)
  {
    ReachableInv(s);
    assert Descendant(s.journal, s.roots[r], r);
    Follow(s, s.roots[r], r);
  }

  /** Entry `q` is the newest copy of produce `r`. */
  ghost predicate Newest(s: State, q: nat, r: nat) {
    Descendant(s.journal, q, r) && forall p: nat :: Descendant(s.journal, p, r) ==> p <= q
  }

  lemma {:induction false} HasNewest(s: State, p: nat, r: nat) returns (q: nat)
    requires Descendant(s.journal, p, r)
    ensures Newest(s, q, r)
    decreases |s.journal| - p
  {
    if p0: nat :| p < p0 && Descendant(s.journal, p0, r) {
      q := HasNewest(s, p0, r);
    } else {
      q := p;
    }
  }

  /** The handling of the newest copy left nothing: its add was lost, or it was hit before its end. */
  predicate LeftNothing(s: State, q: nat)
    requires q < |s.journal|
  {
    s.journal[q].life.Dropped? || (s.journal[q].life.Open? && q in s.strays)
  }

  lemma NewestOfAll(s: State, q: nat, r: nat, p: nat)
    requires Inv(s) && r !in s.again && Newest(s, q, r) && Descendant(s.journal, p, r) && p != q
    ensures s.journal[p].life.Copied? && !s.journal[q].life.Copied?
    ensures s.journal[p].stream != DlqStream(s.base)
  {
    assert Kin(s.journal, p, q);
    assert EntryFits(s, p) && EntryFits(s, q);
    if s.journal[q].life.Copied? {
      assert Descendant(s.journal, s.journal[q].life.to, r);
      assert false;
    }
  }

  lemma LostSo(s: State, r: nat, q: nat)
    requires Inv(s) && r !in s.again && Newest(s, q, r) && !Safe(s, r)
    ensures LeftNothing(s, q) && forall p: nat :: Descendant(s.journal, p, r) ==> p in s.acked || p in s.strays
  {
    assert EntryFits(s, q) && !Kept(s, q);
    if s.journal[q].life.Copied? {
      assert Descendant(s.journal, s.journal[q].life.to, r);
      assert false;
    }
    if s.journal[q].stream != DlqStream(s.base) {
      assert PlaceFits(s, q);
    }
    forall p: nat | Descendant(s.journal, p, r)
      ensures p in s.acked || p in s.strays
    {
      assert !Kept(s, p);
      if p != q {
        NewestOfAll(s, q, r, p);
      }
      assert PlaceFits(s, p);
    }
  }

  lemma SoLost(s: State, r: nat, q: nat)
    requires Inv(s) && r !in s.again && Newest(s, q, r) && LeftNothing(s, q)
    requires forall p: nat :: Descendant(s.journal, p, r) ==> p in s.acked || p in s.strays
    ensures !Safe(s, r)
  {
    forall p: nat | Descendant(s.journal, p, r)
      ensures !Kept(s, p)
    {
      assert p in s.places && PlaceFits(s, p) && EntryFits(s, p);
    }
    if r in s.wins && s.wins[r] != q {
      NewestOfAll(s, q, r, s.wins[r]);
    }
  }

  /**
   Exactly when a task that was never replayed is lost, by what the store replied: its newest copy
   was failed and the add of the next copy did not land, or it was hit astray before it was
   handled; and every entry of the task was acknowledged, by its own worker or astray.
  */
  lemma LostIff(s: State, r: nat)
    requires Reachable(s) && r < |s.roots| && r !in s.again
    ensures !Safe(s, r) <==>
              exists q: nat :: Newest(s, q, r) && LeftNothing(s, q)
                && forall p: nat :: Descendant(s.journal, p, r) ==> p in s.acked || p in s.strays
  {
    ReachableInv(s);
    var q := HasNewest(s, s.roots[r], r);
    if !Safe(s, r) {
      LostSo(s, r, q);
    }
    forall q0: nat | Newest(s, q0, r) && LeftNothing(s, q0)
      ensures (forall p: nat :: Descendant(s.journal, p, r) ==> p in s.acked || p in s.strays) ==> !Safe(s, r)
    {
      if forall p: nat :: Descendant(s.journal, p, r) ==> p in s.acked || p in s.strays {
        SoLost(s, r, q0);
      }
    }
  }

  /* ---------- the steps that lose a task ---------- */

  /** A worker that holds `p` acknowledges on the stream it was read from. */
  predicate Straight(s: State, p: nat)
    requires p < |s.journal|
  {
    Target(s, s.journal[p].body) == s.journal[p].stream
  }

  /** Nothing is left of the task but the entry in the hands of worker `w`. */
  ghost predicate LastHope(s: State, w: nat, r: nat) {
    && Inv(s) && r !in s.again && Holds(s, w) && Straight(s, s.workers[w].p)
    && Descendant(s.journal, s.workers[w].p, r)
    && forall q: nat :: Descendant(s.journal, q, r) && Kept(s, q) ==> q == s.workers[w].p
  }

  /** Nothing new, nothing gone, and the worker still there: still the last hope. */
  lemma HopeStays(s: State, t: State, w: nat, r: nat)
    requires LastHope(s, w, r) && Inv(t) && Holds(t, w) && t.workers[w].p == s.workers[w].p
    requires t.base == s.base && Extends(s.journal, t.journal) && |t.journal| == |s.journal|
    requires t.again == s.again && t.places == s.places && t.pending == s.pending && t.deleted == s.deleted
    ensures LastHope(t, w, r)
  {
    forall q: nat | Descendant(t.journal, q, r) && Kept(t, q)
      ensures q == t.workers[w].p
    {
      assert Descendant(s.journal, q, r) && Kept(s, q);
    }
  }

  /** After the lost add: the original is acknowledged, so nothing of the task is left. */
  lemma AckLoses(s: State, w: nat, r: nat)
    requires LastHope(s, w, r) && WorkEnabled(s, w, Ack(Ok)) && LostAdd(s, s.workers[w].p, r)
    ensures !Safe(AckNext(s, w, Ok), r)
  {
    var t := AckNext(s, w, Ok);
    var p := s.workers[w].p;
    assert WorkerFits(s, w) && PlaceFits(s, p) && EntryFits(s, p);
    assert p in s.pending ==> p in Hits(s, s.workers[w].target, s.journal[p].id);
    forall q: nat | Descendant(t.journal, q, r)
      ensures !Kept(t, q)
    {
      assert Kept(t, q) ==> Kept(s, q);
    }
    if r in s.wins {
      assert Descendant(s.journal, s.wins[r], r);
      assert if p < s.wins[r] then Kin(s.journal, p, s.wins[r]) else Kin(s.journal, s.wins[r], p);
      assert false;
    }
  }

  /** The steps by which a worker whose add does not land ends its message all the same. */
  function GiveUp(w: nat, id: nat, requeue: bool): seq<Action> {
    [Work(w, Store(id, Err(false)))] + (if requeue then [] else [Work(w, Tell)]) + [Work(w, Ack(Ok))]
  }

  /**
   When the copy that is to be stored is all that would be left of a task, and the add does not
   land, the task is lost by the worker's own next steps.
  */
  lemma FailedAddLoses(s: State, w: nat, id: nat, r: nat)
    requires LastHope(s, w, r) && WorkEnabled(s, w, Store(id, Err(false)))
    ensures Valid(s, GiveUp(w, id, s.workers[w].requeue))
    ensures !Safe(Exec(s, GiveUp(w, id, s.workers[w].requeue)), r)
  {
    var t := StoreNext(s, w, id, Err(false));
    StoreLost(s, w, id);
    HopeStays(s, t, w, r);
    assert LostAdd(t, t.workers[w].p, r);
    if s.workers[w].requeue {
      AckLoses(t, w, r);
      Two(s, Work(w, Store(id, Err(false))), Work(w, Ack(Ok)));
    } else {
      TellAndLose(t, w, r);
      var run := GiveUp(w, id, false);
      assert run[1..] == [Work(w, Tell), Work(w, Ack(Ok))];
    }
  }

  lemma TellAndLose(s: State, w: nat, r: nat)
    requires LastHope(s, w, r) && WorkEnabled(s, w, Tell) && LostAdd(s, s.workers[w].p, r)
    ensures Valid(s, [Work(w, Tell), Work(w, Ack(Ok))])
    ensures !Safe(Exec(s, [Work(w, Tell), Work(w, Ack(Ok))]), r)
  {
    var t := WorkNext(s, w, Tell);
    WorkerMoves(s, w, Tell);
    HopeStays(s, t, w, r);
    AckLoses(t, w, r);
    Two(s, Work(w, Tell), Work(w, Ack(Ok)));
  }

  lemma One(s: State, a: Action)
    requires Enabled(s, a)
    ensures Valid(s, [a]) && Exec(s, [a]) == Next(s, a)
  {
    assert [a][1..] == [];
  }

  lemma Two(s: State, a: Action, b: Action)
    requires Enabled(s, a) && Enabled(Next(s, a), b)
    ensures Valid(s, [a, b]) && Exec(s, [a, b]) == Next(Next(s, a), b)
  {
    assert [a, b][1..] == [b];
    One(Next(s, a), b);
  }
}
