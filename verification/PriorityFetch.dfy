/**
 The fetcher of the priority consumer: rounds over three streams, most urgent first, one batch
 from each; and how long an entry of the least urgent stream can be kept waiting.
*/
module PriorityFetch {
  import opened Sequences
  import opened Tasks

  /** The unread entries of the three streams, most urgent stream first, oldest entry first. */
  type Unread = u: seq<seq<nat>> | |u| == 3 witness [[], [], []]

  /** What other producers append to each stream just before a read. */
  type Arrivals = Unread

  const LOW := 2

  /** A message sent to the workers, with the stream it was read from. */
  datatype Sent = Sent(stream: nat, id: nat)

  function Min(a: nat, b: nat): nat {
    if a < b then a else b
  }

  function Arrive(u: Unread, a: Arrivals): Unread {
    [u[0] + a[0], u[1] + a[1], u[2] + a[2]]
  }

  /** The batch a read of stream `k` delivers: the oldest entries, at most `b`. */
  function BatchOf(u: Unread, k: nat, b: nat): seq<nat>
    requires k < 3
  {
    u[k][..Min(b, |u[k]|)]
  }

  function ReadFrom(u: Unread, k: nat, b: nat): Unread
    requires k < 3
  {
    u[k := u[k][Min(b, |u[k]|)..]]
  }

  function Tag(k: nat, ids: seq<nat>): seq<Sent> {
    seq(|ids|, i requires 0 <= i < |ids| => Sent(k, ids[i]))
  }

  /**
   One turn of a round. Whatever other producers append comes first. A read that fails delivers
   nothing, and the round goes on, unless the context turns out to be cancelled. A read that succeeds
   is sent message by message; `cut` says after how many messages cancellation ends it, if it does.
  */
  datatype Turn = Failed(arrivals: Arrivals, cancelled: bool) | Served(arrivals: Arrivals, cut: Option<nat>)

  /** What a turn at stream `k` sends, out of the streams it finds. */
  function SentIn(u: Unread, t: Turn, k: nat, b: nat): seq<nat>
    requires k < 3
  {
    match t
    case Failed(_, _) => []
    case Served(_, cut) =>
      var ids := BatchOf(u, k, b);
      if cut.Some? && cut.value < |ids| then ids[..cut.value] else ids
  }

  /** The turn is the last thing the fetcher does. */
  predicate Stops(u: Unread, t: Turn, k: nat, b: nat)
    requires k < 3
  {
    match t
    case Failed(_, cancelled) => cancelled
    case Served(_, cut) => cut.Some? && cut.value < |BatchOf(u, k, b)|
  }

  function ReadIn(u: Unread, t: Turn, k: nat, b: nat): Unread
    requires k < 3
  {
    if t.Failed? then u else ReadFrom(u, k, b)
  }

  /** The streams when the round ends, and the messages sent from stream `k` on. */
  function TurnsFrom(u: Unread, turns: seq<Turn>, k: nat, b: nat): (Unread, seq<Sent>)
    requires |turns| == 3 && k <= 3
    decreases 3 - k
  {
    if k == 3 then (u, [])
    else
      var u1 := Arrive(u, turns[k].arrivals);
      var u2 := ReadIn(u1, turns[k], k, b);
      var sent := Tag(k, SentIn(u1, turns[k], k, b));
      if Stops(u1, turns[k], k, b) then (u2, sent)
      else
        var (u3, later) := TurnsFrom(u2, turns, k + 1, b);
        (u3, sent + later)
  }

  /** The round is cut short at stream `k` or later. */
  predicate StopsFrom(u: Unread, turns: seq<Turn>, k: nat, b: nat)
    requires |turns| == 3 && k <= 3
    decreases 3 - k
  {
    if k == 3 then false
    else
      var u1 := Arrive(u, turns[k].arrivals);
      Stops(u1, turns[k], k, b) || StopsFrom(ReadIn(u1, turns[k], k, b), turns, k + 1, b)
  }

  /** A round in which every read succeeds and nothing is cancelled. */
  function AllServed(arrivals: seq<Arrivals>): seq<Turn>
    requires |arrivals| == 3
  {
    [Served(arrivals[0], None), Served(arrivals[1], None), Served(arrivals[2], None)]
  }

  /** A whole round in which every read succeeds and nothing is cancelled. */
  function Round(u: Unread, arrivals: seq<Arrivals>, b: nat): (Unread, seq<Sent>)
    requires |arrivals| == 3
  {
    TurnsFrom(u, AllServed(arrivals), 0, b)
  }

  function Rounds(u: Unread, rounds: seq<seq<Arrivals>>, b: nat): (Unread, seq<Sent>)
    requires forall i :: 0 <= i < |rounds| ==> |rounds[i]| == 3
    decreases |rounds|
  {
    if rounds == [] then (u, [])
    else
      var (u1, first) := Round(u, rounds[0], b);
      var (u2, later) := Rounds(u1, rounds[1..], b);
      (u2, first + later)
  }

  /* ---------- the code ---------- */

  class Fetcher {
    var unread: Unread
    var sent: seq<Sent>

    constructor (unread: Unread)
      ensures this.unread == unread && sent == []
    {
      this.unread := unread;
      sent := [];
    }

    method ReadGroup(k: nat, b: nat, t: Turn) returns (messages: seq<nat>)
      requires k < 3
      modifies this`unread
      ensures unread == ReadIn(Arrive(old(unread), t.arrivals), t, k, b)
      ensures messages == if t.Failed? then [] else BatchOf(Arrive(old(unread), t.arrivals), k, b)
    {
      messages := [];
      unread := Arrive(unread, t.arrivals);
      if t.Served? {
        messages := BatchOf(unread, k, b);
        unread := ReadFrom(unread, k, b);
      }
    }

    /** Send the messages of one batch, in order, until cancellation ends it. */
    method Dispatch(k: nat, messages: seq<nat>, cut: Option<nat>) returns (stopped: bool, found: bool)
      modifies this`sent
      ensures stopped == (cut.Some? && cut.value < |messages|) && found == (messages != [])
      ensures sent == old(sent) + Tag(k, if stopped then messages[..cut.value] else messages)
    {
      found := false;
      ghost var before := sent;
      for i := 0 to |messages|
        invariant sent == before + Tag(k, messages[..i]) && found == (i > 0)
        invariant cut.Some? ==> i <= cut.value
      {
        found := true;
        if cut == Some(i) {
          return true, found;
        }
        sent := sent + [Sent(k, messages[i])];
        assert Tag(k, messages[..i + 1]) == Tag(k, messages[..i]) + [Sent(k, messages[i])];
      }
      assert messages[..|messages|] == messages;
      return false, found;
    }

    /**
     One round: the high, the normal and the low stream in turn. Says whether the fetcher is to stop,
     and, if it is not, whether anything was found.
    */
    method FetchRound(b: nat, turns: seq<Turn>) returns (stopped: bool, foundAny: bool)
      requires |turns| == 3
      modifies this
      ensures unread == TurnsFrom(old(unread), turns, 0, b).0
      ensures sent == old(sent) + TurnsFrom(old(unread), turns, 0, b).1
      ensures stopped == StopsFrom(old(unread), turns, 0, b)
      ensures !stopped ==> foundAny == (TurnsFrom(old(unread), turns, 0, b).1 != [])
    {
      foundAny := false;
      ghost var unread0, sent0 := unread, sent;
      ghost var all := TurnsFrom(unread, turns, 0, b).1;
      for k := 0 to 3
        invariant TurnsFrom(unread0, turns, 0, b).0 == TurnsFrom(unread, turns, k, b).0
        invariant StopsFrom(unread0, turns, 0, b) == StopsFrom(unread, turns, k, b)
        invariant sent0 + all == sent + TurnsFrom(unread, turns, k, b).1
        invariant |sent0| <= |sent| && foundAny == (|sent| > |sent0|)
      {
        ghost var sent1 := sent;
        var messages := ReadGroup(k, b, turns[k]);
        if turns[k].Failed? {
          if turns[k].cancelled {
            return true, foundAny;
          }
          assert sent + Tag(k, []) == sent;
          Assoc(sent1, Tag(k, []), TurnsFrom(unread, turns, k + 1, b).1);
          continue;
        }
        var found: bool;
        stopped, found := Dispatch(k, messages, turns[k].cut);
        foundAny := foundAny || found;
        if stopped {
          return;
        }
        Assoc(sent1, Tag(k, messages), TurnsFrom(unread, turns, k + 1, b).1);
      }
      assert sent + [] == sent;
      return false, foundAny;
    }
  }

  /* ---------- how long a low entry waits ---------- */

  /** The low messages among those sent, in order. */
  function LowOnly(sent: seq<Sent>): seq<nat> {
    if sent == [] then []
    else (if sent[0].stream == LOW then [sent[0].id] else []) + LowOnly(sent[1..])
  }

  /** The number of high and normal messages among those sent. */
  function Others(sent: seq<Sent>): nat {
    if sent == [] then 0 else (if sent[0].stream == LOW then 0 else 1) + Others(sent[1..])
  }

  lemma {:induction false} SplitSent(a: seq<Sent>, b: seq<Sent>)
    ensures LowOnly(a + b) == LowOnly(a) + LowOnly(b) && Others(a + b) == Others(a) + Others(b)
  {
    if a == [] {
      assert a + b == b;
    } else {
      assert (a + b)[1..] == a[1..] + b;
      SplitSent(a[1..], b);
    }
  }

  lemma {:induction false} TagCounts(k: nat, ids: seq<nat>)
    ensures LowOnly(Tag(k, ids)) == (if k == LOW then ids else [])
    ensures Others(Tag(k, ids)) == if k == LOW then 0 else |ids|
  {
    if ids != [] {
      assert Tag(k, ids)[1..] == Tag(k, ids[1..]);
      TagCounts(k, ids[1..]);
    }
  }

  /** The low stream when it is read, in a round that starts with `u`. */
  function LowAtRead(u: Unread, arrivals: seq<Arrivals>): seq<nat>
    requires |arrivals| == 3
  {
    u[LOW] + arrivals[0][LOW] + arrivals[1][LOW] + arrivals[2][LOW]
  }

  /** A round sends at most two batches before the low stream's own, and leaves the rest of the low stream in order. */
  lemma RoundEffect(u: Unread, arrivals: seq<Arrivals>, b: nat)
    requires |arrivals| == 3
    ensures var (v, sent) := Round(u, arrivals, b); var low := LowAtRead(u, arrivals); var n := Min(b, |low|);
            LowOnly(sent) == low[..n] && v[LOW] == low[n..] && Others(sent) <= 2 * b
  {
    var u0 := Arrive(u, arrivals[0]);
    var u1 := Arrive(ReadFrom(u0, 0, b), arrivals[1]);
    var u2 := Arrive(ReadFrom(u1, 1, b), arrivals[2]);
    var s0, s1, s2 := Tag(0, BatchOf(u0, 0, b)), Tag(1, BatchOf(u1, 1, b)), Tag(2, BatchOf(u2, 2, b));
    var turns := AllServed(arrivals);
    assert TurnsFrom(ReadFrom(u2, 2, b), turns, 3, b) == (ReadFrom(u2, 2, b), []);
    assert TurnsFrom(ReadFrom(u1, 1, b), turns, 2, b) == (ReadFrom(u2, 2, b), s2 + []);
    assert TurnsFrom(ReadFrom(u0, 0, b), turns, 1, b) == (ReadFrom(u2, 2, b), s1 + (s2 + []));
    assert Round(u, arrivals, b) == (ReadFrom(u2, 2, b), s0 + (s1 + (s2 + [])));
    TagCounts(0, BatchOf(u0, 0, b));
    TagCounts(1, BatchOf(u1, 1, b));
    TagCounts(2, BatchOf(u2, 2, b));
    SplitSent(s0, s1 + (s2 + []));
    SplitSent(s1, s2 + []);
    SplitSent(s2, []);
    assert u2[LOW] == LowAtRead(u, arrivals);
  }

  /** `m` batches of `b`. */
  function Batches(b: nat, m: nat): nat {
    if m == 0 then 0 else b + Batches(b, m - 1)
  }

  lemma {:induction false} BatchesTimes(b: nat, m: nat)
    ensures Batches(b, m) == b * m
  {
    if m > 0 {
      BatchesTimes(b, m - 1);
    }
  }

  lemma Extend(had: seq<nat>, low: seq<nat>, n: nat, m: nat, later: seq<nat>)
    requires n <= |had| && had <= low && m <= |low|
    requires n > m ==> low[m..][..n - m] <= later
    ensures had[..n] <= low[..m] + later
  {
    if n > m {
      assert low[..n] == low[..m] + low[m..][..n - m];
    }
  }

  /**
   The low messages of a round, then those of the later rounds. `low` is the low stream when it is
   read, `v` what the round leaves.
  */
  lemma LowByRounds(u: Unread, rounds: seq<seq<Arrivals>>, b: nat) returns (v: Unread, low: seq<nat>)
    requires rounds != [] && forall i :: 0 <= i < |rounds| ==> |rounds[i]| == 3
    ensures var m := Min(b, |low|);
            && v[LOW] == low[m..] && u[LOW] <= low
            && LowOnly(Rounds(u, rounds, b).1) == low[..m] + LowOnly(Rounds(v, rounds[1..], b).1)
  {
    var round := Round(u, rounds[0], b);
    v := round.0;
    low := LowAtRead(u, rounds[0]);
    RoundEffect(u, rounds[0], b);
    SplitSent(round.1, Rounds(v, rounds[1..], b).1);
  }

  lemma RestFits(had: seq<nat>, low: seq<nat>, b: nat, n: nat, k: nat)
    requires n <= |had| && had <= low && k > 0 && n <= Batches(b, k)
    ensures var m := Min(b, |low|); n > m ==> n - m <= |low| - m && n - m <= Batches(b, k - 1)
  {
  }

  /** The low stream as each round finds it: what the round before has left, and arrivals behind. */
  predicate Chained(had: seq<nat>, lows: seq<seq<nat>>, b: nat)
    decreases |lows|
  {
    lows == [] || (had <= lows[0] && Chained(lows[0][Min(b, |lows[0]|)..], lows[1..], b))
  }

  /** The batches that the rounds send of them. */
  function BatchesOf(lows: seq<seq<nat>>, b: nat): seq<nat>
    decreases |lows|
  {
    if lows == [] then [] else lows[0][..Min(b, |lows[0]|)] + BatchesOf(lows[1..], b)
  }

  lemma {:induction false} BatchesAdvance(had: seq<nat>, lows: seq<seq<nat>>, b: nat, n: nat)
    requires Chained(had, lows, b) && n <= |had| && n <= Batches(b, |lows|)
    ensures had[..n] <= BatchesOf(lows, b)
    decreases |lows|
  {
    if lows != [] {
      var low := lows[0];
      var m := Min(b, |low|);
      RestFits(had, low, b, n, |lows|);
      BatchesAdvance(low[m..], lows[1..], b, if n <= m then 0 else n - m);
      Extend(had, low, n, m, BatchesOf(lows[1..], b));
    }
  }

  lemma {:induction false} RoundsAreChained(u: Unread, rounds: seq<seq<Arrivals>>, b: nat) returns (lows: seq<seq<nat>>)
    requires forall i :: 0 <= i < |rounds| ==> |rounds[i]| == 3
    ensures |lows| == |rounds| && Chained(u[LOW], lows, b) && LowOnly(Rounds(u, rounds, b).1) == BatchesOf(lows, b)
    decreases |rounds|
  {
    if rounds == [] {
      lows := [];
    } else {
      var v, low := LowByRounds(u, rounds, b);
      var rest := RoundsAreChained(v, rounds[1..], b);
      lows := [low] + rest;
      assert lows[1..] == rest;
    }
  }

  /** Every round sends the next `b` old low entries, if there are that many. */
  lemma LowAdvances(u: Unread, rounds: seq<seq<Arrivals>>, b: nat, n: nat)
    requires forall i :: 0 <= i < |rounds| ==> |rounds[i]| == 3
    requires n <= |u[LOW]| && n <= Batches(b, |rounds|)
    ensures u[LOW][..n] <= LowOnly(Rounds(u, rounds, b).1)
  {
    var lows := RoundsAreChained(u, rounds, b);
    BatchesAdvance(u[LOW], lows, b, n);
  }

  /** Every round sends at most two batches of other messages. */
  lemma {:induction false} OthersBounded(u: Unread, rounds: seq<seq<Arrivals>>, b: nat)
    requires forall i :: 0 <= i < |rounds| ==> |rounds[i]| == 3
    ensures Others(Rounds(u, rounds, b).1) <= Batches(2 * b, |rounds|)
    decreases |rounds|
  {
    if rounds != [] {
      var (v, first) := Round(u, rounds[0], b);
      RoundEffect(u, rounds[0], b);
      SplitSent(first, Rounds(v, rounds[1..], b).1);
      OthersBounded(v, rounds[1..], b);
    }
  }

  /**
   Bounded overtaking. An entry of the low stream with `k` older unread entries is sent within
   k / b + 1 rounds, after at most 2 * b * (k / b + 1) high and normal messages, however many of
   those keep arriving; and the low entries are sent in stream order.
  */
  lemma BoundedOvertaking(u: Unread, rounds: seq<seq<Arrivals>>, b: nat, k: nat)
    requires b >= 1 && k < |u[LOW]| && |rounds| == k / b + 1
    requires forall i :: 0 <= i < |rounds| ==> |rounds[i]| == 3
    ensures u[LOW][..k + 1] <= LowOnly(Rounds(u, rounds, b).1)
    ensures Others(Rounds(u, rounds, b).1) <= 2 * b * (k / b + 1)
  {
    EnoughRounds(k, b);
    BatchesTimes(b, k / b + 1);
    BatchesTimes(2 * b, k / b + 1);
    LowAdvances(u, rounds, b, k + 1);
    OthersBounded(u, rounds, b);
  }

  lemma EnoughRounds(k: nat, b: nat)
    requires b >= 1
    ensures k + 1 <= b * (k / b + 1)
  {
    assert k == b * (k / b) + k % b;
  }
}
