/**
 The per-IP rate limiter: a mutable table of buckets, a call that updates one bucket in place and
 a cleanup that deletes the stale ones, both against their specification on plain maps; and the
 guarantees of whole histories of calls, by projection onto the events of one IP.
*/
module RateLimiting {
  import opened Tasks
  import opened Bucket

  type Table = map<string, Visitor>

  /** The table after a call from `ip`. */
  function TableAfterCall(lim: Limits, vs: Table, ip: string, since: int, stamp: int): Table {
    vs[ip := AfterCall(lim, Get(vs, ip), since, stamp)]
  }

  function Get(vs: Table, ip: string): Option<Visitor> {
    if ip in vs then Some(vs[ip]) else None
  }

  /** The table without the visitors that are stale at the time each is looked at. */
  function TableAfterCleanup(vs: Table, at: string -> int): Table {
    map ip | ip in vs && !Stale(vs[ip], at(ip)) :: vs[ip]
  }

  /* ---------- the code ---------- */

  /** One entry of the table, updated in place. */
  class Cell {
    var tokens: int
    var lastSeen: int

    constructor (tokens: int, lastSeen: int)
      ensures this.tokens == tokens && this.lastSeen == lastSeen
    {
      this.tokens := tokens;
      this.lastSeen := lastSeen;
    }

    function View(): Visitor
      reads this
    {
      Visitor(tokens, lastSeen)
    }

    /** Refill by the whole seconds since the last call, then take a token if there is one. */
    method Charge(lim: Limits, since: int, stamp: int) returns (ok: bool)
      modifies this
      ensures ok == Admits(lim, Some(old(View())), since)
      ensures View() == AfterCall(lim, Some(old(View())), since, stamp)
    {
      var elapsed := since - lastSeen;
      lastSeen := stamp;
      tokens := tokens + WholeSeconds(elapsed) * lim.rate;
      if tokens > lim.burst {
        tokens := lim.burst;
      }
      if tokens <= 0 {
        return false;
      }
      tokens := tokens - 1;
      return true;
    }
  }

  class RateLimiter {
    var visitors: map<string, Cell>
    const lim: Limits

    /** No two addresses share a bucket. */
    ghost predicate Valid()
      reads this
    {
      forall a, b :: a in visitors && b in visitors && a != b ==> visitors[a] != visitors[b]
    }

    ghost function View(): Table
      reads this, visitors.Values
    {
      map ip | ip in visitors :: visitors[ip].View()
    }

    constructor (rate: int, burst: int)
      ensures Valid() && View() == map[] && lim == Limits(rate, burst)
    {
      visitors := map[];
      lim := Limits(rate, burst);
    }

    /** Decide a call from `ip`, whose two clock readings are `since` and `stamp`. */
    method Allow(ip: string, since: int, stamp: int) returns (ok: bool)
      requires Valid()
      modifies this, visitors.Values
      ensures Valid() && fresh(visitors.Values - old(visitors.Values))
      ensures ok == Admits(lim, Get(old(View()), ip), since)
      ensures View() == TableAfterCall(lim, old(View()), ip, since, stamp)
    {
      if ip !in visitors {
        var cell := new Cell(lim.burst - 1, stamp);
        visitors := visitors[ip := cell];
        return true;
      }
      ok := visitors[ip].Charge(lim, since, stamp);
    }

    /** Delete the stale visitors, in any order, reading the clock at `at(ip)` for each. */
    method Cleanup(at: string -> int)
      requires Valid()
      modifies this
      ensures Valid() && visitors.Values <= old(visitors.Values)
      ensures View() == TableAfterCleanup(old(View()), at)
    {
      var rest := visitors.Keys;
      while rest != {}
        invariant Valid() && rest <= visitors.Keys <= old(visitors.Keys)
        invariant forall ip :: ip in visitors ==> visitors[ip] == old(visitors[ip])
        invariant forall ip :: ip in old(visitors) && ip !in rest ==>
                    (ip in visitors <==> !Stale(old(View())[ip], at(ip)))
        decreases rest
      {
        var ip :| ip in rest;
        rest := rest - {ip};
        if at(ip) - visitors[ip].lastSeen > STALE {
          visitors := visitors - {ip};
        }
      }
    }
  }

  /* ---------- histories ---------- */

  /** A call, or a cleanup that looks at each visitor at its own time and ends at `done`. */
  datatype Op = Request(ip: string, since: int, stamp: int) | Sweep(begin: int, at: string -> int, done: int)

  ghost predicate OpTimed(op: Op) {
    match op
    case Request(_, since, stamp) => since <= stamp
    case Sweep(begin, at, done) => begin <= done && forall ip :: begin <= at(ip) <= done
  }

  function OpStart(op: Op): int {
    if op.Request? then op.since else op.begin
  }

  function OpEnd(op: Op): int {
    if op.Request? then op.stamp else op.done
  }

  /** The operations hold the lock one after the other, on a clock that never runs backwards. */
  ghost predicate InOrder(ops: seq<Op>, t: int) {
    ops == [] ||
    var op := ops[|ops| - 1];
    OpTimed(op) && OpEnd(op) <= t && InOrder(ops[..|ops| - 1], OpStart(op))
  }

  function TableAfter(lim: Limits, ops: seq<Op>): Table {
    if ops == [] then map[]
    else
      var vs := TableAfter(lim, ops[..|ops| - 1]);
      match ops[|ops| - 1]
      case Request(ip, since, stamp) => TableAfterCall(lim, vs, ip, since, stamp)
      case Sweep(_, at, _) => TableAfterCleanup(vs, at)
  }

  /** The limiter's answer to a call from `ip` at time `since`, after `ops`. */
  predicate Answer(lim: Limits, ops: seq<Op>, ip: string, since: int) {
    Admits(lim, Get(TableAfter(lim, ops), ip), since)
  }

  function WithoutSweeps(ops: seq<Op>): seq<Op> {
    if ops == [] then []
    else WithoutSweeps(ops[..|ops| - 1]) + if ops[|ops| - 1].Request? then [ops[|ops| - 1]] else []
  }

  /* ---------- the events of one address ---------- */

  function Seen(ops: seq<Op>, ip: string): seq<Event> {
    if ops == [] then []
    else
      Seen(ops[..|ops| - 1], ip) +
      match ops[|ops| - 1]
      case Request(from, since, stamp) => if from == ip then [Hit(since, stamp)] else []
      case Sweep(_, at, _) => [Pass(at(ip))]
  }

  lemma AfterOne(lim: Limits, es: seq<Event>, e: Event)
    ensures AfterAll(lim, None, es + [e]) == After(lim, AfterAll(lim, None, es), e)
  {
    assert (es + [e])[..|es|] == es;
  }

  /** A bucket depends on nothing but its own address's calls and the cleanups. */
  lemma {:induction false} Isolation(lim: Limits, ops: seq<Op>, ip: string)
    ensures Get(TableAfter(lim, ops), ip) == AfterAll(lim, None, Seen(ops, ip))
  {
    if ops != [] {
      var front := ops[..|ops| - 1];
      var op := ops[|ops| - 1];
      Isolation(lim, front, ip);
      if op.Request? && op.ip != ip {
        assert Seen(front, ip) + [] == Seen(front, ip);
      } else {
        AfterOne(lim, Seen(front, ip), if op.Request? then Hit(op.since, op.stamp) else Pass(op.at(ip)));
      }
    }
  }

  lemma {:induction false} SeenInOrder(ops: seq<Op>, ip: string, t: int)
    requires InOrder(ops, t)
    ensures Timed(Seen(ops, ip), t)
  {
    if ops != [] {
      var front := ops[..|ops| - 1];
      var op := ops[|ops| - 1];
      var es := Seen(front, ip);
      SeenInOrder(front, ip, OpStart(op));
      if op.Request? && op.ip != ip {
        assert es + [] == es;
        TimedLater(es, OpStart(op), t);
      } else {
        var e := if op.Request? then Hit(op.since, op.stamp) else Pass(op.at(ip));
        assert (es + [e])[..|es|] == es;
        TimedLater(es, OpStart(op), Start(e));
      }
    }
  }

  lemma {:induction false} SeenWithoutSweeps(ops: seq<Op>, ip: string)
    ensures Seen(WithoutSweeps(ops), ip) == Hits(Seen(ops, ip))
  {
    if ops != [] {
      var front := ops[..|ops| - 1];
      var op := ops[|ops| - 1];
      SeenWithoutSweeps(front, ip);
      var kept := WithoutSweeps(front);
      if op.Request? {
        assert (kept + [op])[..|kept|] == kept;
        assert Seen(kept + [op], ip) == Seen(kept, ip) + if op.ip == ip then [Hit(op.since, op.stamp)] else [];
      } else {
        assert kept + [] == kept;
      }
      var es := Seen(front, ip);
      if op.Request? && op.ip != ip {
        assert es + [] == es && Hits(es) + [] == Hits(es);
      } else {
        var e := if op.Request? then Hit(op.since, op.stamp) else Pass(op.at(ip));
        assert (es + [e])[..|es|] == es;
        assert Hits(es) + [] == Hits(es);
      }
    }
  }

  /* ---------- when cleanup is transparent ---------- */

  /** The limiter answers every call of every history as if it never cleaned up. */
  ghost predicate Transparent(lim: Limits) {
    forall ops, ip, since :: InOrder(ops, since) ==> SameAnswers(lim, ops, ip, since)
  }

  predicate SameAnswers(lim: Limits, ops: seq<Op>, ip: string, since: int) {
    Answer(lim, ops, ip, since) == Answer(lim, WithoutSweeps(ops), ip, since)
  }

  lemma TransparentIf(lim: Limits, ops: seq<Op>, ip: string, since: int)
    requires 1 <= lim.burst <= 300 * lim.rate && InOrder(ops, since)
    ensures SameAnswers(lim, ops, ip, since)
  {
    Isolation(lim, ops, ip);
    Isolation(lim, WithoutSweeps(ops), ip);
    SeenWithoutSweeps(ops, ip);
    SeenInOrder(ops, ip, since);
    SameAnswer(lim, Seen(ops, ip), since);
  }

  /** A history of the one address "x" with given events. */
  function Embed(es: seq<Event>): seq<Op> {
    if es == [] then []
    else
      Embed(es[..|es| - 1]) + [EmbedOne(es[|es| - 1])]
  }

  function EmbedOne(e: Event): Op {
    match e
    case Hit(since, stamp) => Request("x", since, stamp)
    case Pass(now) => Sweep(now, _ => now, now)
  }

  lemma {:induction false} EmbedInOrder(es: seq<Event>, t: int)
    requires Timed(es, t)
    ensures InOrder(Embed(es), t)
  {
    if es != [] {
      var front := es[..|es| - 1];
      var e := es[|es| - 1];
      EmbedInOrder(front, Start(e));
      assert (Embed(front) + [EmbedOne(e)])[..|Embed(front)|] == Embed(front);
    }
  }

  lemma {:induction false} SeenEmbed(es: seq<Event>)
    ensures Seen(Embed(es), "x") == es
  {
    if es != [] {
      var front := es[..|es| - 1];
      var e := es[|es| - 1];
      SeenEmbed(front);
      assert (Embed(front) + [EmbedOne(e)])[..|Embed(front)|] == Embed(front);
      assert es == front + [e];
    }
  }

  lemma EmbedAnswers(lim: Limits, es: seq<Event>, since: int)
    requires Timed(es, since)
    ensures var ops := Embed(es);
            && InOrder(ops, since)
            && Answer(lim, ops, "x", since) == Admits(lim, AfterAll(lim, None, es), since)
            && Answer(lim, WithoutSweeps(ops), "x", since) == Admits(lim, AfterAll(lim, None, Hits(es)), since)
  {
    EmbedInOrder(es, since);
    SeenEmbed(es);
    Isolation(lim, Embed(es), "x");
    Isolation(lim, WithoutSweeps(Embed(es)), "x");
    SeenWithoutSweeps(Embed(es), "x");
  }

  /**
   Cleanup is transparent exactly when the burst is positive and 300 seconds earn at least the
   burst. The limits of the server, 100 and 200, satisfy this.
  */
  lemma TransparentIff(lim: Limits)
    ensures Transparent(lim) <==> 1 <= lim.burst <= 300 * lim.rate
    ensures Transparent(Limits(100, 200))
  {
    forall ops, ip, since | 1 <= lim.burst <= 300 * lim.rate && InOrder(ops, since)
      ensures SameAnswers(lim, ops, ip, since)
    {
      TransparentIf(lim, ops, ip, since);
    }
    forall ops, ip, since | InOrder(ops, since)
      ensures SameAnswers(Limits(100, 200), ops, ip, since)
    {
      TransparentIf(Limits(100, 200), ops, ip, since);
    }
    if lim.burst < 1 {
      NoBurstTells(lim);
      EmbedAnswers(lim, [Hit(0, 0), Pass(LATER)], LATER);
      assert !SameAnswers(lim, Embed([Hit(0, 0), Pass(LATER)]), "x", LATER);
    } else if lim.burst > 300 * lim.rate {
      ProbeTimed(lim);
      ProbeTells(lim);
      EmbedAnswers(lim, Probe(lim), LATER);
      assert !SameAnswers(lim, Embed(Probe(lim)), "x", LATER);
    }
  }

  /* ---------- what one address is granted ---------- */

  /** The calls of `ip` that are admitted during `win`, after `pre`. */
  function Granted(lim: Limits, pre: seq<Op>, win: seq<Op>, ip: string): nat {
    if win == [] then 0
    else
      var op := win[|win| - 1];
      var front := win[..|win| - 1];
      Granted(lim, pre, front, ip)
      + if op.Request? && op.ip == ip && Answer(lim, pre + front, ip, op.since) then 1 else 0
  }

  lemma {:induction false} SeenConcat(a: seq<Op>, b: seq<Op>, ip: string)
    ensures Seen(a + b, ip) == Seen(a, ip) + Seen(b, ip)
  {
    if b == [] {
      assert a + b == a;
    } else {
      assert (a + b)[..|a + b| - 1] == a + b[..|b| - 1];
      SeenConcat(a, b[..|b| - 1], ip);
    }
  }

  /** What an address is granted is what its own bucket admits: other addresses do not matter. */
  lemma {:induction false} GrantedByBucket(lim: Limits, pre: seq<Op>, win: seq<Op>, ip: string)
    ensures Granted(lim, pre, win, ip) == Admitted(lim, AfterAll(lim, None, Seen(pre, ip)), Seen(win, ip))
  {
    if win != [] {
      var op := win[|win| - 1];
      var front := win[..|win| - 1];
      var es := Seen(front, ip);
      GrantedByBucket(lim, pre, front, ip);
      Isolation(lim, pre + front, ip);
      SeenConcat(pre, front, ip);
      AfterConcat(lim, None, Seen(pre, ip), es);
      if op.Request? && op.ip != ip {
        assert es + [] == es;
      } else {
        var e := if op.Request? then Hit(op.since, op.stamp) else Pass(op.at(ip));
        assert (es + [e])[..|es|] == es;
      }
    }
  }

  lemma {:induction false} SeenFrom(ops: seq<Op>, ip: string, from: int)
    requires forall k :: 0 <= k < |ops| ==> OpTimed(ops[k]) && from <= OpStart(ops[k])
    ensures forall k :: 0 <= k < |Seen(ops, ip)| ==> from <= Start(Seen(ops, ip)[k])
  {
    if ops != [] {
      SeenFrom(ops[..|ops| - 1], ip, from);
    }
  }

  /**
   In any window of any history, cleanups included, an address is granted at most the burst plus
   the rate times the whole seconds of the window, whatever other addresses do.
  */
  lemma GrantBound(lim: Limits, pre: seq<Op>, win: seq<Op>, ip: string, from: int, to: int)
    requires 1 <= lim.burst <= 300 * lim.rate && from <= to
    requires InOrder(pre, from) && InOrder(pre + win, to)
    requires forall k :: 0 <= k < |win| ==> OpTimed(win[k]) && from <= OpStart(win[k])
    ensures Granted(lim, pre, win, ip) <= lim.burst + WholeSeconds(to - from) * lim.rate
  {
    GrantedByBucket(lim, pre, win, ip);
    SeenInOrder(pre, ip, from);
    SeenInOrder(pre + win, ip, to);
    SeenConcat(pre, win, ip);
    SeenFrom(win, ip, from);
    AdmissionBound(lim, Seen(pre, ip), Seen(win, ip), from, to);
  }

  lemma {:induction false} HitsOnly(es: seq<Event>)
    ensures OnlyHits(Hits(es))
  {
    if es != [] {
      HitsOnly(es[..|es| - 1]);
    }
  }

  /** Every call the limiter admits, cleanups included, an exact bucket for its address admits too. */
  lemma ExactGrantsToo(lim: Limits, ops: seq<Op>, ip: string, since: int)
    requires 1 <= lim.burst <= 300 * lim.rate && InOrder(ops, since) && Answer(lim, ops, ip, since)
    ensures ExactAdmits(lim, ExactAfterAll(lim, Hits(Seen(ops, ip))), since)
  {
    Isolation(lim, ops, ip);
    SeenInOrder(ops, ip, since);
    SameAnswer(lim, Seen(ops, ip), since);
    HitsTimed(Seen(ops, ip), since);
    HitsOnly(Seen(ops, ip));
    ExactAdmitsToo(lim, Hits(Seen(ops, ip)), since);
  }
}
