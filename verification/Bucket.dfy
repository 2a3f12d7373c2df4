/**
 The token bucket of one visitor: the arithmetic of the rate limiter, its eviction, an exact
 bucket to compare it with, and a bound on what it admits.
*/
module Bucket {
  import opened Tasks

  const NANOS := 1_000_000_000
  /** A visitor is stale when it has not been seen for more than this. */
  const STALE := 300 * NANOS

  datatype Limits = Limits(rate: int, burst: int)

  /** Times are nanoseconds on a monotonic clock. */
  datatype Visitor = Visitor(tokens: int, lastSeen: int)

  /** Whole seconds in a duration, truncated toward zero. */
  function WholeSeconds(d: int): int {
    if d >= 0 then d / NANOS else -(-d / NANOS)
  }

  /** The tokens after refilling up to time `since`, capped at the burst. */
  function Refilled(lim: Limits, v: Visitor, since: int): int {
    var tokens := v.tokens + WholeSeconds(since - v.lastSeen) * lim.rate;
    if tokens > lim.burst then lim.burst else tokens
  }

  /** Is a call at time `since` admitted? A visitor not seen before always is. */
  predicate Admits(lim: Limits, v: Option<Visitor>, since: int) {
    v.None? || Refilled(lim, v.value, since) > 0
  }

  /** The visitor after a call that read the clock at `since` and then at `stamp`. */
  function AfterCall(lim: Limits, v: Option<Visitor>, since: int, stamp: int): Visitor {
    match v
    case None => Visitor(lim.burst - 1, stamp)
    case Some(x) =>
      var tokens := Refilled(lim, x, since);
      Visitor(if tokens <= 0 then tokens else tokens - 1, stamp)
  }

  predicate Stale(v: Visitor, now: int) {
    now - v.lastSeen > STALE
  }

  /** What happens to one visitor: a call, or the cleanup passing by at time `now`. */
  datatype Event = Hit(since: int, stamp: int) | Pass(now: int)

  function After(lim: Limits, v: Option<Visitor>, e: Event): Option<Visitor> {
    match e
    case Hit(since, stamp) => Some(AfterCall(lim, v, since, stamp))
    case Pass(now) => if v.Some? && Stale(v.value, now) then None else v
  }

  function AfterAll(lim: Limits, v: Option<Visitor>, es: seq<Event>): Option<Visitor> {
    if es == [] then v else After(lim, AfterAll(lim, v, es[..|es| - 1]), es[|es| - 1])
  }

  /** The same events without the cleanup. */
  function Hits(es: seq<Event>): seq<Event> {
    if es == [] then []
    else Hits(es[..|es| - 1]) + if es[|es| - 1].Hit? then [es[|es| - 1]] else []
  }

  function Start(e: Event): int {
    if e.Hit? then e.since else e.now
  }

  function End(e: Event): int {
    if e.Hit? then e.stamp else e.now
  }

  /** The clock never runs backwards: within an event and from one to the next, and no reading is past `t`. */
  predicate Timed(es: seq<Event>, t: int) {
    es == [] ||
    var e := es[|es| - 1];
    Start(e) <= End(e) <= t && Timed(es[..|es| - 1], Start(e))
  }

  lemma {:induction false} TimedLater(es: seq<Event>, t: int, u: int)
    requires Timed(es, t) && t <= u
    ensures Timed(es, u)
  {
  }

  lemma {:induction false} HitsTimed(es: seq<Event>, t: int)
    requires Timed(es, t)
    ensures Timed(Hits(es), t)
  {
    if es != [] {
      var e := es[|es| - 1];
      var front := es[..|es| - 1];
      HitsTimed(front, Start(e));
      if e.Hit? {
        assert (Hits(front) + [e])[..|Hits(front)|] == Hits(front);
      } else {
        TimedLater(Hits(front), Start(e), t);
        assert Hits(front) + [] == Hits(front);
      }
    }
  }

  /* ---------- bounds ---------- */

  predicate Sound(lim: Limits, v: Option<Visitor>, t: int) {
    v.Some? ==> 0 <= v.value.tokens <= lim.burst && v.value.lastSeen <= t
  }

  lemma {:induction false} StaysSound(lim: Limits, es: seq<Event>, t: int)
    requires lim.burst >= 1 && lim.rate >= 0 && Timed(es, t)
    ensures Sound(lim, AfterAll(lim, None, es), t)
  {
    if es != [] {
      var e := es[|es| - 1];
      var v := AfterAll(lim, None, es[..|es| - 1]);
      StaysSound(lim, es[..|es| - 1], Start(e));
      if e.Hit? && v.Some? {
        Earned(lim.rate, e.since - v.value.lastSeen);
      }
    }
  }

  lemma Earned(rate: int, d: int)
    requires rate >= 0 && d >= 0
    ensures WholeSeconds(d) * rate >= 0
  {
  }

  /* ---------- cleanup is transparent ---------- */

  /** The evicting bucket is the other one, or the other one would be full at the next call. */
  predicate Alike(v: Option<Visitor>, full: Option<Visitor>, t: int) {
    v == full || (v.None? && full.Some? && Stale(full.value, t))
  }

  /** A stale visitor is full again, so that evicting it makes no difference. */
  lemma StaleIsFull(lim: Limits, v: Visitor, since: int)
    requires 1 <= lim.burst <= 300 * lim.rate && v.tokens >= 0 && Stale(v, since)
    ensures Refilled(lim, v, since) == lim.burst
  {
    var w := WholeSeconds(since - v.lastSeen);
    assert w >= 300;
    assert w * lim.rate >= 300 * lim.rate;
  }

  lemma {:induction false} StaysAlike(lim: Limits, es: seq<Event>, t: int)
    requires 1 <= lim.burst <= 300 * lim.rate && Timed(es, t)
    ensures Alike(AfterAll(lim, None, es), AfterAll(lim, None, Hits(es)), t)
  {
    if es != [] {
      var e := es[|es| - 1];
      var front := es[..|es| - 1];
      StaysAlike(lim, front, Start(e));
      HitsTimed(front, Start(e));
      StaysSound(lim, Hits(front), Start(e));
      var full := AfterAll(lim, None, Hits(front));
      if e.Hit? {
        assert (Hits(front) + [e])[..|Hits(front)|] == Hits(front);
        if full.Some? && Stale(full.value, e.since) {
          StaleIsFull(lim, full.value, e.since);
        }
      } else {
        assert Hits(front) + [] == Hits(front);
      }
    }
  }

  /** Whether a call is admitted does not depend on the cleanup runs before it. */
  lemma SameAnswer(lim: Limits, es: seq<Event>, since: int)
    requires 1 <= lim.burst <= 300 * lim.rate && Timed(es, since)
    ensures Admits(lim, AfterAll(lim, None, es), since) == Admits(lim, AfterAll(lim, None, Hits(es)), since)
  {
    StaysAlike(lim, es, since);
    HitsTimed(es, since);
    StaysSound(lim, Hits(es), since);
    var full := AfterAll(lim, None, Hits(es));
    if full.Some? && Stale(full.value, since) {
      StaleIsFull(lim, full.value, since);
    }
  }

  /* ---------- and otherwise it is not ---------- */

  /** `n` calls at one instant. */
  function Volley(n: nat, t: int): seq<Event> {
    seq(n, _ => Hit(t, t))
  }

  lemma {:induction false} AfterConcat(lim: Limits, v: Option<Visitor>, a: seq<Event>, b: seq<Event>)
    ensures AfterAll(lim, v, a + b) == AfterAll(lim, AfterAll(lim, v, a), b)
  {
    if b == [] {
      assert a + b == a;
    } else {
      assert (a + b)[..|a + b| - 1] == a + b[..|b| - 1];
      AfterConcat(lim, v, a, b[..|b| - 1]);
    }
  }

  /** A volley takes one token a call from a bucket that has them. */
  lemma {:induction false} Drain(lim: Limits, v: Option<Visitor>, n: nat, t: int)
    requires v.None? ==> 1 <= n <= lim.burst
    requires v.Some? ==> n <= v.value.tokens <= lim.burst && v.value.lastSeen == t
    ensures AfterAll(lim, v, Volley(n, t)) ==
            if v.None? then Some(Visitor(lim.burst - n, t)) else Some(Visitor(v.value.tokens - n, t))
  {
    if n > 0 {
      assert Volley(n, t)[..n - 1] == Volley(n - 1, t);
      if v.None? && n == 1 {
        assert AfterAll(lim, v, Volley(0, t)) == v;
      } else {
        Drain(lim, v, n - 1, t);
      }
    }
  }

  lemma {:induction false} VolleyTimed(n: nat, t: int, u: int)
    requires t <= u
    ensures Timed(Volley(n, t), u) && Hits(Volley(n, t)) == Volley(n, t)
  {
    if n > 0 {
      assert Volley(n, t)[..n - 1] == Volley(n - 1, t);
      VolleyTimed(n - 1, t, t);
      assert Volley(n, t) == Volley(n - 1, t) + [Hit(t, t)];
    }
  }

  lemma {:induction false} TimedConcat(a: seq<Event>, b: seq<Event>, s: int, t: int)
    requires Timed(a, s) && Timed(b, t) && s <= t && forall k :: 0 <= k < |b| ==> s <= Start(b[k])
    ensures Timed(a + b, t)
  {
    if b == [] {
      assert a + b == a;
      TimedLater(a, s, t);
    } else {
      var e := b[|b| - 1];
      assert (a + b)[..|a + b| - 1] == a + b[..|b| - 1];
      TimedConcat(a, b[..|b| - 1], s, Start(e));
    }
  }

  lemma {:induction false} HitsConcat(a: seq<Event>, b: seq<Event>)
    ensures Hits(a + b) == Hits(a) + Hits(b)
  {
    if b == [] {
      assert a + b == a;
    } else {
      assert (a + b)[..|a + b| - 1] == a + b[..|b| - 1];
      HitsConcat(a, b[..|b| - 1]);
    }
  }

  /** The time a visitor is first stale after a call at time 0. */
  const LATER := STALE + 1

  /** Spend the burst, wait until stale, pass or not, and spend what 300 seconds have earned. */
  function Probe(lim: Limits): seq<Event>
    requires lim.burst >= 1
  {
    Volley(lim.burst, 0) + [Pass(LATER)] + Volley(Max(0, 300 * lim.rate) as nat, LATER)
  }

  lemma ProbeTimed(lim: Limits)
    requires lim.burst >= 1
    ensures Timed(Probe(lim), LATER)
    ensures Hits(Probe(lim)) == Volley(lim.burst, 0) + Volley(Max(0, 300 * lim.rate) as nat, LATER)
  {
    var n := Max(0, 300 * lim.rate) as nat;
    var a := Volley(lim.burst, 0);
    var b := Volley(n, LATER);
    VolleyTimed(lim.burst, 0, 0);
    VolleyTimed(n, LATER, LATER);
    assert [Pass(LATER)][..0] == [];
    assert Timed([Pass(LATER)], LATER);
    TimedConcat(a, [Pass(LATER)], 0, LATER);
    TimedConcat(a + [Pass(LATER)], b, LATER, LATER);
    HitsConcat(a, [Pass(LATER)]);
    HitsConcat(a + [Pass(LATER)], b);
    assert Hits([Pass(LATER)]) == [];
    assert a + [] == a;
  }

  /** With cleanup the probed visitor is forgotten, starts full, and still has a token. */
  lemma ProbeWithCleanup(lim: Limits)
    requires lim.burst >= 1 && lim.burst > 300 * lim.rate
    ensures Admits(lim, AfterAll(lim, None, Probe(lim)), LATER)
  {
    var n := Max(0, 300 * lim.rate) as nat;
    var a := Volley(lim.burst, 0);
    Drain(lim, None, lim.burst, 0);
    AfterConcat(lim, None, a, [Pass(LATER)]);
    assert [Pass(LATER)][..0] == [];
    AfterConcat(lim, None, a + [Pass(LATER)], Volley(n, LATER));
    if n == 0 {
      assert AfterAll(lim, None, Volley(n, LATER)) == None;
    } else {
      Drain(lim, None, n, LATER);
    }
  }

  /** If 300 seconds earn less than the burst, the probe tells a limiter with cleanup from one without. */
  lemma ProbeTells(lim: Limits)
    requires lim.burst >= 1 && lim.burst > 300 * lim.rate
    ensures Admits(lim, AfterAll(lim, None, Probe(lim)), LATER)
    ensures !Admits(lim, AfterAll(lim, None, Hits(Probe(lim))), LATER)
  {
    var n := Max(0, 300 * lim.rate) as nat;
    ProbeWithCleanup(lim);
    ProbeTimed(lim);
    Drain(lim, None, lim.burst, 0);
    AfterConcat(lim, None, Volley(lim.burst, 0), Volley(n, LATER));
    Earning(lim, n);
  }

  /** An empty bucket that waits until it is stale admits what it has earned, and no more. */
  lemma Earning(lim: Limits, n: nat)
    requires lim.burst >= 1 && lim.burst > 300 * lim.rate && n == Max(0, 300 * lim.rate)
    ensures !Admits(lim, AfterAll(lim, Some(Visitor(0, 0)), Volley(n, LATER)), LATER)
  {
    var empty := Some(Visitor(0, 0));
    assert WholeSeconds(LATER) == 300;
    if n == 0 {
      assert AfterAll(lim, empty, Volley(0, LATER)) == empty;
    } else {
      var first := Some(AfterCall(lim, empty, LATER, LATER));
      assert first == Some(Visitor(n - 1, LATER));
      assert Volley(n, LATER) == [Hit(LATER, LATER)] + Volley(n - 1, LATER);
      AfterConcat(lim, empty, [Hit(LATER, LATER)], Volley(n - 1, LATER));
      assert [Hit(LATER, LATER)][..0] == [];
      assert AfterAll(lim, empty, [Hit(LATER, LATER)]) == first;
      Drain(lim, first, n - 1, LATER);
    }
  }

  /** With no burst at all, a visitor is admitted once, and again whenever it was forgotten. */
  lemma NoBurstTells(lim: Limits)
    requires lim.burst < 1
    ensures var es := [Hit(0, 0), Pass(LATER)];
            && Timed(es, LATER) && Admits(lim, AfterAll(lim, None, es), LATER)
            && !Admits(lim, AfterAll(lim, None, Hits(es)), LATER)
  {
    var es := [Hit(0, 0), Pass(LATER)];
    assert es[..1] == [Hit(0, 0)] && [Hit(0, 0)][..0] == [];
    assert Hits([]) + [Hit(0, 0)] == [Hit(0, 0)];
    assert Hits(es) == [Hit(0, 0)];
  }

  /* ---------- an exact bucket admits at least as much ---------- */

  /** A bucket that keeps fractions of tokens. */
  datatype Exact = Exact(level: real, at: int)

  /** The tokens a duration earns, to the nanosecond. */
  function Gain(rate: int, d: int): real {
    d as real / NANOS as real * rate as real
  }

  function Level(lim: Limits, x: Exact, since: int): real {
    var level := x.level + Gain(lim.rate, since - x.at);
    if level > lim.burst as real then lim.burst as real else level
  }

  predicate ExactAdmits(lim: Limits, x: Option<Exact>, since: int) {
    x.None? || Level(lim, x.value, since) >= 1.0
  }

  function ExactAfter(lim: Limits, x: Option<Exact>, since: int): Exact {
    match x
    case None => Exact(lim.burst as real - 1.0, since)
    case Some(y) =>
      var level := Level(lim, y, since);
      Exact(if level >= 1.0 then level - 1.0 else level, since)
  }

  function ExactAfterAll(lim: Limits, es: seq<Event>): Option<Exact> {
    if es == [] then None
    else
      var x := ExactAfterAll(lim, es[..|es| - 1]);
      if es[|es| - 1].Hit? then Some(ExactAfter(lim, x, es[|es| - 1].since)) else x
  }

  predicate OnlyHits(es: seq<Event>) {
    forall k :: 0 <= k < |es| ==> es[k].Hit?
  }

  /** Whole seconds earn no more than exact time does. */
  lemma ExactEarnsMore(rate: int, d: int)
    requires rate >= 0 && d >= 0
    ensures (WholeSeconds(d) * rate) as real <= Gain(rate, d)
  {
    var w := WholeSeconds(d);
    assert w * NANOS <= d;
    assert w as real <= d as real / NANOS as real;
    assert w as real * rate as real <= d as real / NANOS as real * rate as real;
  }

  lemma ExactWaitsMore(rate: int, d: int, e: int)
    requires rate >= 0 && 0 <= d <= e
    ensures Gain(rate, d) <= Gain(rate, e)
  {
    assert d as real / NANOS as real <= e as real / NANOS as real;
  }

  /** The exact bucket is never behind. */
  predicate Ahead(lim: Limits, v: Option<Visitor>, x: Option<Exact>) {
    && (v.None? <==> x.None?)
    && (v.Some? ==> v.value.tokens as real <= x.value.level && x.value.at <= v.value.lastSeen)
  }

  lemma CappedSums(tokens: int, earned: int, cap: int, level: real, gain: real)
    requires tokens as real <= level && earned as real <= gain
    ensures (if tokens + earned > cap then cap else tokens + earned) as real
            <= if level + gain > cap as real then cap as real else level + gain
  {
  }

  lemma LevelAhead(lim: Limits, v: Visitor, x: Exact, since: int)
    requires lim.rate >= 0 && Ahead(lim, Some(v), Some(x)) && v.lastSeen <= since
    ensures Refilled(lim, v, since) as real <= Level(lim, x, since)
  {
    ExactEarnsMore(lim.rate, since - v.lastSeen);
    ExactWaitsMore(lim.rate, since - v.lastSeen, since - x.at);
    CappedSums(v.tokens, WholeSeconds(since - v.lastSeen) * lim.rate, lim.burst, x.level, Gain(lim.rate, since - x.at));
  }

  lemma {:induction false} SeenBefore(lim: Limits, es: seq<Event>, t: int)
    requires Timed(es, t)
    ensures AfterAll(lim, None, es).Some? ==> AfterAll(lim, None, es).value.lastSeen <= t
  {
    if es != [] {
      SeenBefore(lim, es[..|es| - 1], Start(es[|es| - 1]));
    }
  }

  lemma {:induction false} StaysAhead(lim: Limits, es: seq<Event>, t: int)
    requires lim.rate >= 0 && Timed(es, t) && OnlyHits(es)
    ensures Ahead(lim, AfterAll(lim, None, es), ExactAfterAll(lim, es))
  {
    if es != [] {
      var e := es[|es| - 1];
      var front := es[..|es| - 1];
      StaysAhead(lim, front, Start(e));
      SeenBefore(lim, front, Start(e));
      var v := AfterAll(lim, None, front);
      if v.Some? {
        LevelAhead(lim, v.value, ExactAfterAll(lim, front).value, e.since);
      }
    }
  }

  /**
   On any sequence of calls, a call that the integer bucket admits is also admitted by the exact
   bucket, which keeps fractions and decides every call for itself.
  */
  lemma ExactAdmitsToo(lim: Limits, es: seq<Event>, since: int)
    requires lim.rate >= 0 && Timed(es, since) && OnlyHits(es)
    requires Admits(lim, AfterAll(lim, None, es), since)
    ensures ExactAdmits(lim, ExactAfterAll(lim, es), since)
  {
    StaysAhead(lim, es, since);
    SeenBefore(lim, es, since);
    var v := AfterAll(lim, None, es);
    if v.Some? {
      LevelAhead(lim, v.value, ExactAfterAll(lim, es).value, since);
    }
  }

  /* ---------- how much is admitted ---------- */

  /** The calls among `es` that are admitted, starting from `v`. */
  function Admitted(lim: Limits, v: Option<Visitor>, es: seq<Event>): nat {
    if es == [] then 0
    else
      var e := es[|es| - 1];
      var front := es[..|es| - 1];
      Admitted(lim, v, front) + if e.Hit? && Admits(lim, AfterAll(lim, v, front), e.since) then 1 else 0
  }

  lemma {:induction false} AdmittedConcat(lim: Limits, v: Option<Visitor>, a: seq<Event>, b: seq<Event>)
    ensures Admitted(lim, v, a + b) == Admitted(lim, v, a) + Admitted(lim, AfterAll(lim, v, a), b)
  {
    if b == [] {
      assert a + b == a;
    } else {
      assert (a + b)[..|a + b| - 1] == a + b[..|b| - 1];
      AdmittedConcat(lim, v, a, b[..|b| - 1]);
      AfterConcat(lim, v, a, b[..|b| - 1]);
    }
  }

  /** Truncating every wait loses at least as much as truncating the whole. */
  lemma SecondsAdd(rate: int, c: int, d: int, e: int)
    requires rate >= 0 && c >= 0 && d >= 0 && c + d <= e
    ensures WholeSeconds(c) * rate + WholeSeconds(d) * rate <= WholeSeconds(e) * rate
  {
    assert WholeSeconds(c) + WholeSeconds(d) <= WholeSeconds(e);
    assert (WholeSeconds(c) + WholeSeconds(d)) * rate <= WholeSeconds(e) * rate;
  }

  /** Tokens at the start and tokens earned since pay for the admitted calls and the tokens left. */
  lemma {:induction false} TokensPay(lim: Limits, v: Visitor, es: seq<Event>, t: int)
    requires lim.burst >= 1 && lim.rate >= 0 && 0 <= v.tokens <= lim.burst
    requires Timed(es, t) && OnlyHits(es) && v.lastSeen <= t && forall k :: 0 <= k < |es| ==> v.lastSeen <= Start(es[k])
    ensures var u := AfterAll(lim, Some(v), es);
            && u.Some? && 0 <= u.value.tokens <= lim.burst && v.lastSeen <= u.value.lastSeen <= t
            && Admitted(lim, Some(v), es) + u.value.tokens
               <= v.tokens + WholeSeconds(u.value.lastSeen - v.lastSeen) * lim.rate
  {
    if es != [] {
      var e := es[|es| - 1];
      var front := es[..|es| - 1];
      TokensPay(lim, v, front, Start(e));
      var u := AfterAll(lim, Some(v), front).value;
      Earned(lim.rate, e.since - u.lastSeen);
      SecondsAdd(lim.rate, u.lastSeen - v.lastSeen, e.since - u.lastSeen, e.stamp - v.lastSeen);
    }
  }

  lemma SecondsGrow(rate: int, d: int, e: int)
    requires rate >= 0 && 0 <= d <= e
    ensures WholeSeconds(d) * rate <= WholeSeconds(e) * rate
  {
    SecondsAdd(rate, 0, d, e);
    assert WholeSeconds(0) * rate == 0;
  }

  /** The first call of a window finds at most the burst. */
  lemma FirstPays(lim: Limits, v: Option<Visitor>, first: Event, t: int)
    requires lim.burst >= 1 && lim.rate >= 0 && Sound(lim, v, t) && first.Hit? && t <= first.since <= first.stamp
    ensures var u := AfterAll(lim, v, [first]);
            && u == Some(AfterCall(lim, v, first.since, first.stamp)) && u.value.lastSeen == first.stamp
            && u.value.tokens >= 0 && Admitted(lim, v, [first]) + u.value.tokens <= lim.burst
  {
    assert [first][..0] == [];
    if v.Some? {
      Earned(lim.rate, first.since - v.value.lastSeen);
    }
  }

  /** The calls after the first find what is left, and what the window earns. */
  lemma RestPays(lim: Limits, v: Visitor, es: seq<Event>, from: int, to: int)
    requires lim.burst >= 1 && lim.rate >= 0 && 0 <= v.tokens <= lim.burst && from <= v.lastSeen <= to
    requires Timed(es, to) && OnlyHits(es) && forall k :: 0 <= k < |es| ==> v.lastSeen <= Start(es[k])
    ensures Admitted(lim, Some(v), es) <= v.tokens + WholeSeconds(to - from) * lim.rate
  {
    TokensPay(lim, v, es, to);
    SecondsGrow(lim.rate, AfterAll(lim, Some(v), es).value.lastSeen - v.lastSeen, to - from);
  }

  /** The bound for a limiter that never evicts, from any state its runs can reach. */
  lemma HitsBound(lim: Limits, v: Option<Visitor>, win: seq<Event>, from: int, to: int)
    requires lim.burst >= 1 && lim.rate >= 0 && Sound(lim, v, from) && from <= to
    requires Timed(win, to) && OnlyHits(win) && forall k :: 0 <= k < |win| ==> from <= Start(win[k])
    ensures Admitted(lim, v, win) <= lim.burst + WholeSeconds(to - from) * lim.rate
  {
    Earned(lim.rate, to - from);
    if win != [] {
      var first := win[0];
      var rest := win[1..];
      assert win == [first] + rest && first.Hit?;
      FirstOfTimed(win, to);
      AdmittedConcat(lim, v, [first], rest);
      FirstPays(lim, v, first, from);
      RestPays(lim, AfterAll(lim, v, [first]).value, rest, from, to);
    }
  }

  /** What is timed after its first event starts after that event. */
  lemma {:induction false} FirstOfTimed(es: seq<Event>, t: int)
    requires Timed(es, t) && es != []
    ensures Timed(es[1..], t) && Start(es[0]) <= End(es[0]) <= t
    ensures forall k :: 0 <= k < |es[1..]| ==> End(es[0]) <= Start(es[1..][k])
  {
    if |es| > 1 {
      var e := es[|es| - 1];
      var front := es[..|es| - 1];
      FirstOfTimed(front, Start(e));
      assert es[1..][..|es| - 2] == front[1..];
    }
  }

  lemma {:induction false} TimedSuffix(a: seq<Event>, b: seq<Event>, t: int)
    requires Timed(a + b, t)
    ensures Timed(b, t)
    decreases |b|
  {
    if b != [] {
      assert (a + b)[..|a + b| - 1] == a + b[..|b| - 1];
      TimedSuffix(a, b[..|b| - 1], Start(b[|b| - 1]));
    }
  }

  /** Evictions before and inside a window do not change what the window admits. */
  lemma {:induction false} SameAdmitted(lim: Limits, pre: seq<Event>, win: seq<Event>, t: int)
    requires 1 <= lim.burst <= 300 * lim.rate && Timed(pre + win, t)
    ensures Admitted(lim, AfterAll(lim, None, pre), win) == Admitted(lim, AfterAll(lim, None, Hits(pre)), Hits(win))
    decreases |win|
  {
    if win != [] {
      var e := win[|win| - 1];
      var front := win[..|win| - 1];
      assert (pre + win)[..|pre + win| - 1] == pre + front;
      SameAdmitted(lim, pre, front, Start(e));
      if e.Hit? {
        SameAnswer(lim, pre + front, e.since);
        AfterConcat(lim, None, pre, front);
        HitsConcat(pre, front);
        AfterConcat(lim, None, Hits(pre), Hits(front));
        assert (Hits(front) + [e])[..|Hits(front)|] == Hits(front);
      } else {
        assert Hits(front) + [] == Hits(front);
      }
    }
  }

  lemma {:induction false} HitsInside(es: seq<Event>, from: int)
    requires forall k :: 0 <= k < |es| ==> from <= Start(es[k])
    ensures OnlyHits(Hits(es)) && forall k :: 0 <= k < |Hits(es)| ==> from <= Start(Hits(es)[k])
  {
    if es != [] {
      HitsInside(es[..|es| - 1], from);
    }
  }

  /**
   In any window of a visitor's calls, with any evictions before or during it, at most the burst
   plus the rate times the whole seconds of the window is admitted.
  */
  lemma AdmissionBound(lim: Limits, pre: seq<Event>, win: seq<Event>, from: int, to: int)
    requires 1 <= lim.burst <= 300 * lim.rate && from <= to
    requires Timed(pre, from) && Timed(pre + win, to) && forall k :: 0 <= k < |win| ==> from <= Start(win[k])
    ensures Admitted(lim, AfterAll(lim, None, pre), win) <= lim.burst + WholeSeconds(to - from) * lim.rate
  {
    SameAdmitted(lim, pre, win, to);
    HitsTimed(pre, from);
    StaysSound(lim, Hits(pre), from);
    TimedSuffix(pre, win, to);
    HitsTimed(win, to);
    HitsInside(win, from);
    HitsBound(lim, AfterAll(lim, None, Hits(pre)), Hits(win), from, to);
  }
}
