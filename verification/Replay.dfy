/** The HTTP handler that puts dead-letter tasks back on the main stream, as one loop. */
module ReplayHandler {
  import opened Sequences
  import opened Tasks

  datatype Message = Message(id: nat, body: Body)

  datatype Response = MethodNotAllowed | Unauthorized | ReadFailed | Retried(count: nat)

  /** What the store replied to the handler for one message. */
  datatype Replies = Replies(add: Reply, delete: Reply)

  /** The message without the retries it has spent, as it goes back to the main stream. */
  function Reset(body: Body): Task
    requires body.Encoded?
  {
    body.task.(currentRetries := 0)
  }

  /** The tasks that reach the main stream, in order. */
  function Stored(ms: seq<Message>, rs: seq<Replies>): seq<Task>
    requires |ms| == |rs|
  {
    if ms == [] then []
    else
      var n := |ms| - 1;
      Stored(ms[..n], rs[..n]) + if ms[n].body.Encoded? && rs[n].add.Landed() then [Reset(ms[n].body)] else []
  }

  predicate Deleted(m: Message, r: Replies) {
    m.body.Encoded? && r.add.Ok? && r.delete.Landed()
  }

  /** The messages that stay on the dead-letter stream, in order. */
  function Left(ms: seq<Message>, rs: seq<Replies>): seq<Message>
    requires |ms| == |rs|
  {
    if ms == [] then []
    else
      var n := |ms| - 1;
      Left(ms[..n], rs[..n]) + if Deleted(ms[n], rs[n]) then [] else [ms[n]]
  }

  /** The IDs of the tasks reported as retried, in order. */
  function Reported(ms: seq<Message>, rs: seq<Replies>): seq<string>
    requires |ms| == |rs|
  {
    if ms == [] then []
    else
      var n := |ms| - 1;
      Reported(ms[..n], rs[..n]) + if ms[n].body.Encoded? && rs[n].add.Ok? then [ms[n].body.task.id] else []
  }

  predicate DistinctIds(ms: seq<Message>) {
    forall a, b :: 0 <= a < b < |ms| ==> ms[a].id != ms[b].id
  }

  /** The stream without the message of that ID. */
  function Without(ms: seq<Message>, id: nat): seq<Message> {
    if ms == [] then []
    else Without(ms[..|ms| - 1], id) + if ms[|ms| - 1].id == id then [] else [ms[|ms| - 1]]
  }

  lemma {:induction false} WithoutAbsent(ms: seq<Message>, id: nat)
    requires forall a :: 0 <= a < |ms| ==> ms[a].id != id
    ensures Without(ms, id) == ms
  {
    if ms != [] {
      WithoutAbsent(ms[..|ms| - 1], id);
    }
  }

  lemma {:induction false} WithoutConcat(a: seq<Message>, b: seq<Message>, id: nat)
    ensures Without(a + b, id) == Without(a, id) + Without(b, id)
  {
    if b == [] {
      assert a + b == a;
    } else {
      assert (a + b)[..|a + b| - 1] == a + b[..|b| - 1];
      WithoutConcat(a, b[..|b| - 1], id);
    }
  }

  lemma WithoutMiddle(a: seq<Message>, m: Message, b: seq<Message>)
    requires forall k :: 0 <= k < |a| ==> a[k].id != m.id
    requires forall k :: 0 <= k < |b| ==> b[k].id != m.id
    ensures Without(a + [m] + b, m.id) == a + b
  {
    WithoutConcat(a + [m], b, m.id);
    WithoutConcat(a, [m], m.id);
    WithoutAbsent(a, m.id);
    WithoutAbsent(b, m.id);
    assert Without([m], m.id) == [] by {
      assert [m][..0] == [];
    }
    assert a + [] == a;
  }

  lemma {:induction false} LeftFrom(ms: seq<Message>, rs: seq<Replies>, k: nat)
    requires |ms| == |rs| && k < |Left(ms, rs)|
    ensures Left(ms, rs)[k] in ms
  {
    var n := |ms| - 1;
    if k < |Left(ms[..n], rs[..n])| {
      LeftFrom(ms[..n], rs[..n], k);
    }
  }

  /** The three accounts of the messages up to and including the one at `i`. */
  lemma UpTo(ms: seq<Message>, rs: seq<Replies>, i: nat)
    requires |ms| == |rs| && i < |ms|
    ensures Stored(ms[..i + 1], rs[..i + 1])
         == Stored(ms[..i], rs[..i]) + if ms[i].body.Encoded? && rs[i].add.Landed() then [Reset(ms[i].body)] else []
    ensures Left(ms[..i + 1], rs[..i + 1]) == Left(ms[..i], rs[..i]) + if Deleted(ms[i], rs[i]) then [] else [ms[i]]
    ensures Reported(ms[..i + 1], rs[..i + 1])
         == Reported(ms[..i], rs[..i]) + if ms[i].body.Encoded? && rs[i].add.Ok? then [ms[i].body.task.id] else []
  {
    assert ms[..i + 1][..i] == ms[..i] && rs[..i + 1][..i] == rs[..i];
  }

  /** Deleting the message at `i` from what is left of the snapshot removes that message only. */
  lemma DeleteAt(ms: seq<Message>, rs: seq<Replies>, i: nat)
    requires |ms| == |rs| && i < |ms| && DistinctIds(ms)
    ensures var left := Left(ms[..i], rs[..i]);
            Without(left + ms[i..], ms[i].id) == left + ms[i + 1..]
  {
    var left := Left(ms[..i], rs[..i]);
    forall k | 0 <= k < |left|
      ensures left[k].id != ms[i].id
    {
      LeftFrom(ms[..i], rs[..i], k);
    }
    WithoutMiddle(left, ms[i], ms[i + 1..]);
    assert left + ms[i..] == left + [ms[i]] + ms[i + 1..];
  }

  /** What is left of the snapshot after the message at `i`, from what was left before it. */
  lemma LeftAfter(ms: seq<Message>, rs: seq<Replies>, i: nat)
    requires |ms| == |rs| && i < |ms| && DistinctIds(ms)
    ensures var before := Left(ms[..i], rs[..i]) + ms[i..];
            Left(ms[..i + 1], rs[..i + 1]) + ms[i + 1..]
            == if Deleted(ms[i], rs[i]) then Without(before, ms[i].id) else before
  {
    UpTo(ms, rs, i);
    DeleteAt(ms, rs, i);
    assert ms[i..] == [ms[i]] + ms[i + 1..];
  }

  class Server {
    var main: seq<Task>
    var dlq: seq<Message>
    var announced: seq<string>
    const apiKey: string

    constructor (apiKey: string, main: seq<Task>, dlq: seq<Message>)
      ensures this.apiKey == apiKey && this.main == main && this.dlq == dlq && announced == []
    {
      this.apiKey := apiKey;
      this.main := main;
      this.dlq := dlq;
      announced := [];
    }

    method Add(t: Task, reply: Reply)
      modifies this`main
      ensures main == old(main) + if reply.Landed() then [t] else []
    {
      if reply.Landed() {
        main := main + [t];
      }
    }

    method Delete(id: nat, reply: Reply)
      modifies this`dlq
      ensures dlq == if reply.Landed() then Without(old(dlq), id) else old(dlq)
    {
      if reply.Landed() {
        dlq := Without(dlq, id);
      }
    }

    /** One message of a replay: put it back, and delete it if that worked. */
    method RetryOne(msg: Message, r: Replies) returns (ok: bool)
      modifies this
      ensures ok == (msg.body.Encoded? && r.add.Ok?)
      ensures main == old(main) + if msg.body.Encoded? && r.add.Landed() then [Reset(msg.body)] else []
      ensures dlq == if Deleted(msg, r) then Without(old(dlq), msg.id) else old(dlq)
      ensures announced == old(announced) + if ok then [msg.body.task.id] else []
    {
      match Decode(msg.body) {
        case None => return false;
        case Some(u) =>
          var t := u;
          t := t.(currentRetries := 0);
          Add(t, r.add);
          if r.add.Err? {
            return false;
          }
          Delete(msg.id, r.delete);
          announced := announced + [t.id];
          return true;
      }
    }

    /** Every message of the dead-letter stream as it is now, in order. */
    method RetryAll(rs: seq<Replies>) returns (retried: nat)
      requires DistinctIds(dlq) && |rs| == |dlq|
      modifies this
      ensures retried == |Reported(old(dlq), rs)|
      ensures announced == old(announced) + Reported(old(dlq), rs)
      ensures main == old(main) + Stored(old(dlq), rs)
      ensures dlq == Left(old(dlq), rs)
    {
      var messages := dlq;
      ghost var main0, announced0 := main, announced;
      retried := 0;
      for i := 0 to |messages|
        invariant main == main0 + Stored(messages[..i], rs[..i])
        invariant dlq == Left(messages[..i], rs[..i]) + messages[i..]
        invariant announced == announced0 + Reported(messages[..i], rs[..i])
        invariant retried == |Reported(messages[..i], rs[..i])|
      {
        UpTo(messages, rs, i);
        LeftAfter(messages, rs, i);
        var ok := RetryOne(messages[i], rs[i]);
        if ok {
          retried := retried + 1;
        }
        Assoc(main0, Stored(messages[..i], rs[..i]),
              if messages[i].body.Encoded? && rs[i].add.Landed() then [Reset(messages[i].body)] else []);
        Assoc(announced0, Reported(messages[..i], rs[..i]), if ok then [messages[i].body.task.id] else []);
      }
      assert messages[..|messages|] == messages && rs[..|rs|] == rs;
    }

    /**
     Replay the dead-letter stream. `readOk` says whether the stream could be read, `rs[i]` what
     the store replies for its message `i`.
    */
    method HandleRetryDlq(isPost: bool, authorization: string, readOk: bool, rs: seq<Replies>)
      returns (response: Response)
      requires DistinctIds(dlq) && |rs| == |dlq|
      modifies this
      ensures response.MethodNotAllowed? <==> !isPost
      ensures response.Unauthorized? <==> isPost && apiKey != "" && authorization != "Bearer " + apiKey
      ensures response.ReadFailed? <==> isPost && (apiKey == "" || authorization == "Bearer " + apiKey) && !readOk
      ensures !response.Retried? ==> main == old(main) && dlq == old(dlq) && announced == old(announced)
      ensures response.Retried? ==>
                && response.count == |Reported(old(dlq), rs)|
                && announced == old(announced) + Reported(old(dlq), rs)
                && main == old(main) + Stored(old(dlq), rs)
                && dlq == Left(old(dlq), rs)
    {
      if !isPost {
        return MethodNotAllowed;
      }
      if apiKey != "" {
        if authorization != "Bearer " + apiKey {
          return Unauthorized;
        }
      }
      if !readOk {
        return ReadFailed;
      }
      var retried := RetryAll(rs);
      return Retried(retried);
    }
  }

  /* ---------- what the replay does, message by message ---------- */

  /** An add that failed did not happen. */
  predicate HonestAdds(rs: seq<Replies>) {
    forall i :: 0 <= i < |rs| ==> rs[i].add.Ok? || !rs[i].add.landed
  }

  /** When failed adds have no effect, the reported count is the growth of the main stream. */
  lemma {:induction false} CountIsGrowth(ms: seq<Message>, rs: seq<Replies>)
    requires |ms| == |rs| && HonestAdds(rs)
    ensures |Reported(ms, rs)| == |Stored(ms, rs)|
    ensures forall k :: 0 <= k < |Stored(ms, rs)| ==>
              Stored(ms, rs)[k].id == Reported(ms, rs)[k] && Stored(ms, rs)[k].currentRetries == 0
  {
    if ms != [] {
      CountIsGrowth(ms[..|ms| - 1], rs[..|rs| - 1]);
    }
  }

  /** The message at position `i` leaves the dead-letter stream exactly if its add and its delete succeeded. */
  lemma {:induction false} LeavesExactly(ms: seq<Message>, rs: seq<Replies>, i: nat)
    requires |ms| == |rs| && i < |ms| && DistinctIds(ms)
    ensures ms[i] in Left(ms, rs) <==> !Deleted(ms[i], rs[i])
  {
    var n := |ms| - 1;
    var front := Left(ms[..n], rs[..n]);
    if i < n {
      LeavesExactly(ms[..n], rs[..n], i);
      assert ms[i] != ms[n];
    } else {
      forall k | 0 <= k < |front|
        ensures front[k] != ms[n]
      {
        LeftFrom(ms[..n], rs[..n], k);
      }
    }
  }

  /** No task is lost: what is not left on the dead-letter stream has reached the main stream. */
  lemma {:induction false} MovedNotLost(ms: seq<Message>, rs: seq<Replies>, i: nat)
    requires |ms| == |rs| && i < |ms| && ms[i].body.Encoded?
    ensures ms[i] in Left(ms, rs) || Reset(ms[i].body) in Stored(ms, rs)
  {
    var n := |ms| - 1;
    if i < n {
      MovedNotLost(ms[..n], rs[..n], i);
    }
  }
}
