/** Priorities and stream names, and the producers that use them. */
module Routing {
  import opened Tasks

  const HIGH := "high"
  const LOW := "low"

  function HighStream(base: string): string { base + "_high" }
  function LowStream(base: string): string { base + "_low" }
  function DlqStream(base: string): string { base + "_dlq" }

  /** The stream of a priority; any other priority, and none, means the base stream. */
  function StreamFor(base: string, priority: string): string {
    if priority == HIGH then HighStream(base)
    else if priority == LOW then LowStream(base)
    else base
  }

  /** The streams a priority consumer reads, most urgent first. */
  function Streams(base: string): seq<string> {
    [HighStream(base), base, LowStream(base)]
  }

  /** The four stream names are different, whatever the base name is. */
  lemma NamesDiffer(base: string)
    ensures HighStream(base) != base && LowStream(base) != base && DlqStream(base) != base
    ensures HighStream(base) != LowStream(base)
    ensures DlqStream(base) != HighStream(base) && DlqStream(base) != LowStream(base)
  {
    var n := |base|;
    assert HighStream(base)[n + 1] == 'h' && LowStream(base)[n + 1] == 'l' && DlqStream(base)[n + 1] == 'd';
    assert |HighStream(base)| > n && |LowStream(base)| > n && |DlqStream(base)| > n;
  }

  /** Every priority has one of the streams that are read, and no task is routed to the dead-letter stream. */
  lemma RoutedToRead(base: string, priority: string)
    ensures StreamFor(base, priority) in Streams(base)
    ensures StreamFor(base, priority) != DlqStream(base)
  {
    NamesDiffer(base);
    assert Streams(base)[0] == HighStream(base) && Streams(base)[1] == base && Streams(base)[2] == LowStream(base);
  }

  type Store = map<string, seq<Task>>

  function Contents(store: Store, stream: string): seq<Task> {
    if stream in store then store[stream] else []
  }

  /** A producer: to one stream, or, with `byPriority`, to the stream of each task's priority. */
  class Producer {
    var store: Store
    var announced: seq<string>
    const base: string
    const byPriority: bool

    constructor (base: string, byPriority: bool)
      ensures this.base == base && this.byPriority == byPriority && store == map[] && announced == []
    {
      this.base := base;
      this.byPriority := byPriority;
      store := map[];
      announced := [];
    }

    /** Add the task to its stream; announce it only if the add succeeded. */
    method Produce(t: Task, reply: Reply) returns (ok: bool)
      modifies this
      ensures ok == reply.Ok?
      ensures announced == old(announced) + if ok then [t.id] else []
      ensures forall stream :: Contents(store, stream) ==
                Contents(old(store), stream)
                + if reply.Landed() && stream == (if byPriority then StreamFor(base, t.priority) else base) then [t]
                  else []
    {
      var stream := base;
      if byPriority {
        stream := StreamFor(base, t.priority);
      }
      if reply.Landed() {
        store := store[stream := Contents(store, stream) + [t]];
      }
      if reply.Err? {
        return false;
      }
      announced := announced + [t.id];
      return true;
    }
  }
}
