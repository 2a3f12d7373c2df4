/** The data that travels through the queue: tasks, the bodies of stream entries, events. */
module Tasks {

  datatype Option<+T> = None | Some(value: T)

  /** A unit of work. Only `currentRetries` and `error` are ever rewritten by the queue. */
  datatype Task = Task(
    id: string, kind: string, payload: string, createdAt: int,
    maxRetries: int, currentRetries: int, error: string,
    key: string, priority: string, timeout: Option<int>)

  /** What a stream entry can hold: an entry without a string payload, a payload that is not
      a task, or an encoded task. Encoding is taken to round-trip. */
  datatype Body = NoPayload | BadJson | Encoded(task: Task)

  /** Reading a body back, as every consumer of a stream does before anything else. */
  function Decode(body: Body): Option<Task> {
    if body.Encoded? then Some(body.task) else None
  }

  datatype EventKind = PendingEvent | ProcessingEvent | FailedEvent | DlqEvent | CompletedEvent

  /** The reply of a remote call. A call that reports an error may still have taken effect. */
  datatype Reply = Ok | Err(landed: bool) {
    predicate Landed() { Ok? || landed }
  }

  function Max(a: int, b: int): int {
    if a < b then b else a
  }

  /** The number of times a task may still be put back on the stream after a failure. */
  function RetriesLeft(t: Task): nat {
    Max(0, t.maxRetries - t.currentRetries) as nat
  }

  /** Agreement on everything the queue must never rewrite. */
  ghost predicate SameCore(t: Task, u: Task) {
    t.(currentRetries := 0, error := "") == u.(currentRetries := 0, error := "")
  }
}
