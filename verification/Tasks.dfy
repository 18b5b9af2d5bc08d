/** Identifiers, task records and the small sequence vocabulary shared by every module. */
module Tasks {

  // UUIDs and worker names are only ever compared for equality, so they are opaque tokens here.
  type TaskId = nat
  type WorkerId = nat

  // Queue names stay strings: "*" and "" are treated specially by the broker.
  type QueueName = string

  // A payload is its JSON text.
  type Payload = string

  datatype Option<+T> = None | Some(value: T)

  datatype Status = Pending | InFlight | Done | DeadLettered

  /** The fields of a task at one moment. */
  datatype TaskRecord = TaskRecord(
    id: TaskId,
    queue: QueueName,
    payload: Payload,
    status: Status,
    createdAt: real,
    worker: Option<WorkerId>,
    attempts: nat)

  function NewTask(id: TaskId, queue: QueueName, payload: Payload, createdAt: real, attempts: nat): TaskRecord {
    TaskRecord(id, queue, payload, Pending, createdAt, None, attempts)
  }

  function Bit(b: bool): nat {
    if b then 1 else 0
  }

  ghost predicate NoDup<T>(s: seq<T>) {
    forall i, j :: 0 <= i < j < |s| ==> s[i] != s[j]
  }

  function Elems<T>(s: seq<T>): set<T> {
    set x | x in s
  }

  /** Position of the first occurrence of x, or |s|. */
  function IndexOf<T(==)>(s: seq<T>, x: T): (k: nat)
    ensures k <= |s|
    ensures x in s <==> k < |s|
    ensures k < |s| ==> s[k] == x && x !in s[..k]
  {
    if s == [] then 0
    else if s[0] == x then 0
    else 1 + IndexOf(s[1..], x)
  }

  /** s without its k-th element. */
  function RemoveAt<T>(s: seq<T>, k: nat): seq<T>
    requires k < |s|
  {
    s[..k] + s[k + 1..]
  }

  lemma Regroup<T>(a: seq<T>, b: seq<T>, c: seq<T>)
    ensures a + b + c == a + (b + c)
  {
  }
}
