/**
 * The training-task record shared by the intake endpoint and the vector
 * worker: what a batch item becomes once it is inserted into the training
 * collection, and the lease timestamp the worker uses to claim it.
 */
module Training {
  import opened Results

  /** Identities (team, member, dataset, collection, task, bill) are opaque strings. */
  type Id = string

  /** The training modes the training-type map knows. */
  datatype Mode = Chunk | Qa

  /** The wire name of a mode. */
  function ModeName(m: Mode): (name: string)
    ensures ParseMode(name) == Some(m)
  {
    match m
    case Chunk => "chunk"
    case Qa => "qa"
  }

  /** Looks a request's `mode` string up in the training-type map. */
  function ParseMode(name: string): (m: Option<Mode>)
    ensures m == Some(Chunk) <==> name == "chunk"
    ensures m == Some(Qa) <==> name == "qa"
    ensures m.None? <==> name != "chunk" && name != "qa"
  {
    if name == "chunk" then Some(Chunk)
    else if name == "qa" then Some(Qa)
    else None
  }

  /**
   * The fields an inserted training task carries. `indexes` is passed
   * through unchanged from the submitted item to the vector insert, so its
   * inner structure is kept abstract as a sequence of strings.
   */
  datatype TaskData = TaskData(
    teamId: Id,
    tmbId: Id,
    datasetId: Id,
    collectionId: Id,
    billId: Option<Id>,
    mode: Mode,
    prompt: Option<string>,
    model: string,
    q: string,
    a: Option<string>,
    indexes: seq<string>)

  /** A stored task: its data plus the lease timestamp `lockTime`, in ms since the epoch. */
  datatype Task = Task(data: TaskData, lockTime: int)

  /** The durable training collection, keyed by task id. */
  type Store = map<Id, Task>
}
