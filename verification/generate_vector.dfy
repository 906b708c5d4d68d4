/**
 * One iteration of the vector-generation worker `generateVector`: admission
 * against the process counter, the lease claim of one chunk-mode task,
 * sanitisation of its text, the team balance check, the embedding outcome,
 * and the next thing the worker does. The store, the clock, the balance
 * service and the embedding provider are inputs of the step.
 */
module GenerateVector {
  import opened Results
  import opened Training
  import opened QueueCounter

  /** A task is claimable once its lease is at least this old: one minute. */
  const LEASE_MS: int := 60000

  /** The poison lease `2998/5/5`, in ms since the epoch (UTC). */
  const POISON_LOCK: int := 32451321600000

  /** The suspension lease `2999/5/5`, in ms since the epoch (UTC). */
  const SUSPEND_LOCK: int := 32482857600000

  /** The pause before the next iteration after a transient failure. */
  const RETRY_DELAY_MS: nat := 1000

  /** The claim filter: a chunk-mode task whose lease is at least a minute old. */
  predicate Claimable(t: Task, now: int) {
    t.data.mode == Chunk && t.lockTime <= now - LEASE_MS
  }

  /** No task in the store is claimable. */
  predicate NoneClaimable(store: Store, now: int) {
    forall id :: id in store ==> !Claimable(store[id], now)
  }

  /** What the store's atomic find-one-and-update answered. */
  datatype ClaimReply = Claimed(id: Id) | NothingClaimable | StoreFailed

  /**
   * The store's contract for the claim: a claimed task matched the filter,
   * and "nothing" is answered only when nothing matches. Which claimable task
   * is picked is the store's choice; the step is specified for every choice.
   */
  predicate HonestReply(store: Store, now: int, reply: ClaimReply) {
    match reply
    case Claimed(id) => id in store && Claimable(store[id], now)
    case NothingClaimable => NoneClaimable(store, now)
    case StoreFailed => true
  }

  /** The lease update of the claim: the claimed task's `lockTime` becomes `now`. */
  function Claim(store: Store, id: Id, now: int): (s: Store)
    requires id in store
    ensures s.Keys == store.Keys
    ensures s[id].data == store[id].data && s[id].lockTime == now
    ensures forall k :: k in store && k != id ==> s[k] == store[k]
  {
    store[id := store[id].(lockTime := now)]
  }

  /** A task leased at `now` cannot be claimed again before `now + LEASE_MS`. */
  lemma LeaseExcludesReclaim(store: Store, id: Id, now: int, later: int)
    requires id in store && later < now + LEASE_MS
    ensures !Claimable(Claim(store, id, now)[id], later)
  {
  }

  /** The characters the sanitiser replaces: code points 0x00 to 0x08. */
  predicate IsLowControl(c: char) {
    c as int <= 8
  }

  /** Replaces every character 0x00–0x08 with a space and keeps every other character. */
  function Sanitize(s: string): (r: string)
    ensures |r| == |s|
    ensures forall i :: 0 <= i < |s| ==> r[i] == (if IsLowControl(s[i]) then ' ' else s[i])
    ensures forall i :: 0 <= i < |r| ==> !IsLowControl(r[i])
    decreases |s|
  {
    if s == [] then []
    else [if IsLowControl(s[0]) then ' ' else s[0]] + Sanitize(s[1..])
  }

  /** Sanitising twice is sanitising once. */
  lemma SanitizeIdempotent(s: string)
    ensures Sanitize(Sanitize(s)) == Sanitize(s)
  {
  }

  /** A text without low control characters is left as it is. */
  lemma SanitizeKeepsCleanText(s: string)
    requires forall i :: 0 <= i < |s| ==> !IsLowControl(s[i])
    ensures Sanitize(s) == s
  {
  }

  /** The answer as sent to the embedding: sanitised, and `""` when missing. */
  function SanitizeAnswer(a: Option<string>): (r: string)
    ensures a.None? ==> r == ""
    ensures a.Some? ==> r == Sanitize(a.value)
  {
    match a
    case None => ""
    case Some(s) => Sanitize(s)
  }

  /** Sets the suspension lease on every task of a team, in any mode, and on nothing else. */
  function SuspendTeam(store: Store, teamId: Id): (s: Store)
    ensures s.Keys == store.Keys
    ensures forall k :: k in store ==> s[k].data == store[k].data
    ensures forall k :: k in store ==> s[k].lockTime == (if store[k].data.teamId == teamId then SUSPEND_LOCK else store[k].lockTime)
  {
    map k | k in store :: if store[k].data.teamId == teamId then store[k].(lockTime := SUSPEND_LOCK) else store[k]
  }

  /** Deletes a task by id; deleting a missing id changes nothing. */
  function DeleteById(store: Store, id: Id): (s: Store)
    ensures s.Keys == store.Keys - {id}
    ensures forall k :: k in s ==> s[k] == store[k]
    ensures id !in store ==> s == store
  {
    store - {id}
  }

  /** Sets the poison lease on one task by id; a missing id changes nothing. */
  function Poison(store: Store, id: Id): (s: Store)
    ensures s.Keys == store.Keys
    ensures id in store ==> s[id].data == store[id].data && s[id].lockTime == POISON_LOCK
    ensures forall k :: k in store && k != id ==> s[k] == store[k]
  {
    if id in store then store[id := store[id].(lockTime := POISON_LOCK)] else store
  }

  /** The balance verdict for the claimed task's team. */
  datatype Balance = Sufficient | Insufficient

  /** The fields of a thrown error the classifier looks at. */
  datatype EmbedError = EmbedError(message: Option<string>, errorType: Option<string>, code: Option<int>)

  /** How the vector insert of the claimed task ended. */
  datatype EmbedOutcome = Embedded(tokenLen: nat) | Failed(err: EmbedError)

  /** A failure is fatal for the task when the provider rejected its content. */
  predicate IsFatal(e: EmbedError) {
    || e.message == Some("invalid message format")
    || e.errorType == Some("invalid_request_error")
    || e.code == Some(500)
  }

  /** Everything one iteration learns from outside: the clock, the limit and the collaborators' answers. */
  datatype Env = Env(now: int, maxProcess: int, reply: ClaimReply, balance: Balance, embed: EmbedOutcome)

  /** What the worker does after the iteration. */
  datatype Action = Stop | ContinueNow | ContinueAfter(delayMs: nat)

  /** The process counter and the training collection. */
  datatype World = World(queueLen: int, store: Store)

  /** The vector insert request sent for a claimed task. */
  datatype VectorInsert = VectorInsert(
    teamId: Id, tmbId: Id, datasetId: Id, collectionId: Id,
    q: string, a: string, indexes: seq<string>, model: string)

  /** The usage bill pushed after a successful insert. */
  datatype Bill = Bill(teamId: Id, tmbId: Id, tokenLen: nat, model: string, billId: Option<Id>)

  /** The outward calls of an iteration: the suspension notice (to a member), the vector insert and the bill. */
  datatype Effects = Effects(inform: Option<Id>, insert: Option<VectorInsert>, bill: Option<Bill>)

  const NoEffects: Effects := Effects(None, None, None)

  datatype StepResult = StepResult(world: World, action: Action, effects: Effects)

  /** The iteration after admission, with the counter already raised to `admitted`. */
  function Process(w: World, admitted: int, env: Env): (r: StepResult)
    requires HonestReply(w.store, env.now, env.reply)
    ensures r.world.queueLen == ReduceQueue(admitted)
    ensures r.world.store.Keys <= w.store.Keys
    ensures forall k :: k in r.world.store ==> r.world.store[k].data == w.store[k].data
    ensures forall k :: k in w.store && k !in r.world.store ==> env.reply == Claimed(k)
    ensures r.action == Stop ==> r.world.store == w.store
    ensures NoneClaimable(w.store, env.now) && env.reply != StoreFailed ==> r.action == Stop
    ensures env.reply == StoreFailed ==> r.action == ContinueNow && r.world.store == w.store
    ensures r.effects.inform.Some? ==> env.reply.Claimed? && env.balance == Insufficient
    ensures r.effects.insert.Some? <==> env.reply.Claimed? && env.balance == Sufficient && env.embed.Embedded?
  {
    var released := ReduceQueue(admitted);
    match env.reply
    case NothingClaimable => StepResult(World(released, w.store), Stop, NoEffects)
    case StoreFailed => StepResult(World(released, w.store), ContinueNow, NoEffects)
    case Claimed(id) =>
      var task := w.store[id].data;
      var leased := Claim(w.store, id, env.now);
      match env.balance
      case Insufficient =>
        StepResult(World(released, SuspendTeam(leased, task.teamId)), ContinueNow,
                   Effects(Some(task.tmbId), None, None))
      case Sufficient =>
        match env.embed
        case Embedded(tokenLen) =>
          var insert := VectorInsert(task.teamId, task.teamId, task.datasetId, task.collectionId,
                                     Sanitize(task.q), SanitizeAnswer(task.a), task.indexes, task.model);
          var bill := Bill(task.teamId, task.teamId, tokenLen, task.model, task.billId);
          StepResult(World(released, DeleteById(leased, id)), ContinueNow, Effects(None, Some(insert), Some(bill)))
        case Failed(err) =>
          if IsFatal(err) then StepResult(World(released, Poison(leased, id)), ContinueNow, NoEffects)
          else StepResult(World(released, leased), ContinueAfter(RETRY_DELAY_MS), NoEffects)
  }

  /** One call of `generateVector`. */
  function Step(w: World, env: Env): (r: StepResult)
    requires HonestReply(w.store, env.now, env.reply)
    // Admission: at the limit nothing happens; otherwise the counter ends where it started.
    ensures w.queueLen >= env.maxProcess ==> r == StepResult(w, Stop, NoEffects)
    ensures 0 <= w.queueLen < env.maxProcess ==> r.world.queueLen == w.queueLen
    ensures w.queueLen < env.maxProcess ==> r.world.queueLen >= 0
    // Only lease times change, and only a claimed task can disappear.
    ensures r.world.store.Keys <= w.store.Keys
    ensures forall k :: k in r.world.store ==> r.world.store[k].data == w.store[k].data
    ensures forall k :: k in w.store && k !in r.world.store ==> env.reply == Claimed(k)
    ensures r.action == Stop ==> r.world.store == w.store
    // An empty queue stops the worker; a store error retries at once.
    ensures w.queueLen < env.maxProcess && NoneClaimable(w.store, env.now) && env.reply != StoreFailed ==> r.action == Stop
    ensures w.queueLen < env.maxProcess && env.reply == StoreFailed ==> r.action == ContinueNow && r.world.store == w.store
    ensures r.effects.inform.Some? ==> env.reply.Claimed? && env.balance == Insufficient
    ensures r.effects.insert.Some? <==> w.queueLen < env.maxProcess && env.reply.Claimed? && env.balance == Sufficient && env.embed.Embedded?
  {
    match TryAdmit(w.queueLen, env.maxProcess)
    case None => StepResult(w, Stop, NoEffects)
    case Some(admitted) => Process(w, admitted, env)
  }

  /** The state of a step that claimed task `id`. */
  predicate ClaimedIn(w: World, env: Env, id: Id) {
    w.queueLen < env.maxProcess && env.reply == Claimed(id)
  }

  /**
   * Insufficient balance suspends every task of the claimed task's team, in
   * any mode, deletes nothing, notifies the task's member once and continues
   * at once.
   */
  lemma InsufficientBalanceSuspendsTeam(w: World, env: Env, id: Id)
    requires HonestReply(w.store, env.now, env.reply)
    requires ClaimedIn(w, env, id) && env.balance == Insufficient
    ensures var r := Step(w, env);
            var team := w.store[id].data.teamId;
            && r.action == ContinueNow
            && r.world.store.Keys == w.store.Keys
            && (forall k :: k in w.store && w.store[k].data.teamId == team ==> r.world.store[k].lockTime == SUSPEND_LOCK)
            && (forall k :: k in w.store && w.store[k].data.teamId != team ==> r.world.store[k] == w.store[k])
            && r.effects == Effects(Some(w.store[id].data.tmbId), None, None)
  {
  }

  /**
   * A successful insert removes the claimed task by id and nothing else,
   * and sends the insert and the bill with the team id in the member slot.
   */
  lemma SuccessDeletesClaimedTask(w: World, env: Env, id: Id)
    requires HonestReply(w.store, env.now, env.reply)
    requires ClaimedIn(w, env, id) && env.balance == Sufficient && env.embed.Embedded?
    ensures var r := Step(w, env);
            var t := w.store[id].data;
            && r.action == ContinueNow
            && r.world.store.Keys == w.store.Keys - {id}
            && (forall k :: k in r.world.store ==> r.world.store[k] == w.store[k])
            && r.effects.insert == Some(VectorInsert(t.teamId, t.teamId, t.datasetId, t.collectionId,
                                                     Sanitize(t.q), SanitizeAnswer(t.a), t.indexes, t.model))
            && r.effects.bill == Some(Bill(t.teamId, t.teamId, env.embed.tokenLen, t.model, t.billId))
  {
  }

  /**
   * A failed insert keeps the task. A fatal failure poisons it and continues
   * at once; any other failure leaves the claim-time lease and continues
   * after the retry delay.
   */
  lemma FailureKeepsTask(w: World, env: Env, id: Id)
    requires HonestReply(w.store, env.now, env.reply)
    requires ClaimedIn(w, env, id) && env.balance == Sufficient && env.embed.Failed?
    ensures var r := Step(w, env);
            && r.world.store.Keys == w.store.Keys
            && (forall k :: k in w.store && k != id ==> r.world.store[k] == w.store[k])
            && (IsFatal(env.embed.err) <==> r.action == ContinueNow)
            && (IsFatal(env.embed.err) ==> r.world.store[id].lockTime == POISON_LOCK)
            && (!IsFatal(env.embed.err) ==> r.world.store[id].lockTime == env.now && r.action == ContinueAfter(RETRY_DELAY_MS))
            && r.effects == NoEffects
  {
  }

  /**
   * Whatever happened after the claim, the claimed task, if still stored,
   * holds a lease no earlier than the claim, so no claim before
   * `now + LEASE_MS` can pick it.
   */
  lemma ClaimedTaskStaysLeased(w: World, env: Env, id: Id, later: int)
    requires HonestReply(w.store, env.now, env.reply)
    requires ClaimedIn(w, env, id)
    requires env.now + LEASE_MS <= POISON_LOCK
    requires later < env.now + LEASE_MS
    ensures id in Step(w, env).world.store ==> !Claimable(Step(w, env).world.store[id], later)
  {
  }

  /**
   * Two iterations, the second starting less than a minute after the first
   * claimed a task, never claim the same task.
   */
  lemma NoDoubleClaim(w: World, env1: Env, env2: Env, id: Id)
    requires HonestReply(w.store, env1.now, env1.reply)
    requires ClaimedIn(w, env1, id)
    requires env1.now + LEASE_MS <= POISON_LOCK
    requires env2.now < env1.now + LEASE_MS
    requires HonestReply(Step(w, env1).world.store, env2.now, env2.reply)
    ensures env2.reply != Claimed(id)
  {
    ClaimedTaskStaysLeased(w, env1, id, env2.now);
  }

  /** A poisoned or suspended task. */
  predicate Parked(t: Task) {
    t.lockTime >= POISON_LOCK
  }

  /** A sequence of iterations, each answered honestly by the store it sees. */
  ghost predicate HonestRun(w: World, envs: seq<Env>)
    decreases |envs|
  {
    envs != [] ==>
      && HonestReply(w.store, envs[0].now, envs[0].reply)
      && HonestRun(Step(w, envs[0]).world, envs[1..])
  }

  /** The world after a sequence of iterations. */
  ghost function Run(w: World, envs: seq<Env>): World
    requires HonestRun(w, envs)
    decreases |envs|
  {
    if envs == [] then w else Run(Step(w, envs[0]).world, envs[1..])
  }

  /** One iteration keeps a parked task stored, parked, and with its data. */
  lemma StepKeepsParked(w: World, env: Env, id: Id)
    requires HonestReply(w.store, env.now, env.reply)
    requires id in w.store && Parked(w.store[id])
    requires env.now + LEASE_MS <= POISON_LOCK
    ensures id in Step(w, env).world.store
    ensures Parked(Step(w, env).world.store[id])
    ensures Step(w, env).world.store[id].data == w.store[id].data
  {
  }

  /**
   * Poisoned and suspended tasks are quarantined: across any sequence of
   * iterations whose clocks stay a minute short of the poison date, they are
   * never claimed, never deleted and never leave the parked range.
   */
  lemma {:induction false} ParkedTasksStayParked(w: World, envs: seq<Env>, id: Id)
    requires HonestRun(w, envs)
    requires id in w.store && Parked(w.store[id])
    requires forall i :: 0 <= i < |envs| ==> envs[i].now + LEASE_MS <= POISON_LOCK
    ensures id in Run(w, envs).store
    ensures Parked(Run(w, envs).store[id])
    ensures Run(w, envs).store[id].data == w.store[id].data
    decreases |envs|
  {
    if envs != [] {
      StepKeepsParked(w, envs[0], id);
      var w' := Step(w, envs[0]).world;
      assert forall i :: 0 <= i < |envs[1..]| ==> envs[1..][i] == envs[i + 1];
      ParkedTasksStayParked(w', envs[1..], id);
    }
  }
}
