/**
 * The batch intake endpoint of the dataset training queue: the handler's
 * guards and `pushDataToDatasetCollection`, which sorts every submitted
 * record into exactly one of the buckets `success`, `overToken`, `repeat`
 * and `error`, and inserts only the `success` records as training tasks.
 *
 * The per-item callback of the source's `Promise.all` never awaits before
 * it pushes into a bucket, so the items are handled one after another in
 * array order; the classification is therefore a left fold over the batch.
 */
module PushData {
  import opened Results
  import opened Training

  /** The largest batch the handler accepts. */
  const MAX_BATCH: nat := 200

  /**
   * One submitted record `{q, a, indexes}`. A missing `q` is modelled as the
   * empty string: both fail the same truthiness test. `a` is optional.
   */
  datatype Item = Item(q: string, a: Option<string>, indexes: seq<string>)

  /**
   * The dedup key `item.q + item.a`. It is a plain concatenation, and a
   * missing `a` is turned into the text "undefined" by the string `+`.
   */
  function Key(it: Item): (k: string)
    ensures |it.q| <= |k| && k[..|it.q|] == it.q
    ensures it.a.Some? ==> k[|it.q|..] == it.a.value
    ensures it.a.None? ==> k[|it.q|..] == "undefined"
  {
    it.q + it.a.GetOr("undefined")
  }

  /** The model limits looked up for the batch: the dataset's vector model and the first QA model. */
  datatype Limits = Limits(vectorMaxToken: nat, vectorModel: string, qaMaxContext: nat, qaModel: string)

  /** The `model` entry of the mode map. */
  function ModeModel(mode: Mode, limits: Limits): string {
    match mode
    case Chunk => limits.vectorModel
    case Qa => limits.qaModel
  }

  /**
   * The over-token test on a question's token count, in integers:
   * `t > 1.5 * maxToken` for chunk mode and `t > 0.8 * maxContext` for qa mode.
   */
  predicate ExceedsCeiling(mode: Mode, limits: Limits, tokens: nat) {
    match mode
    case Chunk => 2 * tokens > 3 * limits.vectorMaxToken
    case Qa => 10 * tokens > 8 * limits.qaMaxContext
  }

  /** The `maxToken` entry of the mode map, as the exact real the source's product denotes. */
  function Ceiling(mode: Mode, limits: Limits): real {
    match mode
    case Chunk => limits.vectorMaxToken as real * 1.5
    case Qa => limits.qaMaxContext as real * 0.8
  }

  /** The integer test is the source's comparison against the scaled ceiling. */
  lemma ExceedsCeilingMeansAboveCeiling(mode: Mode, limits: Limits, tokens: nat)
    ensures ExceedsCeiling(mode, limits, tokens) <==> tokens as real > Ceiling(mode, limits)
  {
  }

  /** What one classification depends on: the mode, the limits and the token counter. */
  datatype Rules = Rules(mode: Mode, limits: Limits, tok: string -> nat)

  /** An item that is neither malformed nor over the token ceiling; only its key decides it. */
  predicate Eligible(it: Item, rules: Rules) {
    it.q != "" && !ExceedsCeiling(rules.mode, rules.limits, rules.tok(it.q))
  }

  /** The four response buckets an item can land in. */
  datatype Bucket = Success | OverToken | Repeat | Error

  /** The buckets filled so far and the set of keys already accepted. */
  datatype Filter = Filter(
    success: seq<Item>,
    overToken: seq<Item>,
    repeat: seq<Item>,
    error: seq<Item>,
    seen: set<string>)
  {
    /** The number of items sorted so far. */
    function Size(): nat {
      |success| + |overToken| + |repeat| + |error|
    }

    /** Every item sorted so far, regardless of bucket. */
    function Contents(): multiset<Item> {
      multiset(success) + multiset(overToken) + multiset(repeat) + multiset(error)
    }
  }

  /**
   * The fold's invariant: accepted keys are pairwise distinct, and the seen
   * set is exactly the set of accepted keys.
   */
  ghost predicate Consistent(f: Filter) {
    && (forall i, j :: 0 <= i < j < |f.success| ==> Key(f.success[i]) != Key(f.success[j]))
    && (forall i :: 0 <= i < |f.success| ==> Key(f.success[i]) in f.seen)
    && (forall k :: k in f.seen ==> exists i :: 0 <= i < |f.success| && Key(f.success[i]) == k)
  }

  /** What each bucket's members satisfy. */
  ghost predicate BucketsSound(f: Filter, rules: Rules) {
    && (forall it :: it in f.error ==> it.q == "")
    && (forall it :: it in f.overToken ==> it.q != "" && ExceedsCeiling(rules.mode, rules.limits, rules.tok(it.q)))
    && (forall it :: it in f.repeat ==> Eligible(it, rules) && Key(it) in f.seen)
    && (forall it :: it in f.success ==> Eligible(it, rules))
  }

  /** The empty filter the fold starts from. */
  function EmptyFilter(): (f: Filter)
    ensures f.Size() == 0 && Consistent(f)
  {
    Filter([], [], [], [], {})
  }

  /** Sorts one item into its bucket. */
  function Place(f: Filter, it: Item, rules: Rules): (g: Filter)
    ensures g.Size() == f.Size() + 1
    ensures g.Contents() == f.Contents() + multiset{it}
    ensures f.seen <= g.seen
  {
    if it.q == "" then
      f.(error := f.error + [it])
    else if ExceedsCeiling(rules.mode, rules.limits, rules.tok(it.q)) then
      f.(overToken := f.overToken + [it])
    else if Key(it) in f.seen then
      f.(repeat := f.repeat + [it])
    else
      f.(success := f.success + [it], seen := f.seen + {Key(it)})
  }

  /** Placing an item keeps accepted keys distinct and the seen set equal to them. */
  lemma PlaceKeepsConsistent(f: Filter, it: Item, rules: Rules)
    requires Consistent(f)
    ensures Consistent(Place(f, it, rules))
  {
    var g := Place(f, it, rules);
    if it.q == "" || ExceedsCeiling(rules.mode, rules.limits, rules.tok(it.q)) || Key(it) in f.seen {
      assert g.success == f.success && g.seen == f.seen;
    } else {
      assert g.success == f.success + [it] && g.seen == f.seen + {Key(it)};
      var s := g.success;
      var n := |f.success|;
      forall i, j | 0 <= i < j < |s|
        ensures Key(s[i]) != Key(s[j])
      {
        assert s[i] == f.success[i];
        if j == n {
          assert Key(f.success[i]) in f.seen;
        } else {
          assert s[j] == f.success[j];
        }
      }
      forall i | 0 <= i < |s|
        ensures Key(s[i]) in g.seen
      {
        if i < n {
          assert s[i] == f.success[i];
        }
      }
      forall k | k in g.seen
        ensures exists i :: 0 <= i < |s| && Key(s[i]) == k
      {
        if k == Key(it) {
          assert Key(s[n]) == k;
        } else {
          var i :| 0 <= i < n && Key(f.success[i]) == k;
          assert Key(s[i]) == k;
        }
      }
    }
  }

  /** Placing an item keeps every bucket's members faithful to the bucket. */
  lemma PlaceKeepsSound(f: Filter, it: Item, rules: Rules)
    requires BucketsSound(f, rules)
    ensures BucketsSound(Place(f, it, rules), rules)
  {
  }

  /** The classification fold over a batch, in array order. */
  function FilterBatch(items: seq<Item>, rules: Rules): (f: Filter)
    ensures f.Size() == |items|
    ensures f.Contents() == multiset(items)
    ensures Consistent(f)
    ensures BucketsSound(f, rules)
    decreases |items|
  {
    if items == [] then EmptyFilter()
    else
      var n := |items| - 1;
      assert items == items[..n] + [items[n]];
      var f := FilterBatch(items[..n], rules);
      PlaceKeepsConsistent(f, items[n], rules);
      PlaceKeepsSound(f, items[n], rules);
      Place(f, items[n], rules)
  }

  /**
   * Where an item lands is decided by its own question and key: an empty
   * question is an error whatever its answer or token count, an over-ceiling
   * question is over-token, and an eligible item is accepted or a repeat.
   */
  lemma ItemLandsInItsBucket(items: seq<Item>, rules: Rules, i: nat)
    requires i < |items|
    ensures var f := FilterBatch(items, rules);
            var it := items[i];
            && (it.q == "" ==> it in f.error && it !in f.success)
            && (it.q != "" && ExceedsCeiling(rules.mode, rules.limits, rules.tok(it.q)) ==> it in f.overToken && it !in f.success)
            && (Eligible(it, rules) ==> it in f.success || it in f.repeat)
  {
    var f := FilterBatch(items, rules);
    assert items[i] in multiset(items);
    LandsByItsBucket(f, rules, items[i]);
  }

  /** In a sound filter, a sorted item's bucket follows from the item alone. */
  lemma LandsByItsBucket(f: Filter, rules: Rules, it: Item)
    requires it in f.Contents() && BucketsSound(f, rules)
    ensures it.q == "" ==> it in f.error && it !in f.success
    ensures it.q != "" && ExceedsCeiling(rules.mode, rules.limits, rules.tok(it.q)) ==> it in f.overToken && it !in f.success
    ensures Eligible(it, rules) ==> it in f.success || it in f.repeat
  {
    var m := multiset(f.success) + multiset(f.overToken) + multiset(f.repeat) + multiset(f.error);
    assert m[it] == multiset(f.success)[it] + multiset(f.overToken)[it] + multiset(f.repeat)[it] + multiset(f.error)[it];
    assert it in f.success || it in f.overToken || it in f.repeat || it in f.error;
  }

  // ---------------------------------------------------------------------
  // An independent, per-item reference for the classification.
  // ---------------------------------------------------------------------

  /**
   * The bucket of the item at position `i`, stated without the fold: empty
   * questions are errors, over-ceiling questions are over-token, and an
   * eligible item is a repeat exactly when an earlier eligible item has the
   * same key.
   */
  function RefBucket(items: seq<Item>, i: nat, rules: Rules): Bucket
    requires i < |items|
  {
    if items[i].q == "" then Error
    else if ExceedsCeiling(rules.mode, rules.limits, rules.tok(items[i].q)) then OverToken
    else if exists j :: 0 <= j < i && Eligible(items[j], rules) && Key(items[j]) == Key(items[i]) then Repeat
    else Success
  }

  /** The items whose reference bucket is `b`, in input order. */
  function InBucket(items: seq<Item>, b: Bucket, rules: Rules): seq<Item>
    decreases |items|
  {
    if items == [] then []
    else
      var n := |items| - 1;
      InBucket(items[..n], b, rules) + (if RefBucket(items, n, rules) == b then [items[n]] else [])
  }

  /** The keys of the eligible items. */
  function EligibleKeys(items: seq<Item>, rules: Rules): set<string>
    decreases |items|
  {
    if items == [] then {}
    else
      var n := |items| - 1;
      EligibleKeys(items[..n], rules) + (if Eligible(items[n], rules) then {Key(items[n])} else {})
  }

  /** The eligible keys are exactly the keys of the batch's eligible items. */
  lemma {:induction false} EligibleKeysSpec(items: seq<Item>, rules: Rules, k: string)
    ensures k in EligibleKeys(items, rules) <==>
            exists j :: 0 <= j < |items| && Eligible(items[j], rules) && Key(items[j]) == k
    decreases |items|
  {
    if items != [] {
      var n := |items| - 1;
      var p := items[..n];
      EligibleKeysSpec(p, rules, k);
      if exists j :: 0 <= j < |p| && Eligible(p[j], rules) && Key(p[j]) == k {
        var j :| 0 <= j < |p| && Eligible(p[j], rules) && Key(p[j]) == k;
        assert items[j] == p[j];
      }
      if exists j :: 0 <= j < |items| && Eligible(items[j], rules) && Key(items[j]) == k {
        var j :| 0 <= j < |items| && Eligible(items[j], rules) && Key(items[j]) == k;
        if j < n {
          assert p[j] == items[j];
        }
      }
    }
  }

  /**
   * The fold computes the reference classification: every bucket holds
   * exactly the items whose reference bucket it is, in input order, and the
   * seen set holds exactly the keys of eligible items.
   */
  lemma {:induction false} FilterBatchIsReference(items: seq<Item>, rules: Rules)
    ensures FilterBatch(items, rules) == Reference(items, rules)
    decreases |items|
  {
    if items != [] {
      var n := |items| - 1;
      FilterBatchIsReference(items[..n], rules);
      FilterBatchSnoc(items, rules);
      PlaceExtendsReference(items, rules);
    }
  }

  /** The fold's last step places the last item. */
  lemma FilterBatchSnoc(items: seq<Item>, rules: Rules)
    requires items != []
    ensures var n := |items| - 1;
            FilterBatch(items, rules) == Place(FilterBatch(items[..n], rules), items[n], rules)
  {
  }

  /** The filter the reference classification describes. */
  function Reference(items: seq<Item>, rules: Rules): Filter {
    Filter(InBucket(items, Success, rules),
           InBucket(items, OverToken, rules),
           InBucket(items, Repeat, rules),
           InBucket(items, Error, rules),
           EligibleKeys(items, rules))
  }

  /** Placing the last item into the reference filter of the prefix gives the reference filter of the batch. */
  lemma PlaceExtendsReference(items: seq<Item>, rules: Rules)
    requires items != []
    ensures var n := |items| - 1;
            Place(Reference(items[..n], rules), items[n], rules) == Reference(items, rules)
  {
    var n := |items| - 1;
    var x := items[n];
    if Eligible(x, rules) {
      PlaceEligibleExtendsReference(items, rules);
    } else {
      PlaceIneligibleExtendsReference(items, rules);
    }
  }

  /** `PlaceExtendsReference` for a last item that is malformed or over the ceiling. */
  lemma PlaceIneligibleExtendsReference(items: seq<Item>, rules: Rules)
    requires items != [] && !Eligible(items[|items| - 1], rules)
    ensures var n := |items| - 1;
            Place(Reference(items[..n], rules), items[n], rules) == Reference(items, rules)
  {
    var n := |items| - 1;
    var x := items[n];
    var f := Reference(items[..n], rules);
    ReferenceSnoc(items, rules);
    var b := RefBucket(items, n, rules);
    assert b == Error || b == OverToken;
    if b == Error {
      assert Place(f, x, rules) == f.(error := f.error + [x]);
    } else {
      assert Place(f, x, rules) == f.(overToken := f.overToken + [x]);
    }
  }

  /** `PlaceExtendsReference` for an eligible last item, accepted or a repeat. */
  lemma PlaceEligibleExtendsReference(items: seq<Item>, rules: Rules)
    requires items != [] && Eligible(items[|items| - 1], rules)
    ensures var n := |items| - 1;
            Place(Reference(items[..n], rules), items[n], rules) == Reference(items, rules)
  {
    var n := |items| - 1;
    var x := items[n];
    var f := Reference(items[..n], rules);
    ReferenceSnoc(items, rules);
    EarlierTwinIsSeen(items, rules);
    if Key(x) in f.seen {
      assert RefBucket(items, n, rules) == Repeat;
      assert f.seen + {Key(x)} == f.seen;
      assert Place(f, x, rules) == f.(repeat := f.repeat + [x]);
    } else {
      assert RefBucket(items, n, rules) == Success;
      assert Place(f, x, rules) == f.(success := f.success + [x], seen := f.seen + {Key(x)});
    }
  }

  /** The reference filter of a batch, by the reference bucket of its last item. */
  lemma ReferenceSnoc(items: seq<Item>, rules: Rules)
    requires items != []
    ensures var n := |items| - 1;
            var f := Reference(items[..n], rules);
            var x := items[n];
            var b := RefBucket(items, n, rules);
            Reference(items, rules) == Filter(
              f.success + (if b == Success then [x] else []),
              f.overToken + (if b == OverToken then [x] else []),
              f.repeat + (if b == Repeat then [x] else []),
              f.error + (if b == Error then [x] else []),
              f.seen + (if Eligible(x, rules) then {Key(x)} else {}))
  {
  }

  /** The last item has an earlier eligible twin exactly when its key is among the prefix's eligible keys. */
  lemma EarlierTwinIsSeen(items: seq<Item>, rules: Rules)
    requires items != []
    ensures var n := |items| - 1;
            (exists j :: 0 <= j < n && Eligible(items[j], rules) && Key(items[j]) == Key(items[n]))
            <==> Key(items[n]) in EligibleKeys(items[..n], rules)
  {
    var n := |items| - 1;
    var p := items[..n];
    var k := Key(items[n]);
    EligibleKeysSpec(p, rules, k);
    if exists j :: 0 <= j < n && Eligible(items[j], rules) && Key(items[j]) == k {
      var j :| 0 <= j < n && Eligible(items[j], rules) && Key(items[j]) == k;
      assert p[j] == items[j];
    }
    if exists j :: 0 <= j < |p| && Eligible(p[j], rules) && Key(p[j]) == k {
      var j :| 0 <= j < |p| && Eligible(p[j], rules) && Key(p[j]) == k;
      assert items[j] == p[j];
    }
  }

  /**
   * An item is a repeat only if an earlier item with the same key was
   * accepted: the first eligible occurrence of a key wins.
   */
  lemma {:induction false} RepeatFollowsAcceptedTwin(items: seq<Item>, rules: Rules, i: nat)
    requires i < |items| && RefBucket(items, i, rules) == Repeat
    ensures exists j :: 0 <= j < i && RefBucket(items, j, rules) == Success && Key(items[j]) == Key(items[i])
  {
    var j :| 0 <= j < i && Eligible(items[j], rules) && Key(items[j]) == Key(items[i]);
    FirstEligibleIsAccepted(items, rules, j);
  }

  /** Some occurrence of an eligible item's key, at or before it, is accepted. */
  lemma {:induction false} FirstEligibleIsAccepted(items: seq<Item>, rules: Rules, j: nat)
    requires j < |items| && Eligible(items[j], rules)
    ensures exists j' :: 0 <= j' <= j && RefBucket(items, j', rules) == Success && Key(items[j']) == Key(items[j])
    decreases j
  {
    if RefBucket(items, j, rules) != Success {
      var j0 :| 0 <= j0 < j && Eligible(items[j0], rules) && Key(items[j0]) == Key(items[j]);
      FirstEligibleIsAccepted(items, rules, j0);
    }
  }

  // ---------------------------------------------------------------------
  // Insertion and the response.
  // ---------------------------------------------------------------------

  /** The batch-wide fields every inserted task is stamped with. */
  datatype BatchMeta = BatchMeta(
    teamId: Id,
    tmbId: Id,
    datasetId: Id,
    collectionId: Id,
    billId: Option<Id>,
    prompt: Option<string>)

  /** The task inserted for one accepted item. */
  function ToTask(meta: BatchMeta, rules: Rules, it: Item): TaskData {
    TaskData(meta.teamId, meta.tmbId, meta.datasetId, meta.collectionId, meta.billId,
             rules.mode, meta.prompt, ModeModel(rules.mode, rules.limits),
             it.q, it.a, it.indexes)
  }

  /** The dedup key of an inserted task, as that of the item it came from. */
  function TaskKey(t: TaskData): string {
    Key(Item(t.q, t.a, t.indexes))
  }

  /** Every inserted task carries the batch's fields and the mode map's model. */
  ghost predicate StampedWith(t: TaskData, meta: BatchMeta, rules: Rules) {
    && t.teamId == meta.teamId && t.tmbId == meta.tmbId
    && t.datasetId == meta.datasetId && t.collectionId == meta.collectionId
    && t.billId == meta.billId && t.prompt == meta.prompt
    && t.mode == rules.mode && t.model == ModeModel(rules.mode, rules.limits)
  }

  /** The `insertMany` documents for the accepted items, in their order. */
  function ToTasks(meta: BatchMeta, rules: Rules, accepted: seq<Item>): (ts: seq<TaskData>)
    ensures |ts| == |accepted|
    ensures forall i :: 0 <= i < |ts| ==>
              && StampedWith(ts[i], meta, rules)
              && ts[i].q == accepted[i].q && ts[i].a == accepted[i].a && ts[i].indexes == accepted[i].indexes
              && TaskKey(ts[i]) == Key(accepted[i])
  {
    seq(|accepted|, i requires 0 <= i < |accepted| => ToTask(meta, rules, accepted[i]))
  }

  /** The response body: the inserted count and the three rejection buckets (no `success`). */
  datatype PushResponse = PushResponse(insertLen: nat, overToken: seq<Item>, repeat: seq<Item>, error: seq<Item>)

  /** The response, the tasks written to the training collection, and whether the queue was started. */
  datatype Pushed = Pushed(response: PushResponse, inserted: seq<TaskData>, queueStarted: bool)

  /** `pushDataToDatasetCollection` for a batch whose mode is known. */
  function PushDataToCollection(meta: BatchMeta, rules: Rules, items: seq<Item>): (p: Pushed)
    ensures p.response.insertLen == |p.inserted|
    ensures p.queueStarted <==> p.response.insertLen > 0
    ensures p.response.insertLen + |p.response.overToken| + |p.response.repeat| + |p.response.error| == |items|
    ensures p.response.overToken == InBucket(items, OverToken, rules)
    ensures p.response.repeat == InBucket(items, Repeat, rules)
    ensures p.response.error == InBucket(items, Error, rules)
    ensures p.inserted == ToTasks(meta, rules, InBucket(items, Success, rules))
    ensures forall i :: 0 <= i < |p.inserted| ==> StampedWith(p.inserted[i], meta, rules) && p.inserted[i].q != ""
    ensures forall i, j :: 0 <= i < j < |p.inserted| ==> TaskKey(p.inserted[i]) != TaskKey(p.inserted[j])
  {
    var f := FilterBatch(items, rules);
    FilterBatchIsReference(items, rules);
    AcceptedDistinctAndEligible(items, rules);
    var inserted := ToTasks(meta, rules, f.success);
    InsertedTasksSound(meta, rules, f.success);
    Pushed(PushResponse(|inserted|, f.overToken, f.repeat, f.error), inserted, |inserted| > 0)
  }

  /** Tasks made from eligible items with distinct keys have non-empty questions and distinct keys. */
  lemma InsertedTasksSound(meta: BatchMeta, rules: Rules, accepted: seq<Item>)
    requires forall i :: 0 <= i < |accepted| ==> Eligible(accepted[i], rules)
    requires forall i, j :: 0 <= i < j < |accepted| ==> Key(accepted[i]) != Key(accepted[j])
    ensures var ts := ToTasks(meta, rules, accepted);
            && (forall i :: 0 <= i < |ts| ==> StampedWith(ts[i], meta, rules) && ts[i].q != "")
            && (forall i, j :: 0 <= i < j < |ts| ==> TaskKey(ts[i]) != TaskKey(ts[j]))
  {
  }

  /** The accepted items of a batch are eligible and have pairwise distinct keys. */
  lemma AcceptedDistinctAndEligible(items: seq<Item>, rules: Rules)
    ensures var accepted := FilterBatch(items, rules).success;
            && (forall i :: 0 <= i < |accepted| ==> Eligible(accepted[i], rules))
            && (forall i, j :: 0 <= i < j < |accepted| ==> Key(accepted[i]) != Key(accepted[j]))
  {
    var accepted := FilterBatch(items, rules).success;
    assert forall i :: 0 <= i < |accepted| ==> accepted[i] in accepted;
  }

  // ---------------------------------------------------------------------
  // The handler.
  // ---------------------------------------------------------------------

  /** The request body; `data` is `None` when it is not an array, an empty `collectionId` is missing. */
  datatype Request = Request(
    collectionId: Id,
    data: Option<seq<Item>>,
    mode: Option<string>,
    prompt: Option<string>,
    billId: Option<Id>)

  /** What authentication and the collection/model lookups return for the request. */
  datatype Context = Context(teamId: Id, tmbId: Id, datasetId: Id, limits: Limits)

  /** The handler's error responses. */
  datatype PushError = MissingCollectionOrData | UnknownMode | TooLong | ModeLookupFailed

  /** The mode the handler validates: an omitted mode defaults to chunk. */
  function RequestedMode(req: Request): Option<Mode> {
    match req.mode
    case None => Some(Chunk)
    case Some(name) => ParseMode(name)
  }

  /** The batch fields taken from the request and its context. */
  function Meta(req: Request, ctx: Context): BatchMeta {
    BatchMeta(ctx.teamId, ctx.tmbId, ctx.datasetId, req.collectionId, req.billId, req.prompt)
  }

  /** The handler's guards, in the source's order, yielding the batch and its mode. */
  function CheckRequest(req: Request): (r: Result<(seq<Item>, Mode), PushError>)
    ensures r.Ok? <==> req.collectionId != "" && req.data.Some? && RequestedMode(req).Some? && |req.data.value| <= MAX_BATCH
    ensures (req.collectionId == "" || req.data.None?) ==> r == Err(MissingCollectionOrData)
    ensures req.collectionId != "" && req.data.Some? && RequestedMode(req).None? ==> r == Err(UnknownMode)
    ensures r.Ok? ==> r.value == (req.data.value, RequestedMode(req).value)
  {
    if req.collectionId == "" || req.data.None? then Err(MissingCollectionOrData)
    else if RequestedMode(req).None? then Err(UnknownMode)
    else if |req.data.value| > MAX_BATCH then Err(TooLong)
    else Ok((req.data.value, RequestedMode(req).value))
  }

  /**
   * The endpoint with the defaulted mode carried through to the push: a
   * request is rejected by its guards before any item is classified, and
   * otherwise every item is classified under the requested (or default) mode.
   */
  function Handle(req: Request, ctx: Context, tok: string -> nat): (r: Result<Pushed, PushError>)
    ensures r.Err? <==> CheckRequest(req).Err?
    ensures r.Err? ==> r.error != ModeLookupFailed
    ensures req.data.Some? && |req.data.value| > MAX_BATCH && req.collectionId != "" && RequestedMode(req).Some? ==> r == Err(TooLong)
    ensures r.Ok? ==> r.value.response.insertLen <= MAX_BATCH
    ensures r.Ok? ==> r.value == PushDataToCollection(Meta(req, ctx), Rules(RequestedMode(req).value, ctx.limits, tok), req.data.value)
  {
    match CheckRequest(req)
    case Err(e) => Err(e)
    case Ok((items, mode)) => Ok(PushDataToCollection(Meta(req, ctx), Rules(mode, ctx.limits, tok), items))
  }

  /** A rejected request is rejected whatever the token counter says: no item was looked at. */
  lemma GuardsPrecedeClassification(req: Request, ctx: Context, tok1: string -> nat, tok2: string -> nat)
    requires CheckRequest(req).Err?
    ensures Handle(req, ctx, tok1) == Handle(req, ctx, tok2) == Err(CheckRequest(req).error)
  {
  }

  /** An omitted mode is the chunk mode. */
  lemma OmittedModeIsChunk(req: Request, ctx: Context, tok: string -> nat)
    requires req.mode.None?
    ensures Handle(req, ctx, tok) == Handle(req.(mode := Some("chunk")), ctx, tok)
  {
  }

  // ---------------------------------------------------------------------
  // The handler as written: the defaulted mode is not passed on.
  // ---------------------------------------------------------------------

  /**
   * `pushDataToDatasetCollection` as it runs when its `mode` may be absent.
   * With no mode the mode-map lookup yields nothing, and reading its
   * `maxToken` throws as soon as an item with a non-empty question reaches
   * the token check; the rejection of `Promise.all` reaches the handler's
   * catch. A batch of only empty questions still completes, all in `error`.
   */
  function PushDataAsWritten(meta: BatchMeta, mode: Option<Mode>, limits: Limits, tok: string -> nat, items: seq<Item>): (r: Result<Pushed, PushError>)
    ensures mode.Some? ==> r == Ok(PushDataToCollection(meta, Rules(mode.value, limits, tok), items))
    ensures mode.None? ==> (r.Err? <==> exists i :: 0 <= i < |items| && items[i].q != "")
    ensures mode.None? && r.Ok? ==> r.value == Pushed(PushResponse(0, [], [], items), [], false)
  {
    match mode
    case Some(m) => Ok(PushDataToCollection(meta, Rules(m, limits, tok), items))
    case None =>
      if exists i :: 0 <= i < |items| && items[i].q != "" then Err(ModeLookupFailed)
      else Ok(Pushed(PushResponse(0, [], [], items), [], false))
  }

  /**
   * The handler as written: the guards use the defaulted mode, but the
   * push receives the request body, whose `mode` is still absent.
   */
  function HandleAsWritten(req: Request, ctx: Context, tok: string -> nat): (r: Result<Pushed, PushError>)
    ensures req.mode.Some? ==> r == Handle(req, ctx, tok)
    ensures req.mode.None? && CheckRequest(req).Ok? ==>
              (r.Err? <==> exists i :: 0 <= i < |req.data.value| && req.data.value[i].q != "")
    ensures req.mode.None? && req.data.Some? && r.Ok? ==>
              r.value == Pushed(PushResponse(0, [], [], req.data.value), [], false)
    ensures CheckRequest(req).Err? ==> r == Err(CheckRequest(req).error)
  {
    match CheckRequest(req)
    case Err(e) => Err(e)
    case Ok((items, mode)) =>
      var passed := if req.mode.None? then None else Some(mode);
      PushDataAsWritten(Meta(req, ctx), passed, ctx.limits, tok, items)
  }

  /** A one-item request without a mode: rejected as written, accepted with the default applied. */
  lemma OmittedModeRejectedAsWritten()
    ensures var req := Request("c", Some([Item("hello", None, [])]), None, None, None);
            var ctx := Context("team", "member", "dataset", Limits(512, "embedding", 4000, "chat"));
            var tok := (s: string) => 1;
            && HandleAsWritten(req, ctx, tok) == Err(ModeLookupFailed)
            && Handle(req, ctx, tok).Ok?
            && Handle(req, ctx, tok).value.response.insertLen == 1
  {
    var req := Request("c", Some([Item("hello", None, [])]), None, None, None);
    var ctx := Context("team", "member", "dataset", Limits(512, "embedding", 4000, "chat"));
    var tok := (s: string) => 1;
    var items := [Item("hello", None, [])];
    assert items[0].q != "";
    assert RefBucket(items, 0, Rules(Chunk, ctx.limits, tok)) == Success;
    assert items[..0] == [];
    assert InBucket(items, Success, Rules(Chunk, ctx.limits, tok)) == [items[0]];
  }
}
