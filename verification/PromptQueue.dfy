// Creating a prompt batch and queueing it, in two requests that may each fail and be
// retried, between a user's clicks and a server's answers in any order.
module PromptQueues {
  import opened Options

  /** One prompt of a batch, as the server rendered it and as it was reviewed. */
  datatype Item = Item(id: string, ordinal: int, rendered: string, renderedSha: string, reviewed: string, reviewedSha: string,
                       selected: bool, reviewVersion: int, rerollCount: int,
                       workStep: Option<string>, run: Option<string>, mediaSeed: Option<nat>)

  /** A batch the server answered with: its fields, each of the declared type. `subject`
      stands for the chat, template, revision, contract and seed it names. */
  datatype Batch = Batch(id: string, subject: nat, codecVersion: int, requested: int, planSha: string, isQueued: bool,
                         planVersion: int, items: seq<Item>, unfilled: seq<int>, replayed: bool,
                         queueKey: Option<nat>, workPlan: Option<string>, queuedAt: Option<string>)

  /** What an attempt asked for, against which every answer is held. */
  datatype Authority = Authority(subject: nat, itemCount: int, queueKey: nat)

  datatype Status = Creating | Partial | Queueing | Queued | Failed
  datatype Stage = CreateStage | QueueStage | AdmissionStage

  /** `id` numbers the attempts; the two keys make retried requests idempotent. */
  datatype Attempt = Attempt(id: nat, subject: nat, createKey: nat, queueKey: nat, itemCount: int,
                             batch: Option<Batch>, status: Status, errorStage: Option<Stage>)

  /** The idempotency keys of an attempt's two requests. */
  datatype Keys = Keys(create: nat, queue: nat)

  /** The request a run waits on, with the run's own variables. */
  datatype Waiting =
    | Idle
    | ForCreate(current: Attempt, acceptPartial: bool)
    | ForQueue(current: Attempt, draft: Batch)

  /** An answer: the request failed, its response did not parse, or it parsed. */
  datatype Answer = Refused | Unreadable | Parsed(batch: Batch)

  /** What happened, in order. */
  datatype Fact =
    | SentCreate(id: nat, key: nat)
    | SentQueue(id: nat, key: nat, batch: Batch)
    | Answered
    | Admitted(id: nat, batch: Batch)
    | Accepted(id: nat)

  const MAX_ITEMS: int := 16

  function AuthorityOf(a: Attempt): Authority {
    Authority(a.subject, a.itemCount, a.queueKey)
  }

  // ------------------------------------------------------------ what an answer must be

  predicate Numbered(items: seq<Item>, ordinal: int) {
    exists i | 0 <= i < |items| :: items[i].ordinal == ordinal
  }

  /** The ordinals up to `count` that no item has, in order. */
  function Missing(count: nat, items: seq<Item>): seq<int>
    decreases count
  {
    if count == 0 then []
    else Missing(count - 1, items) + if Numbered(items, count) then [] else [count]
  }

  predicate Increasing(items: seq<Item>) {
    forall i, j | 0 <= i < j < |items| :: items[i].ordinal < items[j].ordinal
  }

  /** As it was rendered, unreviewed, under its own digest. */
  predicate Fresh(item: Item, digest: string -> string) {
    && item.selected && item.reviewVersion == 1 && item.rerollCount == 0
    && item.rendered == item.reviewed && item.renderedSha == item.reviewedSha == digest(item.rendered)
  }

  predicate Unplanned(item: Item) {
    item.workStep.None? && item.run.None? && item.mediaSeed.None?
  }

  predicate Planned(item: Item) {
    item.workStep.Some? && item.run.Some? && item.mediaSeed.Some?
  }

  predicate PlansApart(items: seq<Item>) {
    forall i, j | 0 <= i < j < |items| ::
      items[i].workStep != items[j].workStep && items[i].run != items[j].run && items[i].mediaSeed != items[j].mediaSeed
  }

  predicate ItemsCoherent(b: Batch, digest: string -> string) {
    && 1 <= |b.items| <= b.requested && Increasing(b.items)
    && (forall i | 0 <= i < |b.items| :: 1 <= b.items[i].ordinal <= b.requested && Fresh(b.items[i], digest))
    && (forall i, j | 0 <= i < j < |b.items| :: b.items[i].id != b.items[j].id)
    && b.unfilled == Missing(b.requested, b.items)
    && (b.codecVersion == if b.unfilled == [] then 2 else 3)
  }

  predicate StateCoherent(b: Batch, queueKey: nat) {
    if b.isQueued then
      && b.planVersion == 2 && b.queueKey == Some(queueKey) && b.workPlan.Some? && b.queuedAt.Some?
      && (forall i | 0 <= i < |b.items| :: Planned(b.items[i])) && PlansApart(b.items)
    else
      && b.planVersion == 1 && b.queueKey.None? && b.workPlan.None? && b.queuedAt.None?
      && (forall i | 0 <= i < |b.items| :: Unplanned(b.items[i]))
  }

  /** A response that parses: it answers what was asked, and hangs together. */
  predicate Coherent(b: Batch, asked: Authority, digest: string -> string) {
    && b.subject == asked.subject && b.requested == asked.itemCount
    && ItemsCoherent(b, digest) && StateCoherent(b, asked.queueKey)
  }

  /** A created batch may come back already queued only as a replay. */
  predicate AdmitsCreated(batch: Batch, asked: Authority, digest: string -> string) {
    Coherent(batch, asked, digest) && (batch.isQueued ==> batch.replayed)
  }

  /** Nothing of the prompt changed. */
  predicate SamePrompt(item: Item, previous: Item) {
    item == previous.(workStep := item.workStep, run := item.run, mediaSeed := item.mediaSeed)
  }

  /** A queued batch is the draft, one plan version on. */
  predicate AdmitsQueued(batch: Batch, draft: Batch, asked: Authority, digest: string -> string) {
    && Coherent(batch, asked, digest)
    && batch.isQueued && batch.id == draft.id && batch.codecVersion == draft.codecVersion
    && batch.unfilled == draft.unfilled
    && batch.planVersion == draft.planVersion + 1 && batch.planSha == draft.planSha
    && |batch.items| == |draft.items|
    && (forall i | 0 <= i < |batch.items| :: SamePrompt(batch.items[i], draft.items[i]))
  }

  /** Every item as it was rendered, with ordinals that grow and identifiers that differ. */
  method ParseItems(items: seq<Item>, count: int, digest: string -> string) returns (ok: bool)
    ensures ok <==> Increasing(items)
                    && (forall i :: 0 <= i < |items| ==> 1 <= items[i].ordinal <= count && Fresh(items[i], digest))
                    && (forall i, j :: 0 <= i < j < |items| ==> items[i].id != items[j].id)
  {
    hide Increasing;
    var ids := {};
    for i := 0 to |items|
      invariant ids == set j | 0 <= j < i :: items[j].id
      invariant forall j :: 0 <= j < i ==> 1 <= items[j].ordinal <= count && Fresh(items[j], digest)
      invariant forall j, k :: 0 <= j < k < i ==> items[j].id != items[k].id
    {
      var item := items[i];
      if item.ordinal < 1 || item.ordinal > count || item.id in ids { return false; }
      if !item.selected || item.reviewVersion != 1 || item.rerollCount != 0 || item.rendered != item.reviewed
         || item.renderedSha != item.reviewedSha || item.renderedSha != digest(item.rendered) {
        return false;
      }
      ids := ids + {item.id};
    }
    ok := Ascend(items);
  }

  method Ascend(items: seq<Item>) returns (ok: bool)
    ensures ok <==> Increasing(items)
  {
    for i := 0 to |items|
      invariant forall j, k :: 0 <= j < k < i ==> items[j].ordinal < items[k].ordinal
    {
      if i > 0 && items[i].ordinal <= items[i - 1].ordinal { return false; }
    }
    return true;
  }

  /** The ordinals that no item supplies. */
  method FindMissing(count: nat, items: seq<Item>) returns (missing: seq<int>)
    ensures missing == Missing(count, items)
  {
    var supplied := set i | 0 <= i < |items| :: items[i].ordinal;
    missing := [];
    for k := 0 to count
      invariant missing == Missing(k, items)
    {
      assert k + 1 in supplied <==> Numbered(items, k + 1);
      if k + 1 !in supplied { missing := missing + [k + 1]; }
      assert missing == Missing(k + 1, items);
    }
  }

  /** A queued batch's items are each planned, under steps, runs and seeds of their own. */
  method ParsePlans(items: seq<Item>) returns (ok: bool)
    ensures ok <==> (forall i :: 0 <= i < |items| ==> Planned(items[i])) && PlansApart(items)
  {
    var steps, runs, seeds := {}, {}, {};
    for i := 0 to |items|
      invariant steps == (set j | 0 <= j < i :: items[j].workStep) && runs == (set j | 0 <= j < i :: items[j].run)
      invariant seeds == set j | 0 <= j < i :: items[j].mediaSeed
      invariant forall j :: 0 <= j < i ==> Planned(items[j])
      invariant PlansApart(items[..i])
    {
      var item := items[i];
      if item.workStep.None? || item.run.None? || item.mediaSeed.None? { return false; }
      if item.workStep in steps || item.run in runs || item.mediaSeed in seeds { return false; }
      steps, runs, seeds := steps + {item.workStep}, runs + {item.run}, seeds + {item.mediaSeed};
    }
    assert items[..|items|] == items;
    return true;
  }

  /** The reading of an answer whose fields have their types. */
  method ParseBatch(b: Batch, asked: Authority, digest: string -> string) returns (ok: bool)
    ensures ok == Coherent(b, asked, digest)
  {
    hide Fresh, Increasing, PlansApart, Missing;
    if b.subject != asked.subject || b.requested != asked.itemCount { return false; }
    if |b.items| < 1 || |b.items| > b.requested { return false; }
    var items := ParseItems(b.items, b.requested, digest);
    if !items { return false; }
    var missing := FindMissing(b.requested, b.items);
    if (b.codecVersion != 2 && b.codecVersion != 3) || (b.codecVersion == 2 && missing != [])
       || (b.codecVersion == 3 && missing == []) || b.unfilled != missing {
      return false;
    }
    if !b.isQueued {
      return b.planVersion == 1 && b.queueKey.None? && b.workPlan.None? && b.queuedAt.None?
             && forall i | 0 <= i < |b.items| :: Unplanned(b.items[i]);
    }
    if b.planVersion != 2 || b.queueKey != Some(asked.queueKey) || b.workPlan.None? || b.queuedAt.None? { return false; }
    ok := ParsePlans(b.items);
  }

  /** The same prompts under the same numbers, field by field; what queueing adds to an
      item is not looked at. */
  method SamePrompts(items: seq<Item>, previous: seq<Item>) returns (same: bool)
    ensures same <==> |items| == |previous| && forall i :: 0 <= i < |items| ==> SamePrompt(items[i], previous[i])
  {
    if |items| != |previous| { return false; }
    for i := 0 to |items|
      invariant forall j :: 0 <= j < i ==> SamePrompt(items[j], previous[j])
    {
      var a, b := items[i], previous[i];
      if a.id != b.id || a.ordinal != b.ordinal || a.rendered != b.rendered || a.renderedSha != b.renderedSha
         || a.reviewed != b.reviewed || a.reviewedSha != b.reviewedSha || a.selected != b.selected
         || a.reviewVersion != b.reviewVersion || a.rerollCount != b.rerollCount {
        return false;
      }
    }
    return true;
  }

  /** The queued batch's own comparison with the draft it was sent for. */
  method AdmitQueued(batch: Batch, draft: Batch, asked: Authority, digest: string -> string) returns (admits: bool)
    ensures admits == AdmitsQueued(batch, draft, asked, digest)
  {
    hide Coherent, SamePrompt;
    var parses := ParseBatch(batch, asked, digest);
    if !parses || !batch.isQueued { return false; }
    if batch.id != draft.id || batch.codecVersion != draft.codecVersion || |batch.unfilled| != |draft.unfilled| { return false; }
    if exists i | 0 <= i < |batch.unfilled| :: batch.unfilled[i] != draft.unfilled[i] { return false; }
    if batch.planVersion != draft.planVersion + 1 || batch.planSha != draft.planSha { return false; }
    admits := SamePrompts(batch.items, draft.items);
  }

  lemma {:induction false} MissingMeans(count: nat, items: seq<Item>, k: int)
    ensures k in Missing(count, items) <==> 1 <= k <= count && !Numbered(items, k)
    decreases count
  {
    if count > 0 { MissingMeans(count - 1, items, k); }
  }

  lemma {:induction false} MissingCounts(count: nat, items: seq<Item>)
    requires Increasing(items) && (forall i | 0 <= i < |items| :: 1 <= items[i].ordinal <= count)
    ensures |Missing(count, items)| + |items| == count
    decreases count
  {
    if count > 0 {
      var rest := if Numbered(items, count) then items[..|items| - 1] else items;
      if Numbered(items, count) {
        var i :| 0 <= i < |items| && items[i].ordinal == count;
        assert i == |items| - 1;
      }
      MissingCounts(count - 1, rest);
      MissingLess(count - 1, items, rest, count);
    }
    assert items != [] ==> items[0].ordinal >= 1;
  }

  lemma {:induction false} MissingLess(count: nat, items: seq<Item>, rest: seq<Item>, last: int)
    requires rest == items || (items != [] && rest == items[..|items| - 1] && items[|items| - 1].ordinal == last)
    requires count < last
    ensures Missing(count, rest) == Missing(count, items)
    decreases count
  {
    if count > 0 {
      MissingLess(count - 1, items, rest, last);
      assert Numbered(rest, count) <==> Numbered(items, count) by {
        if Numbered(items, count) {
          var i :| 0 <= i < |items| && items[i].ordinal == count;
          assert i < |rest| && rest[i] == items[i];
        }
      }
    }
  }

  /** Of the ordinals asked for, each is an item's or unfilled, never both, and none is
      counted twice; the codec says whether the batch is whole. */
  lemma OrdinalsShared(b: Batch, asked: Authority, digest: string -> string)
    requires Coherent(b, asked, digest)
    ensures forall k :: 1 <= k <= asked.itemCount ==> (k in b.unfilled <==> !Numbered(b.items, k))
    ensures forall k :: k in b.unfilled ==> 1 <= k <= asked.itemCount
    ensures |b.items| + |b.unfilled| == asked.itemCount
    ensures b.codecVersion == 2 <==> |b.items| == asked.itemCount
  {
    forall k ensures k in b.unfilled <==> 1 <= k <= b.requested && !Numbered(b.items, k) {
      MissingMeans(b.requested, b.items, k);
    }
    MissingCounts(b.requested, b.items);
  }

  // ------------------------------------------------------------ what a history may say

  function Outstanding(history: seq<Fact>): int {
    if history == [] then 0
    else Outstanding(history[..|history| - 1]) + Load(history[|history| - 1])
  }

  function Load(fact: Fact): int {
    if fact.SentCreate? || fact.SentQueue? then 1 else if fact.Answered? then -1 else 0
  }

  ghost predicate HasAdmitted(history: seq<Fact>, id: nat) {
    exists j :: 0 <= j < |history| && history[j].Admitted? && history[j].id == id
  }

  /** The request keeps its attempt's key; a create comes before any batch of the
      attempt; a queue names an admitted batch, accepted if it is not whole. */
  ghost predicate Proper(before: seq<Fact>, fact: Fact, keys: map<nat, Keys>) {
    match fact
    case SentCreate(id, key) => id in keys && key == keys[id].create && !HasAdmitted(before, id)
    case SentQueue(id, key, batch) =>
      id in keys && key == keys[id].queue && Admitted(id, batch) in before && (batch.unfilled != [] ==> Accepted(id) in before)
    case Admitted(id, b) => id in keys && (b.isQueued ==> b.queueKey == Some(keys[id].queue))
    case Accepted(id) => id in keys
    case Answered => true
  }

  /** So at every point, and never two requests in flight. */
  ghost predicate Safe(history: seq<Fact>, keys: map<nat, Keys>) {
    forall i :: 0 <= i < |history| ==> Fits(history, keys, i)
  }

  ghost predicate Fits(history: seq<Fact>, keys: map<nat, Keys>, i: nat)
    requires i < |history|
  {
    Proper(history[..i], history[i], keys) && 0 <= Outstanding(history[..i + 1]) <= 1
  }

  /** No two attempts share a key, nor an attempt's two requests. */
  predicate KeysApart(keys: map<nat, Keys>, next: nat) {
    && (forall a | a in keys :: keys[a].create != keys[a].queue && keys[a].create < next && keys[a].queue < next)
    && (forall a, b | a in keys && b in keys && a != b ::
          keys[a].create != keys[b].create && keys[a].queue != keys[b].queue && keys[a].create != keys[b].queue)
  }

  lemma SafeThen(history: seq<Fact>, keys: map<nat, Keys>, fact: Fact)
    requires Safe(history, keys) && Proper(history, fact, keys) && 0 <= Outstanding(history) + Load(fact) <= 1
    ensures Safe(history + [fact], keys) && Outstanding(history + [fact]) == Outstanding(history) + Load(fact)
    ensures forall f :: f in history || f == fact <==> f in history + [fact]
    ensures forall id :: HasAdmitted(history + [fact], id) <==> HasAdmitted(history, id) || (fact.Admitted? && fact.id == id)
  {
    var more := history + [fact];
    assert more[..|history|] == history && more[..|more|] == more;
    forall i | 0 <= i < |more| ensures Fits(more, keys, i) {
      if i < |history| {
        assert Fits(history, keys, i);
        assert more[..i] == history[..i] && more[..i + 1] == history[..i + 1];
      }
    }
    forall id | HasAdmitted(history, id) ensures HasAdmitted(more, id) {
      var j :| 0 <= j < |history| && history[j].Admitted? && history[j].id == id;
      assert more[j] == history[j];
    }
    assert more[|history|] == fact;
  }

  /** A new attempt's keys leave what was safe safe. */
  lemma SafeWithKeys(history: seq<Fact>, keys: map<nat, Keys>, id: nat, pair: Keys)
    requires Safe(history, keys) && id !in keys
    ensures Safe(history, keys[id := pair])
  {
    var more := keys[id := pair];
    forall i | 0 <= i < |history| ensures Fits(history, more, i) {
      assert Fits(history, keys, i);
    }
  }

  /** In a safe history every create of an attempt comes before its first queue. */
  lemma CreatesThenQueues(history: seq<Fact>, keys: map<nat, Keys>, i: nat, j: nat)
    requires Safe(history, keys) && i < |history| && j < |history|
    requires history[i].SentCreate? && history[j].SentQueue? && history[i].id == history[j].id
    ensures i < j
  {
    assert Fits(history, keys, i) && Fits(history, keys, j);
    assert HasAdmitted(history[..j], history[j].id);
    StillAdmitted(history, j, i, history[j].id);
  }

  lemma StillAdmitted(history: seq<Fact>, j: nat, i: nat, id: nat)
    requires i <= |history| && j <= |history| && HasAdmitted(history[..j], id)
    ensures j <= i ==> HasAdmitted(history[..i], id)
  {
  }

  /** Two requests carry one key exactly when they are of one kind and one attempt. */
  lemma KeyIffAttempt(history: seq<Fact>, keys: map<nat, Keys>, next: nat, i: nat, j: nat)
    requires Safe(history, keys) && KeysApart(keys, next) && i < |history| && j < |history|
    requires (history[i].SentCreate? || history[i].SentQueue?) && (history[j].SentCreate? || history[j].SentQueue?)
    ensures history[i].key == history[j].key
            <==> history[i].id == history[j].id && history[i].SentCreate? == history[j].SentCreate?
  {
    assert Fits(history, keys, i) && Fits(history, keys, j);
  }

  /** A batch that is not whole is queued only after its attempt's user accepted it,
      and was admitted before that request. */
  lemma QueuedWasAccepted(history: seq<Fact>, keys: map<nat, Keys>, i: nat)
    requires Safe(history, keys) && i < |history| && history[i].SentQueue?
    ensures exists j :: 0 <= j < i && history[j] == Admitted(history[i].id, history[i].batch)
    ensures history[i].batch.unfilled != [] ==> exists j :: 0 <= j < i && history[j] == Accepted(history[i].id)
  {
    assert Fits(history, keys, i);
    var k :| 0 <= k < |history[..i]| && history[..i][k] == Admitted(history[i].id, history[i].batch);
    assert history[k] == history[..i][k];
    if history[i].batch.unfilled != [] {
      var a :| 0 <= a < |history[..i]| && history[..i][a] == Accepted(history[i].id);
      assert history[a] == history[..i][a];
    }
  }

  /** A queued batch admitted under two attempts would carry both their queue keys: it
      is one attempt. */
  lemma QueuedIsOwn(history: seq<Fact>, keys: map<nat, Keys>, next: nat, i: nat, j: nat)
    requires Safe(history, keys) && KeysApart(keys, next) && i < |history| && j < |history|
    requires history[i].Admitted? && history[j].Admitted? && history[i].batch.isQueued
    requires history[i].batch == history[j].batch
    ensures history[i].id == history[j].id
  {
    assert Fits(history, keys, i) && Fits(history, keys, j);
  }

  // ------------------------------------------------------------ the component

  /** An attempt as the history knows it. */
  ghost predicate Known(history: seq<Fact>, keys: map<nat, Keys>, a: Attempt, digest: string -> string) {
    && (a.batch.Some? ==> Coherent(a.batch.value, AuthorityOf(a), digest))
    && a.id in keys && keys[a.id] == Keys(a.createKey, a.queueKey)
    && (a.batch.None? ==> !HasAdmitted(history, a.id))
    && (a.batch.Some? ==> Admitted(a.id, a.batch.value) in history)
    && (a.errorStage.Some? <==> a.status == Failed)
    && (a.errorStage == Some(QueueStage) ==> Acceptable(history, a))
    && (a.status == Partial ==> a.batch.Some?)
    && (a.status == Queued ==> a.batch.Some? && a.batch.value.isQueued)
  }

  /** Its batch may be queued without asking the user. */
  ghost predicate Acceptable(history: seq<Fact>, a: Attempt) {
    a.batch.Some? && (a.batch.value.unfilled != [] ==> Accepted(a.id) in history)
  }

  datatype Event = Begin(count: Option<int>, subject: nat) | Retry | QueuePartial | Discard | CloseDialog | OpenDialog | Answers(answer: Answer)

  class PromptQueue {
    const countMaximum: int
    const digest: string -> string
    var isOpen: bool
    var inFlight: bool
    var attempt: Option<Attempt>
    var waiting: Waiting
    var nextKey: nat
    var nextId: nat
    ghost var history: seq<Fact>
    ghost var keys: map<nat, Keys>

    /** No more than 16 at once, no less than one; none that is a number reads as one. */
    constructor (maximum: Option<int>, digest: string -> string)
      ensures Valid() && history == [] && this.digest == digest && 1 <= countMaximum <= 16
      ensures maximum.None? ==> countMaximum == 1
      ensures maximum.Some? && 1 <= maximum.value <= 16 ==> countMaximum == maximum.value
      ensures maximum.Some? && maximum.value < 1 ==> countMaximum == 1
      ensures maximum.Some? && maximum.value > 16 ==> countMaximum == 16
    {
      countMaximum := match maximum
                      case None => 1
                      case Some(m) => if m < 1 then 1 else if m > MAX_ITEMS then MAX_ITEMS else m;
      this.digest := digest;
      isOpen, inFlight, attempt, waiting := false, false, None, Idle;
      nextKey, nextId := 0, 0;
      history, keys := [], map[];
    }

    /** What never depends on where a run stands. */
    ghost predicate Consistent() reads this {
      Safe(history, keys) && KeysApart(keys, nextKey) && (forall id :: id in keys ==> id < nextId)
    }

    ghost predicate Valid() reads this {
      && Consistent()
      && inFlight == !waiting.Idle? && Outstanding(history) == (if inFlight then 1 else 0)
      && (attempt.Some? ==> Known(history, keys, attempt.value, digest))
      && match waiting
         case Idle => attempt.Some? ==> attempt.value.status !in {Creating, Queueing}
         case ForCreate(current, accept) =>
           !accept && attempt == Some(current) && current.status == Creating && current.batch.None?
         case ForQueue(current, draft) =>
           attempt == Some(current) && current.status == Queueing && current.batch == Some(draft) && Acceptable(history, current)
    }

    /** The history and what depends on it, one fact longer. */
    ghost method Record(fact: Fact)
      requires Safe(history, keys) && Proper(history, fact, keys) && 0 <= Outstanding(history) + Load(fact) <= 1
      modifies this`history
      ensures history == old(history) + [fact] && Safe(history, keys)
      ensures Outstanding(history) == Outstanding(old(history)) + Load(fact)
      ensures forall f :: f in history <==> f in old(history) || f == fact
      ensures forall id :: HasAdmitted(history, id) <==> HasAdmitted(old(history), id) || (fact.Admitted? && fact.id == id)
    {
      SafeThen(history, keys, fact);
      history := history + [fact];
    }

    /** What a run of an attempt sends before it first waits. */
    ghost function Sends(a: Attempt, acceptPartial: bool): seq<Fact> {
      match a.batch
      case None => [SentCreate(a.id, a.createKey)]
      case Some(b) => if b.unfilled != [] && !acceptPartial then [] else [SentQueue(a.id, a.queueKey, b)]
    }

    /** A run starts: a create if there is no batch yet, else on to the queue. */
    method Run(frozen: Attempt, acceptPartial: bool)
      requires Consistent()
      requires !inFlight && waiting == Idle && Outstanding(history) == 0
      requires Known(history, keys, frozen, digest)
      requires acceptPartial ==> Acceptable(history, frozen)
      modifies this`inFlight, this`attempt, this`waiting, this`history
      ensures Valid() && history == old(history) + Sends(frozen, acceptPartial)
      ensures var status := if frozen.batch.None? then Creating else if Sends(frozen, acceptPartial) == [] then Partial else Queueing;
              attempt == Some(frozen.(status := status, errorStage := None))
    {
      hide Safe, KeysApart, HasAdmitted, Outstanding;
      inFlight := true;
      if frozen.batch.None? {
        var current := frozen.(status := Creating, errorStage := None);
        attempt := Some(current);
        Record(SentCreate(frozen.id, frozen.createKey));
        waiting := ForCreate(current, acceptPartial);
      } else {
        Proceed(frozen, frozen.batch.value, acceptPartial);
      }
    }

    /** With a draft in hand: a batch that is not whole waits for the user, any other
        is queued. */
    method Proceed(current: Attempt, draft: Batch, acceptPartial: bool)
      requires Consistent()
      requires inFlight && Outstanding(history) == 0
      requires current.id in keys && keys[current.id] == Keys(current.createKey, current.queueKey)
      requires Admitted(current.id, draft) in history && Coherent(draft, AuthorityOf(current), digest)
      requires acceptPartial ==> (draft.unfilled != [] ==> Accepted(current.id) in history)
      modifies this`inFlight, this`attempt, this`waiting, this`history
      ensures Valid() && history == old(history) + Sends(current.(batch := Some(draft)), acceptPartial)
      ensures var status := if Sends(current.(batch := Some(draft)), acceptPartial) == [] then Partial else Queueing;
              attempt == Some(current.(batch := Some(draft), status := status, errorStage := None))
    {
      hide Safe, KeysApart, HasAdmitted, Outstanding;
      if draft.unfilled != [] && !acceptPartial {
        attempt := Some(current.(batch := Some(draft), status := Partial, errorStage := None));
        waiting := Idle;
        inFlight := false;
        return;
      }
      var queueing := current.(batch := Some(draft), status := Queueing, errorStage := None);
      attempt := Some(queueing);
      Record(SentQueue(current.id, current.queueKey, draft));
      waiting := ForQueue(queueing, draft);
    }

    /** The run ends; `attempt` is what it published last. */
    method Finish(last: Attempt)
      requires Consistent()
      requires Outstanding(history) == 0 && Known(history, keys, last, digest) && last.status in {Queued, Failed}
      modifies this`inFlight, this`attempt, this`waiting
      ensures Valid() && !inFlight && attempt == Some(last)
    {
      attempt := Some(last);
      waiting := Idle;
      inFlight := false;
    }

    /** What an answer to a create makes of its attempt. */
    ghost predicate CreateAnswered(a: Attempt, answer: Answer, before: seq<Fact>, after: seq<Fact>, now: Option<Attempt>) {
      match answer
      case Refused => now == Some(a.(status := Failed, errorStage := Some(CreateStage))) && after == before + [Answered]
      case Unreadable => now == Some(a.(status := Failed, errorStage := Some(AdmissionStage))) && after == before + [Answered]
      case Parsed(b) =>
        if !AdmitsCreated(b, AuthorityOf(a), digest) then
          now == Some(a.(status := Failed, errorStage := Some(AdmissionStage))) && after == before + [Answered]
        else if b.isQueued then
          && now == Some(a.(batch := Some(b), status := Queued, errorStage := None))
          && after == before + [Answered, Admitted(a.id, b)]
        else
          && now == Some(a.(batch := Some(b), status := if b.unfilled != [] then Partial else Queueing, errorStage := None))
          && after == before + [Answered, Admitted(a.id, b)] + Sends(a.(batch := Some(b)), false)
    }

    /** ... and an answer to a queue. */
    ghost predicate QueueAnswered(a: Attempt, draft: Batch, answer: Answer, before: seq<Fact>, after: seq<Fact>, now: Option<Attempt>) {
      match answer
      case Refused => now == Some(a.(status := Failed, errorStage := Some(QueueStage))) && after == before + [Answered]
      case Unreadable => now == Some(a.(status := Failed, errorStage := Some(AdmissionStage))) && after == before + [Answered]
      case Parsed(b) =>
        if AdmitsQueued(b, draft, AuthorityOf(a), digest) then
          && now == Some(a.(batch := Some(b), status := Queued, errorStage := None))
          && after == before + [Answered, Admitted(a.id, b)]
        else now == Some(a.(status := Failed, errorStage := Some(AdmissionStage))) && after == before + [Answered]
    }

    method ReceiveCreated(answer: Answer)
      requires Valid() && waiting.ForCreate?
      modifies this`inFlight, this`attempt, this`waiting, this`history
      ensures Valid() && CreateAnswered(old(waiting.current), answer, old(history), history, attempt)
    {
      hide Safe, KeysApart, HasAdmitted, Coherent, Outstanding;
      var current := waiting.current;
      Record(Answered);
      match answer {
        case Refused => Finish(current.(status := Failed, errorStage := Some(CreateStage)));
        case Unreadable => Finish(current.(status := Failed, errorStage := Some(AdmissionStage)));
        case Parsed(batch) =>
          var parses := ParseBatch(batch, AuthorityOf(current), digest);
          if !parses || (batch.isQueued && !batch.replayed) {
            Finish(current.(status := Failed, errorStage := Some(AdmissionStage)));
          } else {
            OwnKey(batch, AuthorityOf(current), digest);
            Record(Admitted(current.id, batch));
            assert history == old(history) + [Answered, Admitted(current.id, batch)];
            if batch.isQueued {
              Finish(current.(batch := Some(batch), status := Queued, errorStage := None));
            } else {
              Proceed(current, batch, waiting.acceptPartial);
            }
          }
      }
    }

    method ReceiveQueued(answer: Answer)
      requires Valid() && waiting.ForQueue?
      modifies this`inFlight, this`attempt, this`waiting, this`history
      ensures Valid() && QueueAnswered(old(waiting.current), old(waiting.draft), answer, old(history), history, attempt)
    {
      hide Safe, KeysApart, HasAdmitted, Coherent, Outstanding;
      var current := waiting.current;
      Record(Answered);
      match answer {
        case Refused => Finish(current.(status := Failed, errorStage := Some(QueueStage)));
        case Unreadable => Finish(current.(status := Failed, errorStage := Some(AdmissionStage)));
        case Parsed(batch) =>
          var admits := AdmitQueued(batch, waiting.draft, AuthorityOf(current), digest);
          if admits {
            OwnKey(batch, AuthorityOf(current), digest);
            Record(Admitted(current.id, batch));
            assert history == old(history) + [Answered, Admitted(current.id, batch)];
            Finish(current.(batch := Some(batch), status := Queued, errorStage := None));
          } else {
            Finish(current.(status := Failed, errorStage := Some(AdmissionStage)));
          }
      }
    }

    /** The server answers the outstanding request, if there is one. A batch is admitted
        exactly if it answers what was asked, and a queued one if it is the draft too. */
    method Receive(answer: Answer)
      requires Valid()
      modifies this`inFlight, this`attempt, this`waiting, this`history
      ensures Valid()
      ensures old(waiting).Idle? ==> history == old(history) && attempt == old(attempt)
      ensures old(waiting).ForCreate? ==> CreateAnswered(old(waiting.current), answer, old(history), history, attempt)
      ensures old(waiting).ForQueue? ==>
                QueueAnswered(old(waiting.current), old(waiting.draft), answer, old(history), history, attempt)
    {
      hide Valid, CreateAnswered, QueueAnswered;
      match waiting {
        case Idle =>
        case ForCreate(_, _) => ReceiveCreated(answer);
        case ForQueue(_, _) => ReceiveQueued(answer);
      }
    }

    /** A new attempt's first run. */
    method Start(frozen: Attempt)
      requires Consistent()
      requires !inFlight && waiting == Idle && Outstanding(history) == 0
      requires frozen.id in keys && keys[frozen.id] == Keys(frozen.createKey, frozen.queueKey)
      requires !HasAdmitted(history, frozen.id) && frozen.batch.None? && frozen.status == Creating && frozen.errorStage.None?
      modifies this`inFlight, this`attempt, this`waiting, this`history
      ensures Valid() && history == old(history) + [SentCreate(frozen.id, frozen.createKey)]
      ensures attempt == Some(frozen)
    {
      hide Safe, KeysApart, HasAdmitted, Outstanding, Proper;
      Run(frozen, false);
    }

    /** A new attempt, unless one is there or the count is out of range. */
    method Begin(count: Option<int>, subject: nat)
      requires Valid()
      modifies this
      ensures Valid() && isOpen == old(isOpen)
      ensures var starts := !old(inFlight) && old(attempt).None? && count.Some? && 1 <= count.value <= countMaximum;
              if starts then
                attempt.Some? && attempt.value.id !in old(keys) && attempt.value.itemCount == count.value && attempt.value.subject == subject
                && history == old(history) + [SentCreate(attempt.value.id, attempt.value.createKey)]
              else history == old(history) && attempt == old(attempt)
    {
      if inFlight || attempt.Some? || count.None? || count.value < 1 || count.value > countMaximum { return; }
      hide Consistent, HasAdmitted, Outstanding, Acceptable, Known;
      var frozen := Allocate(count.value, subject);
      Start(frozen);
    }

    /** A new attempt under two new keys. */
    method Allocate(count: int, subject: nat) returns (frozen: Attempt)
      requires Consistent()
      modifies this`keys, this`nextKey, this`nextId
      ensures Consistent() && !HasAdmitted(history, frozen.id) && frozen.id !in old(keys)
      ensures frozen.id in keys && keys[frozen.id] == Keys(frozen.createKey, frozen.queueKey)
      ensures frozen == Attempt(frozen.id, subject, frozen.createKey, frozen.queueKey, count, None, Creating, None)
    {
      hide Safe, KeysApart, HasAdmitted, Proper;
      frozen := Attempt(nextId, subject, nextKey, nextKey + 1, count, None, Creating, None);
      KeysAdded(keys, nextKey, nextId);
      SafeWithKeys(history, keys, nextId, Keys(nextKey, nextKey + 1));
      NeverAdmitted(history, keys, nextId);
      keys := keys[nextId := Keys(nextKey, nextKey + 1)];
      nextKey, nextId := nextKey + 2, nextId + 1;
    }

    method Retry()
      requires Valid()
      modifies this`inFlight, this`attempt, this`waiting, this`history
      ensures Valid()
      ensures !old(inFlight) && old(attempt).Some? && old(attempt).value.status == Failed ==>
                history == old(history) + Sends(old(attempt).value, old(attempt).value.errorStage == Some(QueueStage))
      ensures old(inFlight) || old(attempt).None? || old(attempt).value.status != Failed ==>
                history == old(history) && attempt == old(attempt)
    {
      if attempt.None? || attempt.value.status != Failed || inFlight { return; }
      Run(attempt.value, attempt.value.errorStage == Some(QueueStage));
    }

    /** The user takes a batch that is not whole. */
    method QueuePartial()
      requires Valid()
      modifies this`inFlight, this`attempt, this`waiting, this`history
      ensures Valid()
      ensures !old(inFlight) && old(attempt).Some? && old(attempt).value.status == Partial ==>
                var a := old(attempt).value;
                history == old(history) + [Accepted(a.id), SentQueue(a.id, a.queueKey, a.batch.value)]
                && attempt == Some(a.(status := Queueing))
      ensures old(inFlight) || old(attempt).None? || old(attempt).value.status != Partial ==>
                history == old(history) && attempt == old(attempt)
    {
      if attempt.None? || attempt.value.status != Partial || inFlight { return; }
      hide Safe, KeysApart, HasAdmitted, Outstanding, Coherent, Known, Acceptable;
      var a := attempt.value;
      KnownBatch(history, keys, a, digest);
      Record(Accepted(a.id));
      KnownAccepted(old(history), history, keys, a, digest);
      Run(a, true);
      assert history == old(history) + ([Accepted(a.id)] + [SentQueue(a.id, a.queueKey, a.batch.value)]);
    }

    method Discard()
      requires Valid()
      modifies this`attempt
      ensures Valid() && attempt == if inFlight then old(attempt) else None
    {
      if inFlight { return; }
      attempt := None;
    }

    method Close()
      requires Valid()
      modifies this`attempt, this`isOpen
      ensures Valid() && !isOpen
      ensures attempt == if old(attempt).Some? && old(attempt).value.status == Queued then None else old(attempt)
    {
      hide Safe, KeysApart, HasAdmitted, Coherent, Outstanding, Acceptable;
      isOpen := false;
      if attempt.Some? && attempt.value.status == Queued { attempt := None; }
    }

    /** Any clicks and answers in any order: the history stays safe. */
    method Drive(events: seq<Event>)
      requires Valid()
      modifies this
      ensures Valid() && Safe(history, keys)
    {
      for i := 0 to |events|
        invariant Valid()
      {
        match events[i] {
          case Begin(count, subject) => Begin(count, subject);
          case Retry => Retry();
          case QueuePartial => QueuePartial();
          case Discard => Discard();
          case CloseDialog => Close();
          case OpenDialog => isOpen := true;
          case Answers(answer) => Receive(answer);
        }
      }
    }
  }

  lemma KnownBatch(history: seq<Fact>, keys: map<nat, Keys>, a: Attempt, digest: string -> string)
    requires Known(history, keys, a, digest) && a.status == Partial
    ensures a.id in keys && a.batch.Some?
  {
  }

  /** An attempt whose batch the user takes is known as before, and may be queued. */
  lemma KnownAccepted(history: seq<Fact>, more: seq<Fact>, keys: map<nat, Keys>, a: Attempt, digest: string -> string)
    requires Known(history, keys, a, digest) && a.batch.Some?
    requires forall f :: f in more <==> f in history || f == Accepted(a.id)
    requires forall id :: HasAdmitted(more, id) <==> HasAdmitted(history, id)
    ensures Known(more, keys, a, digest) && Acceptable(more, a)
  {
    hide HasAdmitted, Coherent;
  }

  /** A queued batch that is admitted carries its attempt's own queue key. */
  lemma OwnKey(b: Batch, asked: Authority, digest: string -> string)
    requires Coherent(b, asked, digest)
    ensures b.isQueued ==> b.queueKey == Some(asked.queueKey)
  {
  }

  lemma KeysAdded(keys: map<nat, Keys>, next: nat, id: nat)
    requires KeysApart(keys, next) && id !in keys
    ensures KeysApart(keys[id := Keys(next, next + 1)], next + 2)
  {
  }

  /** Nothing was admitted for an attempt that has no keys yet. */
  lemma NeverAdmitted(history: seq<Fact>, keys: map<nat, Keys>, id: nat)
    requires Safe(history, keys) && id !in keys
    ensures !HasAdmitted(history, id)
  {
    forall j | 0 <= j < |history| && history[j].Admitted? ensures history[j].id in keys {
      assert Fits(history, keys, j);
    }
  }
}
