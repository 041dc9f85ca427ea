/**
 The event watcher's two cursors. The live cursor follows the tip; a backfill cursor walks history from the
 boot ledger up to a ceiling, the tip at boot. `boot`, `floor` and `refused` are kept for the statements only: where
 the current backfill began, the greatest oldest-retained ledger the RPC has reported, and the greatest start ledger
 it has refused as out of retention.
 */
module Watcher {
  import opened Sequences
  import opened EventFetch

  datatype Watch = Watch(live: Option<int>, back: Option<int>, ceiling: Option<int>, contracts: seq<ContractId>,
                         dispatched: seq<Event>, boot: int, floor: Option<int>, refused: Option<int>)

  /** Answers to the calls of a live read: the tip and the oldest retained ledger, when the cursors still have to
      be resolved and those calls succeed, and one reply per `getEvents` call. */
  datatype LiveInput = LiveInput(tip: Option<int>, oldest: Option<int>, replies: seq<Reply>)

  /** Answers to the calls of a backfill slice; `oldest` is asked for after an out-of-retention error. */
  datatype SliceInput = SliceInput(replies: seq<Reply>, oldest: Option<int>)

  // ---------- One poll ----------

  /** `resolveBootStartLedger`: the pinned ledger, but never below what the RPC still retains. */
  function ResolveBootStartLedger(oldest: int, pin: Option<int>): (r: int)
    ensures r >= oldest && (pin.Some? ==> r >= pin.value)
    ensures r == oldest || pin == Some(r)
  {
    if pin.None? then oldest else if pin.value >= oldest then pin.value else oldest
  }

  /** The greater of the two. */
  function Raise(bound: Option<int>, ledger: int): (r: Option<int>)
    ensures r.Some? && r.value >= ledger
  {
    if bound.Some? && bound.value >= ledger then bound else Some(ledger)
  }

  /** The watch with its cursors resolved, if they are or can be. */
  function Boot(pin: Option<int>, w: Watch, input: LiveInput): (r: Option<Watch>)
    ensures r.Some? ==> r.value.live.Some?
  {
    if w.live.Some? then Some(w)
    else if input.tip.None? || input.oldest.None? then None
    else
      var start := ResolveBootStartLedger(input.oldest.value, pin);
      Some(w.(live := input.tip, ceiling := input.tip, back := if start >= input.tip.value then None else Some(start),
              boot := start, floor := Raise(w.floor, input.oldest.value)))
  }

  /** The live half of a poll, and whether it was healthy. */
  function LiveRead(pin: Option<int>, w: Watch, input: LiveInput): (Watch, bool) {
    match Boot(pin, w, input)
    case None => (w, false)
    case Some(w1) =>
      match Fetch(w1.contracts, w1.live.value, input.replies)
      case FetchOutOfRetention => (w1.(live := None, refused := Raise(w1.refused, w1.live.value)), false)
      case FetchFailed => (w1, false)
      case Fetched(events, latest) => (w1.(dispatched := w1.dispatched + events, live := Some(latest + 1)), true)
  }

  function Below(ledger: int): Event -> bool { (e: Event) => e.ledger < ledger }

  /** The cursor at `ledger`, or none once it has reached the ceiling. */
  function UpTo(ceiling: int, ledger: int): Option<int> { if ledger >= ceiling then None else Some(ledger) }

  /** What a slice that reads `events` dispatches, and where it leaves the cursor. */
  function AfterSlice(w: Watch, events: seq<Event>, latest: int): Watch
    requires w.ceiling.Some?
  {
    w.(dispatched := w.dispatched + Filter(events, Below(w.ceiling.value)), back := UpTo(w.ceiling.value, latest + 1))
  }

  /** Where an out-of-retention error leaves the backfill cursor. */
  function AfterRefusal(pin: Option<int>, w: Watch, oldest: Option<int>): Watch
    requires w.back.Some? && w.ceiling.Some?
  {
    var w1 := w.(refused := Raise(w.refused, w.back.value));
    if oldest.None? then w1
    else w1.(back := UpTo(w.ceiling.value, ResolveBootStartLedger(oldest.value, pin)),
             floor := Raise(w.floor, oldest.value))
  }

  /** The backfill half of a poll. */
  function Slice(pin: Option<int>, w: Watch, input: SliceInput): Watch {
    if w.back.None? || w.ceiling.None? then w
    else if w.back.value >= w.ceiling.value then w.(back := None)
    else
      match Fetch(w.contracts, w.back.value, input.replies)
      case Fetched(events, latest) => AfterSlice(w, events, latest)
      case FetchFailed => w
      case FetchOutOfRetention => AfterRefusal(pin, w, input.oldest)
  }

  function Poll(pin: Option<int>, w: Watch, live: LiveInput, slice: SliceInput): Watch {
    var (w1, healthy) := LiveRead(pin, w, live);
    if healthy then Slice(pin, w1, slice) else w1
  }

  function WithContract(ids: seq<ContractId>, c: ContractId): seq<ContractId> {
    if c in ids then ids else ids + [c]
  }

  function WithoutContract(ids: seq<ContractId>, c: ContractId): seq<ContractId> {
    Filter(ids, (x: ContractId) => x != c)
  }

  /** `EventWatcher`, with the log of dispatched events in place of its handlers. */
  class EventWatcher {
    var liveLedger: Option<int>
    var backfillLedger: Option<int>
    var backfillCeiling: Option<int>
    var contractIds: seq<ContractId>
    const startLedgerBlock: Option<int>
    var dispatched: seq<Event>
    ghost var boot: int
    ghost var floor: Option<int>
    ghost var refused: Option<int>

    ghost function State(): Watch
      reads this
    {
      Watch(liveLedger, backfillLedger, backfillCeiling, contractIds, dispatched, boot, floor, refused)
    }

    constructor (contractIds: seq<ContractId>, startLedgerBlock: Option<int>)
      ensures State() == Initial(contractIds) && this.startLedgerBlock == startLedgerBlock
    {
      liveLedger, backfillLedger, backfillCeiling := None, None, None;
      this.contractIds := contractIds;
      this.startLedgerBlock := startLedgerBlock;
      dispatched := [];
      boot, floor, refused := 0, None, None;
    }

    method AddContract(c: ContractId)
      modifies this
      ensures State() == old(State()).(contracts := WithContract(old(contractIds), c))
      ensures forall x :: x in contractIds <==> x in old(contractIds) || x == c
    {
      if c !in contractIds { contractIds := contractIds + [c]; }
    }

    method RemoveContract(c: ContractId)
      modifies this
      ensures State() == old(State()).(contracts := WithoutContract(old(contractIds), c))
      ensures forall x :: x in contractIds <==> x in old(contractIds) && x != c
    {
      contractIds := Filter(contractIds, (x: ContractId) => x != c);
    }

    /** Dispatches, in order, the events below the bound, or all of them when there is none. */
    method DispatchAll(events: seq<Event>, below: Option<int>)
      modifies this`dispatched
      ensures dispatched == old(dispatched) + if below.None? then events else Filter(events, Below(below.value))
    {
      for i := 0 to |events|
        invariant dispatched
               == old(dispatched) + if below.None? then events[..i] else Filter(events[..i], Below(below.value))
      {
        if below.Some? { FilterNext(events, i, Below(below.value)); }
        if below.None? || events[i].ledger < below.value {
          dispatched := dispatched + [events[i]];
        }
      }
      assert events[..|events|] == events;
    }

    /** The first poll resolves both cursors, or neither when a call fails. */
    method ResolveCursors(input: LiveInput) returns (ok: bool)
      modifies this
      ensures ok == Boot(startLedgerBlock, old(State()), input).Some?
      ensures State() == if ok then Boot(startLedgerBlock, old(State()), input).value else old(State())
    {
      if liveLedger.Some? { return true; }
      if input.tip.None? || input.oldest.None? { return false; }
      var tip := input.tip.value;
      var backfillStart := ResolveBootStartLedger(input.oldest.value, startLedgerBlock);
      liveLedger := Some(tip);
      backfillCeiling := Some(tip);
      backfillLedger := if backfillStart >= tip then None else Some(backfillStart);
      boot, floor := backfillStart, Raise(floor, input.oldest.value);
      return true;
    }

    method PollLive(input: LiveInput) returns (healthy: bool)
      requires |input.replies| == |Batches(contractIds)|
      modifies this
      ensures (State(), healthy) == LiveRead(startLedgerBlock, old(State()), input)
    {
      var ok := ResolveCursors(input);
      if !ok { return false; }
      var r := FetchChannelAuthEvents(contractIds, liveLedger.value, input.replies);
      match r {
        case FetchOutOfRetention =>
          refused := Raise(refused, liveLedger.value);
          liveLedger := None;
          return false;
        case FetchFailed => return false;
        case Fetched(events, latest) =>
          DispatchAll(events, None);
          liveLedger := Some(latest + 1);
          return true;
      }
    }

    /** Dispatches what lies below the ceiling and moves the backfill cursor past `latest`. */
    method FinishSlice(events: seq<Event>, latest: int, ghost w: Watch)
      requires State() == w && backfillCeiling.Some?
      modifies this
      ensures State() == AfterSlice(w, events, latest)
    {
      var ceiling := backfillCeiling.value;
      DispatchAll(events, Some(ceiling));
      backfillLedger := Some(latest + 1);
      if latest + 1 >= ceiling { backfillLedger := None; }
    }

    method Reclamp(oldest: Option<int>, ghost w: Watch)
      requires State() == w && backfillLedger.Some? && backfillCeiling.Some?
      modifies this
      ensures State() == AfterRefusal(startLedgerBlock, w, oldest)
    {
      refused := Raise(refused, backfillLedger.value);
      if oldest.Some? {
        var start := ResolveBootStartLedger(oldest.value, startLedgerBlock);
        backfillLedger := Some(start);
        if start >= backfillCeiling.value { backfillLedger := None; }
        floor := Raise(floor, oldest.value);
      }
    }

    method PollBackfill(input: SliceInput)
      requires |input.replies| == |Batches(contractIds)|
      modifies this
      ensures State() == Slice(startLedgerBlock, old(State()), input)
    {
      if backfillLedger.None? || backfillCeiling.None? { return; }
      if backfillLedger.value >= backfillCeiling.value {
        backfillLedger := None;
        return;
      }
      var r := FetchChannelAuthEvents(contractIds, backfillLedger.value, input.replies);
      match r {
        case Fetched(events, latest) => FinishSlice(events, latest, State());
        case FetchFailed =>
        case FetchOutOfRetention => Reclamp(input.oldest, State());
      }
    }

    method PollOnce(live: LiveInput, slice: SliceInput)
      requires |live.replies| == |Batches(contractIds)| && |slice.replies| == |Batches(contractIds)|
      modifies this
      ensures State() == Poll(startLedgerBlock, old(State()), live, slice)
    {
      var healthy := PollLive(live);
      if healthy { PollBackfill(slice); }
    }
  }

  // ---------- Runs ----------

  /** The contract set may also change between the two halves of a poll. */
  datatype WatchAction =
    | Live(live: LiveInput)
    | Backfill(slice: SliceInput)
    | AddContract(c: ContractId)
    | RemoveContract(c: ContractId)

  function Initial(contracts: seq<ContractId>): Watch { Watch(None, None, None, contracts, [], 0, None, None) }

  function Step(pin: Option<int>, w: Watch, a: WatchAction): Watch {
    match a
    case Live(input) => LiveRead(pin, w, input).0
    case Backfill(input) => Slice(pin, w, input)
    case AddContract(c) => w.(contracts := WithContract(w.contracts, c))
    case RemoveContract(c) => w.(contracts := WithoutContract(w.contracts, c))
  }

  function Run(pin: Option<int>, w: Watch, acts: seq<WatchAction>): Watch {
    if acts == [] then w else Step(pin, Run(pin, w, acts[..|acts| - 1]), acts[|acts| - 1])
  }

  /** A poll is a live read followed, when that was healthy, by one slice. */
  lemma PollIsRun(pin: Option<int>, w: Watch, live: LiveInput, slice: SliceInput)
    ensures Poll(pin, w, live, slice)
         == Run(pin, w, if LiveRead(pin, w, live).1 then [Live(live), Backfill(slice)] else [Live(live)])
  {
    assert [Live(live), Backfill(slice)][..1] == [Live(live)] && [Live(live)][..0] == [];
    assert Run(pin, w, [Live(live)]) == Step(pin, w, Live(live));
  }

  /** The pages a step reads are honest. */
  ghost predicate Honest(chain: seq<RawEvent>, pin: Option<int>, w: Watch, a: WatchAction) {
    && (a.Live? && Boot(pin, w, a.live).Some? ==>
          HonestReplies(chain, w.contracts, Boot(pin, w, a.live).value.live.value, a.live.replies))
    && (a.Backfill? && w.back.Some? ==> HonestReplies(chain, w.contracts, w.back.value, a.slice.replies))
  }

  ghost predicate HonestRun(chain: seq<RawEvent>, pin: Option<int>, w: Watch, acts: seq<WatchAction>) {
    acts == [] ||
    (var n := |acts| - 1; HonestRun(chain, pin, w, acts[..n]) && Honest(chain, pin, Run(pin, w, acts[..n]), acts[n]))
  }

  // ---------- Shape of the cursors ----------

  ghost predicate Shape(pin: Option<int>, w: Watch) {
    && NoDuplicates(w.contracts)
    && (w.live.Some? ==> w.ceiling.Some? && w.ceiling.value <= w.live.value)
    && (w.back.Some? ==> w.ceiling.Some? && w.back.value < w.ceiling.value && (pin.Some? ==> pin.value <= w.back.value))
  }

  lemma ContractsStayDistinct(ids: seq<ContractId>, c: ContractId)
    requires NoDuplicates(ids)
    ensures NoDuplicates(WithContract(ids, c)) && NoDuplicates(WithoutContract(ids, c))
    ensures forall x :: x in WithoutContract(ids, c) <==> x in ids && x != c
  {
    DistinctBag(ids);
    DistinctBag(WithoutContract(ids, c));
    forall x ensures multiset(WithoutContract(ids, c))[x] <= 1 {
      FilterCount(ids, (y: ContractId) => y != c, x);
    }
  }

  lemma LatestNotBefore(chain: seq<RawEvent>, ids: seq<ContractId>, start: int, replies: seq<Reply>)
    requires NoDuplicates(ids) && HonestReplies(chain, ids, start, replies) && Fetch(ids, start, replies).Fetched?
    ensures Fetch(ids, start, replies).latestLedger >= start - 1
  {
    FetchCount(chain, ids, start, replies, Event(ProviderAdded, "", 0, "", None));
  }

  lemma StepKeepsShape(chain: seq<RawEvent>, pin: Option<int>, w: Watch, a: WatchAction)
    requires Shape(pin, w) && Honest(chain, pin, w, a)
    ensures Shape(pin, Step(pin, w, a))
  {
    match a
    case Live(input) =>
      var b := Boot(pin, w, input);
      if b.Some? && Fetch(w.contracts, b.value.live.value, input.replies).Fetched? {
        LatestNotBefore(chain, w.contracts, b.value.live.value, input.replies);
      }
    case Backfill(input) =>
      if w.back.Some? && Fetch(w.contracts, w.back.value, input.replies).Fetched? {
        LatestNotBefore(chain, w.contracts, w.back.value, input.replies);
      }
    case AddContract(c) => ContractsStayDistinct(w.contracts, c);
    case RemoveContract(c) => ContractsStayDistinct(w.contracts, c);
  }

  lemma {:induction false} RunKeepsShape(chain: seq<RawEvent>, pin: Option<int>, w: Watch, acts: seq<WatchAction>)
    requires Shape(pin, w) && HonestRun(chain, pin, w, acts)
    ensures Shape(pin, Run(pin, w, acts))
  {
    if acts == [] {
    } else {
      var n := |acts| - 1;
      RunKeepsShape(chain, pin, w, acts[..n]);
      StepKeepsShape(chain, pin, Run(pin, w, acts[..n]), acts[n]);
    }
  }

  lemma StepKeepsWatching(pin: Option<int>, w: Watch, a: WatchAction, c: ContractId)
    requires c in w.contracts && a != RemoveContract(c)
    ensures c in Step(pin, w, a).contracts
  {
    match a
    case Live(_) => assert LiveRead(pin, w, a.live).0.contracts == w.contracts;
    case Backfill(_) => assert Slice(pin, w, a.slice).contracts == w.contracts;
    case AddContract(x) =>
    case RemoveContract(x) =>
  }

  lemma {:induction false} StaysWatched(pin: Option<int>, w: Watch, acts: seq<WatchAction>, c: ContractId)
    requires c in w.contracts && RemoveContract(c) !in acts
    ensures c in Run(pin, w, acts).contracts
  {
    if acts == [] {
    } else {
      var n := |acts| - 1;
      assert acts[n] in acts;
      StaysWatched(pin, w, acts[..n], c);
      StepKeepsWatching(pin, Run(pin, w, acts[..n]), acts[n], c);
    }
  }

  /** How often a slice dispatches `e`: as often as the chain when it covers `e` below the ceiling, else at most as
      often, and not at all outside the ledgers it asks for or, when one call suffices, beyond those it covers. */
  ghost predicate SliceAdds(chain: seq<RawEvent>, w: Watch, events: seq<Event>, latest: int, e: Event)
    requires w.back.Some? && w.ceiling.Some?
  {
    var added := multiset(Filter(events, Below(w.ceiling.value)))[e];
    && latest >= w.back.value - 1 && added <= OnChain(chain, e)
    && (e.ledger < w.back.value || w.ceiling.value <= e.ledger ==> added == 0)
    && (e.contract in w.contracts && w.back.value <= e.ledger <= latest && e.ledger < w.ceiling.value ==>
          added == OnChain(chain, e))
    && (|w.contracts| <= MAX_CONTRACT_IDS_PER_CALL && e.ledger > latest ==> added == 0)
  }

  lemma SliceAddsCount(chain: seq<RawEvent>, w: Watch, replies: seq<Reply>, e: Event)
    requires w.back.Some? && w.ceiling.Some? && NoDuplicates(w.contracts)
    requires HonestReplies(chain, w.contracts, w.back.value, replies)
    requires Fetch(w.contracts, w.back.value, replies).Fetched?
    ensures var r := Fetch(w.contracts, w.back.value, replies); SliceAdds(chain, w, r.events, r.latestLedger, e)
  {
    FetchCount(chain, w.contracts, w.back.value, replies, e);
    FilterCount(Fetch(w.contracts, w.back.value, replies).events, Below(w.ceiling.value), e);
  }

  // ---------- Coverage ----------

  /** How often `e` has been dispatched. */
  ghost function Count(w: Watch, e: Event): nat { multiset(w.dispatched)[e] }

  /** Still to be walked by the backfill. */
  predicate Pending(w: Watch, e: Event) {
    w.back.Some? && w.ceiling.Some? && w.back.value <= e.ledger < w.ceiling.value
  }

  /** Older than what the RPC has reported to retain. */
  predicate Gone(w: Watch, e: Event) { w.floor.Some? && e.ledger < w.floor.value }

  /** At or above the current boot ledger and behind the live cursor. */
  predicate InScope(w: Watch, e: Event) { w.live.Some? && w.boot <= e.ledger < w.live.value }

  ghost predicate Covered(chain: seq<RawEvent>, w: Watch, e: Event) {
    InScope(w, e) ==> Count(w, e) >= OnChain(chain, e) || Pending(w, e) || Gone(w, e)
  }

  lemma BootCovers(chain: seq<RawEvent>, pin: Option<int>, w: Watch, input: LiveInput, e: Event)
    requires Covered(chain, w, e) && Boot(pin, w, input).Some?
    ensures Covered(chain, Boot(pin, w, input).value, e)
  {
  }

  lemma LiveCovers(chain: seq<RawEvent>, pin: Option<int>, w: Watch, input: LiveInput, e: Event)
    requires Shape(pin, w) && Honest(chain, pin, w, Live(input)) && Covered(chain, w, e) && e.contract in w.contracts
    ensures Covered(chain, LiveRead(pin, w, input).0, e)
  {
    var b := Boot(pin, w, input);
    if b.Some? {
      BootCovers(chain, pin, w, input, e);
      if Fetch(w.contracts, b.value.live.value, input.replies).Fetched? {
        FetchCount(chain, w.contracts, b.value.live.value, input.replies, e);
      }
    }
  }

  lemma SliceCoversRead(chain: seq<RawEvent>, pin: Option<int>, w: Watch, events: seq<Event>, latest: int, e: Event)
    requires Shape(pin, w) && w.back.Some? && SliceAdds(chain, w, events, latest, e)
    requires Covered(chain, w, e) && e.contract in w.contracts
    ensures Covered(chain, AfterSlice(w, events, latest), e)
  {
  }

  lemma SliceCoversRefused(chain: seq<RawEvent>, pin: Option<int>, w: Watch, oldest: Option<int>, e: Event)
    requires Shape(pin, w) && w.back.Some?
    requires Covered(chain, w, e)
    ensures Covered(chain, AfterRefusal(pin, w, oldest), e)
  {
  }

  lemma SliceCovers(chain: seq<RawEvent>, pin: Option<int>, w: Watch, input: SliceInput, e: Event)
    requires Shape(pin, w) && Honest(chain, pin, w, Backfill(input)) && Covered(chain, w, e)
    requires e.contract in w.contracts
    ensures Covered(chain, Slice(pin, w, input), e)
  {
    if w.back.Some? {
      match Fetch(w.contracts, w.back.value, input.replies)
      case Fetched(events, latest) =>
        SliceAddsCount(chain, w, input.replies, e);
        SliceCoversRead(chain, pin, w, events, latest, e);
      case FetchFailed =>
      case FetchOutOfRetention => SliceCoversRefused(chain, pin, w, input.oldest, e);
    }
  }

  lemma StepCovers(chain: seq<RawEvent>, pin: Option<int>, w: Watch, a: WatchAction, e: Event)
    requires Shape(pin, w) && Honest(chain, pin, w, a) && Covered(chain, w, e) && e.contract in w.contracts
    ensures Covered(chain, Step(pin, w, a), e)
  {
    match a
    case Live(input) => LiveCovers(chain, pin, w, input, e);
    case Backfill(input) => SliceCovers(chain, pin, w, input, e);
    case _ =>
  }

  lemma {:induction false} RunCovers(chain: seq<RawEvent>, pin: Option<int>, w: Watch, acts: seq<WatchAction>, e: Event)
    requires Shape(pin, w) && HonestRun(chain, pin, w, acts) && Covered(chain, w, e)
    requires e.contract in w.contracts && RemoveContract(e.contract) !in acts
    ensures Covered(chain, Run(pin, w, acts), e)
  {
    if acts == [] {
    } else {
      var n := |acts| - 1;
      assert forall a :: a in acts[..n] ==> a in acts;
      RunCovers(chain, pin, w, acts[..n], e);
      RunKeepsShape(chain, pin, w, acts[..n]);
      StaysWatched(pin, w, acts[..n], e.contract);
      StepCovers(chain, pin, Run(pin, w, acts[..n]), acts[n], e);
    }
  }

  // ---------- What the run was told ----------

  /** The answers from which the cursors were resolved. */
  datatype Opening = Opening(oldest: int, tip: int)

  /** The step resolves the cursors, from these answers. */
  function Opens(w: Watch, a: WatchAction): Option<Opening> {
    if a.Live? && w.live.None? && a.live.tip.Some? && a.live.oldest.Some?
    then Some(Opening(a.live.oldest.value, a.live.tip.value)) else None
  }

  /** The last answers from which the run resolved its cursors. */
  function Opened(pin: Option<int>, w: Watch, acts: seq<WatchAction>): Option<Opening> {
    if acts == [] then None
    else
      var n := |acts| - 1;
      var opens := Opens(Run(pin, w, acts[..n]), acts[n]);
      if opens.Some? then opens else Opened(pin, w, acts[..n])
  }

  /** The oldest retained ledger the step asks for and is told, if any: to resolve the cursors, or to re-clamp. */
  function Told(w: Watch, a: WatchAction): Option<int> {
    if Opens(w, a).Some? then Some(Opens(w, a).value.oldest)
    else if a.Backfill? && w.ceiling.Some? && Refuses(w, a.slice) then a.slice.oldest
    else None
  }

  /** At some step the RPC reported that the ledger is no longer retained. */
  predicate LeftWindow(pin: Option<int>, w: Watch, acts: seq<WatchAction>, ledger: int) {
    exists i :: 0 <= i < |acts| && ToldAbove(pin, w, acts, i, ledger)
  }

  predicate ToldAbove(pin: Option<int>, w: Watch, acts: seq<WatchAction>, i: nat, ledger: int)
    requires i < |acts|
  {
    var told := Told(Run(pin, w, acts[..i]), acts[i]);
    told.Some? && ledger < told.value
  }

  /** A poll that resolves the cursors leaves every ledger from the oldest retained, or the pin, up to the tip to be
      walked, whatever becomes of its own read. */
  lemma OpeningLeavesHistory(pin: Option<int>, w: Watch, input: LiveInput, ledger: int)
    requires Opens(w, Live(input)).Some?
    requires input.oldest.value <= ledger < input.tip.value && (pin.Some? ==> pin.value <= ledger)
    ensures var w' := LiveRead(pin, w, input).0;
      w'.back.Some? && w'.back.value <= ledger && w'.ceiling == input.tip
  {
  }

  ghost predicate OpenedAs(pin: Option<int>, w: Watch, o: Option<Opening>) {
    w.live.Some? ==>
      && o.Some? && w.ceiling == Some(o.value.tip)
      && w.boot == if pin.Some? && pin.value > o.value.oldest then pin.value else o.value.oldest
  }

  lemma StepOpenedAs(pin: Option<int>, w: Watch, a: WatchAction, o: Option<Opening>)
    requires OpenedAs(pin, w, o)
    ensures OpenedAs(pin, Step(pin, w, a), if Opens(w, a).Some? then Opens(w, a) else o)
  {
  }

  lemma {:induction false} RunOpenedAs(pin: Option<int>, contracts: seq<ContractId>, acts: seq<WatchAction>)
    ensures OpenedAs(pin, Run(pin, Initial(contracts), acts), Opened(pin, Initial(contracts), acts))
  {
    if acts == [] {
    } else {
      var n := |acts| - 1;
      RunOpenedAs(pin, contracts, acts[..n]);
      StepOpenedAs(pin, Run(pin, Initial(contracts), acts[..n]), acts[n], Opened(pin, Initial(contracts), acts[..n]));
    }
  }

  lemma StepFloor(pin: Option<int>, w: Watch, a: WatchAction)
    ensures var w' := Step(pin, w, a); w'.floor == w.floor || w'.floor == Told(w, a)
  {
  }

  lemma ToldAbovePrefix(pin: Option<int>, w: Watch, acts: seq<WatchAction>, n: nat, i: nat, ledger: int)
    requires i < n <= |acts|
    ensures ToldAbove(pin, w, acts[..n], i, ledger) == ToldAbove(pin, w, acts, i, ledger)
  {
    assert acts[..n][..i] == acts[..i];
  }

  /** What is below the floor has left the window. */
  lemma {:induction false} FloorWasTold(pin: Option<int>, contracts: seq<ContractId>, acts: seq<WatchAction>, e: Event)
    requires Gone(Run(pin, Initial(contracts), acts), e)
    ensures LeftWindow(pin, Initial(contracts), acts, e.ledger)
  {
    var n := |acts| - 1;
    var w := Run(pin, Initial(contracts), acts[..n]);
    StepFloor(pin, w, acts[n]);
    if Gone(w, e) {
      FloorWasTold(pin, contracts, acts[..n], e);
      var i :| 0 <= i < n && ToldAbove(pin, Initial(contracts), acts[..n], i, e.ledger);
      ToldAbovePrefix(pin, Initial(contracts), acts, n, i, e.ledger);
    } else {
      assert ToldAbove(pin, Initial(contracts), acts, n, e.ledger);
    }
  }

  /** From the oldest ledger retained, or the pin, when the cursors were last resolved, up to the live cursor. */
  predicate InScopeOf(pin: Option<int>, o: Opening, w: Watch, ledger: int) {
    w.live.Some? && o.oldest <= ledger < w.live.value && (pin.Some? ==> pin.value <= ledger)
  }

  /** Whenever the live cursor is resolved: an event in scope has been dispatched, is still ahead of the backfill, or
      has left the retained window. */
  ghost predicate CoveredInRun(chain: seq<RawEvent>, pin: Option<int>, contracts: seq<ContractId>,
                               acts: seq<WatchAction>, e: Event) {
    var w := Run(pin, Initial(contracts), acts);
    var o := Opened(pin, Initial(contracts), acts);
    w.live.Some? ==>
      && o.Some?
      && (InScopeOf(pin, o.value, w, e.ledger) ==>
            || Count(w, e) >= OnChain(chain, e) || Pending(w, e)
            || LeftWindow(pin, Initial(contracts), acts, e.ledger))
  }

  lemma CoveredIsCoveredInRun(chain: seq<RawEvent>, pin: Option<int>, contracts: seq<ContractId>,
                              acts: seq<WatchAction>, e: Event)
    requires Covered(chain, Run(pin, Initial(contracts), acts), e)
    ensures CoveredInRun(chain, pin, contracts, acts, e)
  {
    RunOpenedAs(pin, contracts, acts);
    if Gone(Run(pin, Initial(contracts), acts), e) { FloorWasTold(pin, contracts, acts, e); }
  }

  /** Coverage: after any polls with errors, re-clamps and live resets, and any changes to the other contracts,
      every event of a contract watched throughout that lies at or above the oldest ledger retained when the cursors
      were last resolved, or the pin, and behind the live cursor has been dispatched, is still ahead of the backfill, or
      has left the retained window. */
  lemma Coverage(chain: seq<RawEvent>, pin: Option<int>, contracts: seq<ContractId>, acts: seq<WatchAction>, e: Event)
    requires NoDuplicates(contracts) && HonestRun(chain, pin, Initial(contracts), acts)
    requires e.contract in contracts && RemoveContract(e.contract) !in acts
    ensures CoveredInRun(chain, pin, contracts, acts, e)
  {
    RunCovers(chain, pin, Initial(contracts), acts, e);
    CoveredIsCoveredInRun(chain, pin, contracts, acts, e);
  }

  lemma {:induction false} RunConcat(pin: Option<int>, w: Watch, a: seq<WatchAction>, b: seq<WatchAction>)
    ensures Run(pin, w, a + b) == Run(pin, Run(pin, w, a), b)
  {
    if b == [] {
      assert a + b == a;
    } else {
      assert (a + b)[..|a + b| - 1] == a + b[..|b| - 1];
      RunConcat(pin, w, a, b[..|b| - 1]);
    }
  }

  lemma {:induction false} HonestConcat(chain: seq<RawEvent>, pin: Option<int>, w: Watch, a: seq<WatchAction>,
                                        b: seq<WatchAction>)
    requires HonestRun(chain, pin, w, a + b)
    ensures HonestRun(chain, pin, w, a) && HonestRun(chain, pin, Run(pin, w, a), b)
  {
    if b == [] {
      assert a + b == a;
    } else {
      assert (a + b)[..|a + b| - 1] == a + b[..|b| - 1];
      HonestConcat(chain, pin, w, a, b[..|b| - 1]);
      RunConcat(pin, w, a, b[..|b| - 1]);
    }
  }

  /** Coverage from the moment a contract is added: of its events that the live cursor has not reached by then, or that
      the backfill has still ahead of it, nothing is missed while it stays watched. */
  lemma CoverageOnceAdded(chain: seq<RawEvent>, pin: Option<int>, contracts: seq<ContractId>, before: seq<WatchAction>,
                          after: seq<WatchAction>, e: Event)
    requires NoDuplicates(contracts)
    requires HonestRun(chain, pin, Initial(contracts), before + [AddContract(e.contract)] + after)
    requires RemoveContract(e.contract) !in after
    requires var w := Run(pin, Initial(contracts), before); w.live.Some? ==> w.live.value <= e.ledger || Pending(w, e)
    ensures CoveredInRun(chain, pin, contracts, before + [AddContract(e.contract)] + after, e)
  {
    var added := before + [AddContract(e.contract)];
    var w := Run(pin, Initial(contracts), added);
    HonestConcat(chain, pin, Initial(contracts), added, after);
    RunKeepsShape(chain, pin, Initial(contracts), added);
    AddedIsWatched(pin, Initial(contracts), before, e.contract);
    RunConcat(pin, Initial(contracts), added, after);
    RunCovers(chain, pin, w, after, e);
    CoveredIsCoveredInRun(chain, pin, contracts, added + after, e);
  }

  lemma AddedIsWatched(pin: Option<int>, w: Watch, before: seq<WatchAction>, c: ContractId)
    ensures var w1 := Run(pin, w, before);
      Run(pin, w, before + [AddContract(c)]) == w1.(contracts := WithContract(w1.contracts, c))
    ensures c in Run(pin, w, before + [AddContract(c)]).contracts
  {
    assert (before + [AddContract(c)])[..|before|] == before;
  }

  /** Once the backfill is done, nothing is ahead of it: every such event still retained was dispatched. */
  lemma CaughtUp(chain: seq<RawEvent>, pin: Option<int>, contracts: seq<ContractId>, acts: seq<WatchAction>, e: Event)
    requires NoDuplicates(contracts) && HonestRun(chain, pin, Initial(contracts), acts)
    requires e.contract in contracts && RemoveContract(e.contract) !in acts
    requires !LeftWindow(pin, Initial(contracts), acts, e.ledger)
    ensures var w := Run(pin, Initial(contracts), acts);
      w.live.Some? && w.back.None? ==>
        && Opened(pin, Initial(contracts), acts).Some?
        && (InScopeOf(pin, Opened(pin, Initial(contracts), acts).value, w, e.ledger) ==>
              Count(w, e) >= OnChain(chain, e))
  {
    Coverage(chain, pin, contracts, acts, e);
  }

  // ---------- Exactly once ----------

  /** The step asks for at most one call's worth of contracts, and neither resets the live cursor nor re-clamps
      the backfill. */
  predicate Calm(pin: Option<int>, w: Watch, a: WatchAction) {
    && |w.contracts| <= MAX_CONTRACT_IDS_PER_CALL
    && (a.Live? && Boot(pin, w, a.live).Some? ==>
          !Fetch(w.contracts, Boot(pin, w, a.live).value.live.value, a.live.replies).FetchOutOfRetention?)
    && (a.Backfill? && w.back.Some? && a.slice.oldest.Some? ==>
          !Fetch(w.contracts, w.back.value, a.slice.replies).FetchOutOfRetention?)
  }

  predicate CalmRun(pin: Option<int>, w: Watch, acts: seq<WatchAction>) {
    acts == [] || (var n := |acts| - 1; CalmRun(pin, w, acts[..n]) && Calm(pin, Run(pin, w, acts[..n]), acts[n]))
  }

  /** What the two cursors have passed: from the ceiling to the live cursor, and from the boot ledger to the
      backfill cursor. */
  predicate Passed(w: Watch, ledger: int) {
    && w.live.Some? && w.ceiling.Some?
    && (w.ceiling.value <= ledger < w.live.value
        || w.boot <= ledger < (if w.back.Some? then w.back.value else w.ceiling.value))
  }

  ghost predicate Exact(chain: seq<RawEvent>, w: Watch, e: Event, watched: bool) {
    && (w.live.None? ==> w.back.None?)
    && (w.back.Some? ==> w.boot <= w.back.value)
    && (!Passed(w, e.ledger) ==> Count(w, e) == 0)
    && Count(w, e) <= OnChain(chain, e)
    && (watched && Passed(w, e.ledger) ==> Count(w, e) == OnChain(chain, e))
  }

  lemma BootExact(chain: seq<RawEvent>, pin: Option<int>, w: Watch, input: LiveInput, e: Event, watched: bool)
    requires Shape(pin, w) && Boot(pin, w, input).Some? && Exact(chain, w, e, watched)
    ensures Shape(pin, Boot(pin, w, input).value) && Exact(chain, Boot(pin, w, input).value, e, watched)
  {
  }

  lemma FetchExact(chain: seq<RawEvent>, pin: Option<int>, w: Watch, replies: seq<Reply>, e: Event, watched: bool)
    requires Shape(pin, w) && w.live.Some? && |w.contracts| <= MAX_CONTRACT_IDS_PER_CALL
    requires HonestReplies(chain, w.contracts, w.live.value, replies)
    requires Fetch(w.contracts, w.live.value, replies).Fetched?
    requires Exact(chain, w, e, watched) && (watched ==> e.contract in w.contracts)
    ensures var r := Fetch(w.contracts, w.live.value, replies);
      Exact(chain, w.(dispatched := w.dispatched + r.events, live := Some(r.latestLedger + 1)), e, watched)
  {
    FetchCount(chain, w.contracts, w.live.value, replies, e);
  }

  lemma LiveExact(chain: seq<RawEvent>, pin: Option<int>, w: Watch, input: LiveInput, e: Event, watched: bool)
    requires Shape(pin, w) && Honest(chain, pin, w, Live(input)) && Calm(pin, w, Live(input))
    requires Exact(chain, w, e, watched) && (watched ==> e.contract in w.contracts)
    ensures Exact(chain, LiveRead(pin, w, input).0, e, watched)
  {
    var b := Boot(pin, w, input);
    if b.Some? {
      BootExact(chain, pin, w, input, e, watched);
      if Fetch(w.contracts, b.value.live.value, input.replies).Fetched? {
        FetchExact(chain, pin, b.value, input.replies, e, watched);
      } else {
        assert LiveRead(pin, w, input).0 == b.value;
      }
    }
  }

  lemma SliceExactRead(chain: seq<RawEvent>, pin: Option<int>, w: Watch, events: seq<Event>, latest: int, e: Event,
                       watched: bool)
    requires Shape(pin, w) && w.back.Some? && SliceAdds(chain, w, events, latest, e)
    requires |w.contracts| <= MAX_CONTRACT_IDS_PER_CALL
    requires Exact(chain, w, e, watched) && (watched ==> e.contract in w.contracts)
    ensures Exact(chain, AfterSlice(w, events, latest), e, watched)
  {
  }

  lemma SliceExactRefused(chain: seq<RawEvent>, pin: Option<int>, w: Watch, oldest: Option<int>, e: Event,
                          watched: bool)
    requires Shape(pin, w) && w.back.Some?
    requires Exact(chain, w, e, watched) && oldest.None?
    ensures Exact(chain, AfterRefusal(pin, w, oldest), e, watched)
  {
  }

  lemma SliceExact(chain: seq<RawEvent>, pin: Option<int>, w: Watch, input: SliceInput, e: Event, watched: bool)
    requires Shape(pin, w) && Honest(chain, pin, w, Backfill(input)) && Calm(pin, w, Backfill(input))
    requires Exact(chain, w, e, watched) && (watched ==> e.contract in w.contracts)
    ensures Exact(chain, Slice(pin, w, input), e, watched)
  {
    if w.back.Some? {
      match Fetch(w.contracts, w.back.value, input.replies)
      case Fetched(events, latest) =>
        SliceAddsCount(chain, w, input.replies, e);
        SliceExactRead(chain, pin, w, events, latest, e, watched);
      case FetchFailed =>
      case FetchOutOfRetention => SliceExactRefused(chain, pin, w, input.oldest, e, watched);
    }
  }

  lemma StepExact(chain: seq<RawEvent>, pin: Option<int>, w: Watch, a: WatchAction, e: Event, watched: bool)
    requires Shape(pin, w) && Honest(chain, pin, w, a) && Calm(pin, w, a)
    requires Exact(chain, w, e, watched) && (watched ==> e.contract in w.contracts)
    ensures Exact(chain, Step(pin, w, a), e, watched)
  {
    match a
    case Live(input) => LiveExact(chain, pin, w, input, e, watched);
    case Backfill(input) => SliceExact(chain, pin, w, input, e, watched);
    case _ =>
  }

  lemma {:induction false} RunExact(chain: seq<RawEvent>, pin: Option<int>, contracts: seq<ContractId>,
                                    acts: seq<WatchAction>, e: Event)
    requires NoDuplicates(contracts)
    requires HonestRun(chain, pin, Initial(contracts), acts) && CalmRun(pin, Initial(contracts), acts)
    ensures Exact(chain, Run(pin, Initial(contracts), acts), e,
                  e.contract in contracts && RemoveContract(e.contract) !in acts)
  {
    var watched := e.contract in contracts && RemoveContract(e.contract) !in acts;
    if acts == [] {
    } else {
      var n := |acts| - 1;
      var w := Run(pin, Initial(contracts), acts[..n]);
      assert forall a :: a in acts[..n] ==> a in acts;
      RunExact(chain, pin, contracts, acts[..n], e);
      RunKeepsShape(chain, pin, Initial(contracts), acts[..n]);
      if watched { StaysWatched(pin, Initial(contracts), acts[..n], e.contract); }
      StepExact(chain, pin, w, acts[n], e, watched);
    }
  }

  /** What the two cursors have passed since they were resolved from `o`: from the tip to the live cursor, and from the
      oldest retained ledger, or the pin, to the backfill cursor. */
  predicate PassedSince(pin: Option<int>, o: Opening, w: Watch, ledger: int) {
    && w.live.Some?
    && (|| o.tip <= ledger < w.live.value
        || (&& o.oldest <= ledger < (if w.back.Some? then w.back.value else o.tip)
            && (pin.Some? ==> pin.value <= ledger)))
  }

  /** Exactly once: without resets and with at most twenty-five contracts, live and backfill together dispatch
      each event the cursors have passed exactly as often as the chain holds it, and nothing else, transient
      errors and the seam at the ceiling included. Contracts that come and go are never dispatched twice. */
  lemma ExactlyOnce(chain: seq<RawEvent>, pin: Option<int>, contracts: seq<ContractId>, acts: seq<WatchAction>,
                    e: Event)
    requires NoDuplicates(contracts)
    requires HonestRun(chain, pin, Initial(contracts), acts) && CalmRun(pin, Initial(contracts), acts)
    ensures var w := Run(pin, Initial(contracts), acts);
      var o := Opened(pin, Initial(contracts), acts);
      && Count(w, e) <= OnChain(chain, e)
      && (w.live.None? ==> Count(w, e) == 0)
      && (w.live.Some? ==>
            && o.Some?
            && (!PassedSince(pin, o.value, w, e.ledger) ==> Count(w, e) == 0)
            && (PassedSince(pin, o.value, w, e.ledger) ==>
                  e.contract in contracts && RemoveContract(e.contract) !in acts ==> Count(w, e) == OnChain(chain, e)))
  {
    RunExact(chain, pin, contracts, acts, e);
    RunOpenedAs(pin, contracts, acts);
  }

  // ---------- Across resets and re-clamps ----------

  /** The RPC's retention window only moves forward: an oldest ledger it reports lies above every start it refused, and
      not above the tip it reports with it. */
  predicate HonestWindow(w: Watch, a: WatchAction) {
    && (a.Live? && w.live.None? && a.live.tip.Some? && a.live.oldest.Some? ==>
          && a.live.oldest.value <= a.live.tip.value
          && (w.refused.Some? ==> w.refused.value < a.live.oldest.value))
    && (a.Backfill? && Refuses(w, a.slice) && a.slice.oldest.Some? ==> w.back.value < a.slice.oldest.value)
  }

  /** The slice's read is refused as out of retention. */
  predicate Refuses(w: Watch, input: SliceInput) {
    w.back.Some? && Fetch(w.contracts, w.back.value, input.replies).FetchOutOfRetention?
  }

  predicate HonestWindowRun(pin: Option<int>, w: Watch, acts: seq<WatchAction>) {
    acts == [] ||
    (var n := |acts| - 1; HonestWindowRun(pin, w, acts[..n]) && HonestWindow(Run(pin, w, acts[..n]), acts[n]))
  }

  /** At most one call's worth of contracts at every step. */
  predicate SmallRun(pin: Option<int>, w: Watch, acts: seq<WatchAction>) {
    acts == [] ||
    (var n := |acts| - 1;
     SmallRun(pin, w, acts[..n]) && |Run(pin, w, acts[..n]).contracts| <= MAX_CONTRACT_IDS_PER_CALL)
  }

  /** Neither cursor will read the ledger again; while the live cursor is being reset, because it was refused. */
  predicate Behind(w: Watch, ledger: int) {
    && (w.live.Some? ==> ledger < w.live.value)
    && (w.live.None? ==> w.refused.Some? && ledger <= w.refused.value)
    && !(w.back.Some? && w.ceiling.Some? && w.back.value <= ledger < w.ceiling.value)
  }

  ghost predicate Once(chain: seq<RawEvent>, w: Watch, e: Event) {
    && Count(w, e) <= OnChain(chain, e)
    && (Count(w, e) > 0 ==> Behind(w, e.ledger))
    && (w.live.None? && w.back.Some? && w.ceiling.Some? ==> w.refused.Some? && w.ceiling.value <= w.refused.value)
  }

  lemma BootOnce(chain: seq<RawEvent>, pin: Option<int>, w: Watch, input: LiveInput, e: Event)
    requires Shape(pin, w) && Once(chain, w, e) && HonestWindow(w, Live(input)) && Boot(pin, w, input).Some?
    ensures Shape(pin, Boot(pin, w, input).value) && Once(chain, Boot(pin, w, input).value, e)
  {
  }

  lemma ReadOnce(chain: seq<RawEvent>, pin: Option<int>, w: Watch, replies: seq<Reply>, e: Event)
    requires Shape(pin, w) && w.live.Some? && |w.contracts| <= MAX_CONTRACT_IDS_PER_CALL && Once(chain, w, e)
    requires HonestReplies(chain, w.contracts, w.live.value, replies)
    requires Fetch(w.contracts, w.live.value, replies).Fetched?
    ensures var r := Fetch(w.contracts, w.live.value, replies);
      Once(chain, w.(dispatched := w.dispatched + r.events, live := Some(r.latestLedger + 1)), e)
  {
    FetchCount(chain, w.contracts, w.live.value, replies, e);
  }

  lemma ResetOnce(chain: seq<RawEvent>, pin: Option<int>, w: Watch, e: Event)
    requires Shape(pin, w) && w.live.Some? && Once(chain, w, e)
    ensures Once(chain, w.(live := None, refused := Raise(w.refused, w.live.value)), e)
  {
  }

  lemma LiveOnce(chain: seq<RawEvent>, pin: Option<int>, w: Watch, input: LiveInput, e: Event)
    requires Shape(pin, w) && Honest(chain, pin, w, Live(input)) && HonestWindow(w, Live(input))
    requires Once(chain, w, e) && |w.contracts| <= MAX_CONTRACT_IDS_PER_CALL
    ensures Once(chain, LiveRead(pin, w, input).0, e)
  {
    var b := Boot(pin, w, input);
    if b.Some? {
      BootOnce(chain, pin, w, input, e);
      match Fetch(w.contracts, b.value.live.value, input.replies)
      case Fetched(_, _) => ReadOnce(chain, pin, b.value, input.replies, e);
      case FetchFailed =>
      case FetchOutOfRetention => ResetOnce(chain, pin, b.value, e);
    }
  }

  lemma SliceOnceRead(chain: seq<RawEvent>, pin: Option<int>, w: Watch, events: seq<Event>, latest: int, e: Event)
    requires Shape(pin, w) && w.back.Some? && SliceAdds(chain, w, events, latest, e)
    requires Once(chain, w, e) && |w.contracts| <= MAX_CONTRACT_IDS_PER_CALL
    ensures Once(chain, AfterSlice(w, events, latest), e)
  {
  }

  lemma SliceOnceRefused(chain: seq<RawEvent>, pin: Option<int>, w: Watch, oldest: Option<int>, e: Event)
    requires Shape(pin, w) && w.back.Some?
    requires Once(chain, w, e) && (oldest.Some? ==> w.back.value < oldest.value)
    ensures Once(chain, AfterRefusal(pin, w, oldest), e)
  {
  }

  lemma SliceOnce(chain: seq<RawEvent>, pin: Option<int>, w: Watch, input: SliceInput, e: Event)
    requires Shape(pin, w) && Honest(chain, pin, w, Backfill(input)) && HonestWindow(w, Backfill(input))
    requires Once(chain, w, e) && |w.contracts| <= MAX_CONTRACT_IDS_PER_CALL
    ensures Once(chain, Slice(pin, w, input), e)
  {
    if w.back.Some? {
      match Fetch(w.contracts, w.back.value, input.replies)
      case Fetched(events, latest) =>
        SliceAddsCount(chain, w, input.replies, e);
        SliceOnceRead(chain, pin, w, events, latest, e);
      case FetchFailed =>
      case FetchOutOfRetention => SliceOnceRefused(chain, pin, w, input.oldest, e);
    }
  }

  lemma StepOnce(chain: seq<RawEvent>, pin: Option<int>, w: Watch, a: WatchAction, e: Event)
    requires Shape(pin, w) && Honest(chain, pin, w, a) && HonestWindow(w, a)
    requires Once(chain, w, e) && |w.contracts| <= MAX_CONTRACT_IDS_PER_CALL
    ensures Once(chain, Step(pin, w, a), e)
  {
    match a
    case Live(input) => LiveOnce(chain, pin, w, input, e);
    case Backfill(input) => SliceOnce(chain, pin, w, input, e);
    case _ =>
  }

  /** At most once: when the retention window only moves forward, no live reset and no re-clamp makes the watcher
      dispatch an event more often than the chain holds it. */
  lemma {:induction false} AtMostOnce(chain: seq<RawEvent>, pin: Option<int>, contracts: seq<ContractId>,
                                      acts: seq<WatchAction>, e: Event)
    requires NoDuplicates(contracts) && HonestRun(chain, pin, Initial(contracts), acts)
    requires HonestWindowRun(pin, Initial(contracts), acts) && SmallRun(pin, Initial(contracts), acts)
    ensures Once(chain, Run(pin, Initial(contracts), acts), e)
  {
    if acts == [] {
    } else {
      var n := |acts| - 1;
      AtMostOnce(chain, pin, contracts, acts[..n], e);
      RunKeepsShape(chain, pin, Initial(contracts), acts[..n]);
      StepOnce(chain, pin, Run(pin, Initial(contracts), acts[..n]), acts[n], e);
    }
  }

  /** So, resets and re-clamps included, every event of a contract watched throughout that is in scope, no longer
      ahead of the backfill and still retained has been dispatched exactly as often as the chain holds it. */
  lemma ExactlyOnceAcrossResets(chain: seq<RawEvent>, pin: Option<int>, contracts: seq<ContractId>,
                                acts: seq<WatchAction>, e: Event)
    requires NoDuplicates(contracts) && HonestRun(chain, pin, Initial(contracts), acts)
    requires HonestWindowRun(pin, Initial(contracts), acts) && SmallRun(pin, Initial(contracts), acts)
    requires e.contract in contracts && RemoveContract(e.contract) !in acts
    requires !LeftWindow(pin, Initial(contracts), acts, e.ledger)
    ensures var w := Run(pin, Initial(contracts), acts);
      w.live.Some? && !Pending(w, e) ==>
        && Opened(pin, Initial(contracts), acts).Some?
        && (InScopeOf(pin, Opened(pin, Initial(contracts), acts).value, w, e.ledger) ==>
              Count(w, e) == OnChain(chain, e))
  {
    Coverage(chain, pin, contracts, acts, e);
    AtMostOnce(chain, pin, contracts, acts, e);
  }

  // ---------- Health ----------

  /** The cursors are resolved, or the answers to resolve them are there. */
  predicate CanStart(w: Watch, input: LiveInput) { w.live.Some? || (input.tip.Some? && input.oldest.Some?) }

  /** Every call of the live read answers with a clean page, or there is nothing to ask for. */
  predicate AllClean(w: Watch, input: LiveInput) {
    w.contracts == [] || forall j :: 0 <= j < |input.replies| ==> Clean(input.replies[j])
  }

  lemma FirstBadExists(replies: seq<Reply>) returns (i: nat)
    requires exists j :: 0 <= j < |replies| && !Clean(replies[j])
    ensures FirstBad(replies, i)
  {
    i := 0;
    while Clean(replies[i])
      invariant i < |replies| && forall j :: 0 <= j < i ==> Clean(replies[j])
      decreases |replies| - i
    {
      i := i + 1;
    }
  }

  /** A live read is healthy exactly when the cursors can be resolved and every call answers with a clean page. One that
      is not dispatches nothing; it resets the live cursor exactly when the first bad answer is out of retention, and
      else leaves it where it was or was resolved to. */
  lemma LiveReadHealth(pin: Option<int>, w: Watch, input: LiveInput)
    ensures var r := LiveRead(pin, w, input);
      && (r.1 <==> CanStart(w, input) && AllClean(w, input))
      && (!r.1 ==> r.0.dispatched == w.dispatched)
      && (!CanStart(w, input) ==> r.0 == w)
      && (CanStart(w, input) && !AllClean(w, input) ==>
            exists i: nat :: FirstBad(input.replies, i) &&
              r.0.live == if input.replies[i].OutOfRetention? then None else if w.live.Some? then w.live else input.tip)
  {
    if CanStart(w, input) && w.contracts != [] {
      var start := if w.live.Some? then w.live.value else input.tip.value;
      FetchEnds(w.contracts, start, input.replies);
      if !AllClean(w, input) {
        var i := FirstBadExists(input.replies);
      }
    }
  }

  /** A poll whose live read is not healthy does not walk the backfill. */
  lemma UnhealthyPoll(pin: Option<int>, w: Watch, live: LiveInput, slice: SliceInput)
    requires !CanStart(w, live) || !AllClean(w, live)
    ensures var w' := Poll(pin, w, live, slice);
      w'.dispatched == w.dispatched && (w.live.Some? ==> w'.back == w.back && w'.ceiling == w.ceiling)
  {
    LiveReadHealth(pin, w, live);
  }

  // ---------- Order of dispatch ----------

  lemma {:induction false} FilterKeepsOrder(es: seq<Event>, keep: Event -> bool)
    requires LedgerOrder(es)
    ensures LedgerOrder(Filter(es, keep))
  {
    if es == [] {
    } else {
      var n := |es| - 1;
      FilterKeepsOrder(es[..n], keep);
      if keep(es[n]) { AppendKeepsOrder(Filter(es[..n], keep), es[n]); }
    }
  }

  /** The log keeps what it has and grows by events in ledger order. */
  ghost predicate GrowsInOrder(before: seq<Event>, after: seq<Event>) {
    before <= after && LedgerOrder(after[|before|..])
  }

  lemma Grows(before: seq<Event>, events: seq<Event>)
    requires LedgerOrder(events)
    ensures GrowsInOrder(before, before + events) && GrowsInOrder(before, before)
  {
    assert (before + events)[|before|..] == events && before[|before|..] == [];
  }

  /** What a step dispatches follows what was dispatched before, in ledger order. */
  lemma StepDispatchesInOrder(pin: Option<int>, w: Watch, a: WatchAction)
    ensures GrowsInOrder(w.dispatched, Step(pin, w, a).dispatched)
  {
    Grows(w.dispatched, []);
    if a.Live? && Boot(pin, w, a.live).Some? {
      var r := Fetch(w.contracts, Boot(pin, w, a.live).value.live.value, a.live.replies);
      if r.Fetched? { Grows(w.dispatched, r.events); }
    }
    if a.Backfill? && w.back.Some? && w.ceiling.Some? {
      var r := Fetch(w.contracts, w.back.value, a.slice.replies);
      if r.Fetched? {
        FilterKeepsOrder(r.events, Below(w.ceiling.value));
        Grows(w.dispatched, Filter(r.events, Below(w.ceiling.value)));
      }
    }
  }

  // ---------- Malformed events ----------

  /** The step does not reset the live cursor. */
  predicate KeepsLive(pin: Option<int>, w: Watch, a: WatchAction) {
    a.Live? && Boot(pin, w, a.live).Some? ==>
      !Fetch(w.contracts, Boot(pin, w, a.live).value.live.value, a.live.replies).FetchOutOfRetention?
  }

  predicate KeepsLiveRun(pin: Option<int>, w: Watch, acts: seq<WatchAction>) {
    acts == [] ||
    (var n := |acts| - 1; KeepsLiveRun(pin, w, acts[..n]) && KeepsLive(pin, Run(pin, w, acts[..n]), acts[n]))
  }

  /** The live cursor is at or before the ledger. */
  predicate HeldAt(w: Watch, ledger: int) { w.live.Some? && w.live.value <= ledger }

  lemma StepHeld(chain: seq<RawEvent>, pin: Option<int>, w: Watch, a: WatchAction, raw: RawEvent)
    requires Honest(chain, pin, w, a) && KeepsLive(pin, w, a) && HeldAt(w, raw.ledger)
    requires raw in chain && ParseRawEvent(raw).Malformed? && raw.contract.value in w.contracts
    ensures HeldAt(Step(pin, w, a), raw.ledger)
  {
    if a.Live? && Fetch(w.contracts, w.live.value, a.live.replies).Fetched? {
      FetchStopsAtMalformed(chain, w.contracts, w.live.value, a.live.replies, raw);
    }
  }

  /** One malformed event holds the live cursor for good: while its contract is watched and the cursor is not reset,
      no run gets past its ledger. Every live read that covers it fails, and a failed read ends the poll before its
      slice. */
  lemma {:induction false} MalformedHoldsLive(chain: seq<RawEvent>, pin: Option<int>, w: Watch, acts: seq<WatchAction>,
                                              raw: RawEvent)
    requires HonestRun(chain, pin, w, acts) && KeepsLiveRun(pin, w, acts) && HeldAt(w, raw.ledger)
    requires raw in chain && ParseRawEvent(raw).Malformed? && raw.contract.value in w.contracts
    requires RemoveContract(raw.contract.value) !in acts
    ensures HeldAt(Run(pin, w, acts), raw.ledger)
  {
    if acts == [] {
    } else {
      var n := |acts| - 1;
      assert forall a :: a in acts[..n] ==> a in acts;
      MalformedHoldsLive(chain, pin, w, acts[..n], raw);
      StaysWatched(pin, w, acts[..n], raw.contract.value);
      StepHeld(chain, pin, Run(pin, w, acts[..n]), acts[n], raw);
    }
  }

  // ---------- Termination of the backfill ----------

  /** What the backfill has left to walk. */
  function Gap(w: Watch): int {
    if w.back.Some? && w.ceiling.Some? then w.ceiling.value - w.back.value else 0
  }

  /** Every page reaches at least the start ledger, and an out-of-retention error means that the start lies
      below the oldest ledger reported after it. */
  ghost predicate Advancing(w: Watch, input: SliceInput) {
    w.back.Some? ==>
      && (forall i :: 0 <= i < |input.replies| && input.replies[i].Page? ==>
            input.replies[i].latestLedger >= w.back.value)
      && (Fetch(w.contracts, w.back.value, input.replies).FetchOutOfRetention? && input.oldest.Some? ==>
            input.oldest.value > w.back.value)
  }

  /** A slice that is read, or re-clamped. */
  predicate Productive(w: Watch, a: WatchAction) {
    && a.Backfill? && w.back.Some? && w.contracts != []
    && var r := Fetch(w.contracts, w.back.value, a.slice.replies);
       r.Fetched? || (r.FetchOutOfRetention? && a.slice.oldest.Some?)
  }

  lemma {:induction false} GatherAdvances(replies: seq<Reply>, start: int)
    requires forall i :: 0 <= i < |replies| && replies[i].Page? ==> replies[i].latestLedger >= start
    ensures Gather(replies).Gathered? && Gather(replies).latest.Some? ==> Gather(replies).latest.value >= start
    ensures Gather(replies).Gathered? && replies != [] ==> Gather(replies).latest.Some?
  {
    if replies == [] {
    } else {
      GatherAdvances(replies[..|replies| - 1], start);
    }
  }

  /** One backfill slice: the live cursor and the ceiling never change; a slice that is read or re-clamped
      strictly shrinks the gap, which is gone exactly when the cursor is; any other leaves everything alone. */
  lemma SliceProgress(pin: Option<int>, w: Watch, input: SliceInput)
    requires Shape(pin, w) && Advancing(w, input) && |input.replies| == |Batches(w.contracts)|
    ensures var w' := Slice(pin, w, input);
      && w'.live == w.live && w'.ceiling == w.ceiling && w'.contracts == w.contracts
      && (Productive(w, Backfill(input)) ==> Gap(w') < Gap(w))
      && (!Productive(w, Backfill(input)) ==> w' == w.(refused := w'.refused))
      && Gap(w') >= 0 && (w'.ceiling.Some? ==> (Gap(w') == 0 <==> w'.back.None?))
  {
    if w.back.Some? && w.contracts != [] {
      BatchesFacts(w.contracts);
      GatherAdvances(input.replies, w.back.value);
    }
    if w.contracts == [] && w.back.Some? { EmptySlice(pin, w, input); }
  }

  /** With nothing to watch, a slice changes nothing at all. */
  lemma EmptySlice(pin: Option<int>, w: Watch, input: SliceInput)
    requires Shape(pin, w) && w.contracts == []
    ensures Slice(pin, w, input) == w
  {
    if w.back.Some? {
      assert Filter([], Below(w.ceiling.value)) == [];
      assert w.dispatched + [] == w.dispatched;
    }
  }

  /** Nor does a live read once the cursors are resolved. */
  lemma EmptyLive(pin: Option<int>, w: Watch, input: LiveInput)
    requires w.contracts == [] && w.live.Some?
    ensures LiveRead(pin, w, input) == (w, true)
  {
    assert w.dispatched + [] == w.dispatched;
  }

  /** Live reads find the cursors resolved and still retained; slices advance. */
  ghost predicate Underway(pin: Option<int>, w: Watch, a: WatchAction) {
    && (a.Live? ==> w.live.Some? && !Fetch(w.contracts, w.live.value, a.live.replies).FetchOutOfRetention?)
    && (a.Backfill? ==> Advancing(w, a.slice) && |a.slice.replies| == |Batches(w.contracts)|)
  }

  ghost predicate UnderwayRun(pin: Option<int>, w: Watch, acts: seq<WatchAction>) {
    acts == [] ||
    (var n := |acts| - 1; UnderwayRun(pin, w, acts[..n]) && Underway(pin, Run(pin, w, acts[..n]), acts[n]))
  }

  function ProductiveSlices(pin: Option<int>, w: Watch, acts: seq<WatchAction>): nat {
    if acts == [] then 0
    else
      var n := |acts| - 1;
      ProductiveSlices(pin, w, acts[..n]) + (if Productive(Run(pin, w, acts[..n]), acts[n]) then 1 else 0)
  }

  /** A step that is not a slice leaves the backfill cursor and its ceiling alone. */
  lemma OnlySlicesMoveBackfill(pin: Option<int>, w: Watch, a: WatchAction)
    requires Underway(pin, w, a) && !a.Backfill?
    ensures Step(pin, w, a).back == w.back && Step(pin, w, a).ceiling == w.ceiling
  {
  }

  /** The backfill terminates: each productive slice uses up at least one ledger of the gap it started with, so
      after as many of them as the gap is wide the backfill is complete. */
  lemma {:induction false} BackfillTerminates(chain: seq<RawEvent>, pin: Option<int>, w: Watch, acts: seq<WatchAction>)
    requires Shape(pin, w) && w.ceiling.Some? && HonestRun(chain, pin, w, acts) && UnderwayRun(pin, w, acts)
    ensures ProductiveSlices(pin, w, acts) + Gap(Run(pin, w, acts)) <= Gap(w)
    ensures Gap(Run(pin, w, acts)) >= 0 && Run(pin, w, acts).ceiling.Some?
    ensures ProductiveSlices(pin, w, acts) == Gap(w) ==> Run(pin, w, acts).back.None?
  {
    if acts == [] {
    } else {
      var n := |acts| - 1;
      var before := Run(pin, w, acts[..n]);
      BackfillTerminates(chain, pin, w, acts[..n]);
      RunKeepsShape(chain, pin, w, acts[..n]);
      StepKeepsShape(chain, pin, before, acts[n]);
      if acts[n].Backfill? {
        SliceProgress(pin, before, acts[n].slice);
      } else {
        OnlySlicesMoveBackfill(pin, before, acts[n]);
      }
    }
  }

  // ---------- More contracts than fit one call ----------

  /** A provider event of contract `c` at ledger 10, and the replies of a first call that sees ledger 10 and later
      calls that see only ledger 9. */
  function LateEvent(c: ContractId): RawEvent {
    RawEvent([SymbolTopic("provider_added"), AddressTopic("p")], false, 10, Some(c))
  }

  function SkewedReplies(raw: RawEvent, n: nat): (r: seq<Reply>)
    ensures |r| == n
  {
    seq(n, i => if i == 0 then Page([raw], 10) else Page([], 9))
  }

  lemma {:induction false} GatherSkewed(raw: RawEvent, e: Event, n: nat)
    requires n >= 1 && ParseRawEvent(raw) == Parsed(e)
    ensures Gather(SkewedReplies(raw, n)) == Gathered([e], Some(if n == 1 then 10 else 9))
  {
    var replies := SkewedReplies(raw, n);
    assert replies[..n - 1] == SkewedReplies(raw, n - 1);
    assert ParseAll([raw][..0]) == [] && ParseAll([raw]) == [e];
    assert [] + [e] == [e] && [e] + [] == [e];
    if n > 1 { GatherSkewed(raw, e, n - 1); }
  }

  lemma SkewedIsHonest(ids: seq<ContractId>)
    requires |ids| > MAX_CONTRACT_IDS_PER_CALL
    ensures HonestReplies([LateEvent(ids[0])], ids, 10, SkewedReplies(LateEvent(ids[0]), |CallIds(ids)|))
    ensures |CallIds(ids)| >= 2
  {
    var raw, calls := LateEvent(ids[0]), CallIds(ids);
    CallIdsFacts(ids);
    BatchesFacts(ids);
    assert FilterListOk(Batches(ids)[0]);
    assert calls[0] != [] && calls[0][0] == ids[0];
    forall i | 0 <= i < |calls| ensures HonestReply([raw], calls[i], 10, SkewedReplies(raw, |calls|)[i]) {
      assert [raw][..0] == [];
      assert Filter([raw][..0], InPage(10, 10, calls[0])) == [];
      if i == 0 { assert InPage(10, 10, calls[0])(raw); }
    }
  }

  /** With more than twenty-five contracts, whatever they are, one event can be dispatched twice: the call that
      saw it is ahead of the ledger the cursor advances to, and the next live read returns it again. */
  lemma TwiceBeyondOneCall(ids: seq<ContractId>)
    requires |ids| > MAX_CONTRACT_IDS_PER_CALL && NoDuplicates(ids) && ids[0] != ""
    ensures var chain := [LateEvent(ids[0])];
      var e := Event(ProviderAdded, "p", 10, ids[0], None);
      var read := Live(LiveInput(Some(10), Some(10), SkewedReplies(chain[0], |CallIds(ids)|)));
      var w1 := Step(None, Initial(ids), read);
      && Honest(chain, None, Initial(ids), read) && Honest(chain, None, w1, read)
      && OnChain(chain, e) == 1 && Count(Step(None, w1, read), e) == 2
  {
    var raw := LateEvent(ids[0]);
    var e := Event(ProviderAdded, "p", 10, ids[0], None);
    var replies := SkewedReplies(raw, |CallIds(ids)|);
    SkewedIsHonest(ids);
    GatherSkewed(raw, e, |CallIds(ids)|);
    assert SortByLedger([e][..0]) == [] && [] + [e] == [e];
    assert SortByLedger([e]) == [e];
    assert Fetch(ids, 10, replies) == Fetched([e], 9);
    assert ParseAll([raw][..0]) == [] && ParseAll([raw]) == [e];
  }

  // ---------- Reset without cause ----------

  /** A live read of one contract, answered by one reply. */
  function ReadOne(tip: int, oldest: int, reply: Reply): WatchAction { Live(LiveInput(Some(tip), Some(oldest),
                   [reply])) }

  /** The window condition is needed: when the RPC refuses a live cursor that is not out of retention, the watcher
      starts over from the oldest ledger and dispatches the event of ledger 10 a second time. */
  lemma TwiceAfterFalseRefusal(c: ContractId)
    requires c != ""
    ensures var chain := [LateEvent(c)];
      var e := Event(ProviderAdded, "p", 10, c, None);
      var read, refused := ReadOne(10, 10, Page(chain, 10)), ReadOne(11, 10, OutOfRetention);
      var w1 := Step(None, Initial([c]), read);
      var w2 := Step(None, w1, refused);
      && Honest(chain, None, Initial([c]), read) && Honest(chain, None, w1, refused) && Honest(chain, None, w2, read)
      && !HonestWindow(w2, read)
      && OnChain(chain, e) == 1 && Count(Step(None, w2, read), e) == 2
  {
    var raw := LateEvent(c);
    var e := Event(ProviderAdded, "p", 10, c, None);
    OneContractPage(c, raw, e);
  }

  lemma OneCallIds(c: ContractId)
    ensures CallIds([c]) == [[c]]
  {
    assert Batches([c]) == [[[c]]];
    assert [[c]][1..] == [];
    assert Concat([[c]]) == [c];
  }

  lemma OneReply(r: Reply)
    ensures Gather([r]) == GatherNext(Gathered([], None), r)
  {
    assert [r][..0] == [];
  }

  lemma LateEventParses(c: ContractId, e: Event)
    requires c != "" && e == Event(ProviderAdded, "p", 10, c, None)
    ensures ParseRawEvent(LateEvent(c)) == Parsed(e) && ParseAll([LateEvent(c)]) == [e]
    ensures !AnyMalformed([LateEvent(c)]) && SortByLedger([e]) == [e]
  {
    assert ParseAll([LateEvent(c)][..0]) == [] && [] + [e] == [e];
    assert SortByLedger([e][..0]) == [];
  }

  lemma OneContractPage(c: ContractId, raw: RawEvent, e: Event)
    requires raw == LateEvent(c) && c != "" && e == Event(ProviderAdded, "p", 10, c, None)
    ensures HonestReplies([raw], [c], 10, [Page([raw], 10)]) && HonestReplies([raw], [c], 11, [OutOfRetention])
    ensures Fetch([c], 10, [Page([raw], 10)]) == Fetched([e], 10)
    ensures Fetch([c], 11, [OutOfRetention]) == FetchOutOfRetention
    ensures OnChain([raw], e) == 1
  {
    OneCallIds(c);
    LateEventParses(c, e);
    OneReply(Page([raw], 10));
    OneReply(OutOfRetention);
    assert [] + [e] == [e];
    assert Filter([raw][..0], InPage(10, 10, [c])) == [] && InPage(10, 10, [c])(raw);
  }
}
