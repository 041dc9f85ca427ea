/**
 One logical read of channel-auth events: contract ids are batched into RPC calls, each page is parsed, and
 the pages are joined in ledger order up to the least advanced call.
 */
module EventFetch {
  import opened Sequences

  type ContractId = string

  // ---------- Batching ----------

  const MAX_CONTRACT_IDS_PER_FILTER := 5
  const MAX_FILTERS_PER_CALL := 5
  const MAX_CONTRACT_IDS_PER_CALL := 25

  function Concat<T>(parts: seq<seq<T>>): seq<T> {
    if parts == [] then [] else parts[0] + Concat(parts[1..])
  }

  lemma {:induction false} ConcatAppend<T>(a: seq<seq<T>>, b: seq<seq<T>>)
    ensures Concat(a + b) == Concat(a) + Concat(b)
  {
    if a == [] {
      assert a + b == b;
    } else {
      assert (a + b)[1..] == a[1..] + b;
      ConcatAppend(a[1..], b);
    }
  }

  /** How many chunks of `size` cover `n` items. */
  function CeilDiv(n: nat, size: nat): nat
    requires size >= 1
  {
    (n + size - 1) / size
  }

  /** `items` cut into pieces of `size`, the last one possibly shorter. */
  function Chunks<T>(items: seq<T>, size: nat): (parts: seq<seq<T>>)
    requires size >= 1
    decreases |items|
  {
    if items == [] then []
    else if |items| <= size then [items]
    else [items[..size]] + Chunks(items[size..], size)
  }

  /** Chunks are never empty nor too long, they give the list back, and there are as few as possible. */
  lemma {:induction false} ChunksFacts<T>(items: seq<T>, size: nat)
    requires size >= 1
    ensures var parts := Chunks(items, size);
      && Concat(parts) == items
      && |parts| == CeilDiv(|items|, size)
      && forall i :: 0 <= i < |parts| ==> 1 <= |parts[i]| <= size
    decreases |items|
  {
    if items == [] {
      QuotientOfNone(size);
    } else if |items| <= size {
      QuotientOfOne(|items|, size);
      assert Concat([items][1..]) == [];
    } else {
      ChunksFacts(items[size..], size);
      QuotientStep(|items| - size, size);
      var parts := Chunks(items, size);
      assert parts[1..] == Chunks(items[size..], size);
      assert items == items[..size] + items[size..];
    }
  }

  lemma QuotientOfOne(n: nat, size: nat)
    requires 1 <= n <= size
    ensures CeilDiv(n, size) == 1
  {
  }

  lemma QuotientOfNone(size: nat)
    requires size >= 1
    ensures CeilDiv(0, size) == 0
  {
  }

  lemma QuotientStep(n: nat, size: nat)
    requires size >= 1
    ensures CeilDiv(n + size, size) == CeilDiv(n, size) + 1
  {
    var m := n + size - 1;
    var q, p := m / size, (m + size) / size;
    assert m == size * q + m % size && m + size == size * p + (m + size) % size;
    if p > q + 1 { Scaled(size, p - q - 2); }
    if p < q + 1 { Scaled(size, q - p); }
    assert size * (p - q - 1) == m % size - (m + size) % size;
  }

  lemma Scaled(size: int, k: int)
    requires size >= 0 && k >= 0
    ensures size * (k + 1) >= size
    ensures size * (-k - 1) <= -size
  {
  }

  /** What is left to cut after the first `i` items. */
  function Uncut<T>(items: seq<T>, i: nat, size: nat): seq<seq<T>>
    requires size >= 1
  {
    if i < |items| then Chunks(items[i..], size) else []
  }

  lemma UncutNext<T>(items: seq<T>, i: nat, size: nat)
    requires size >= 1 && i < |items|
    ensures var end := if i + size <= |items| then i + size else |items|;
      Uncut(items, i, size) == [items[i..end]] + Uncut(items, i + size, size)
  {
    if i + size < |items| {
      assert items[i..][..size] == items[i..i + size] && items[i..][size..] == items[i + size..];
    } else {
      assert items[i..|items|] == items[i..];
    }
  }

  lemma Regroup<T>(done: seq<seq<T>>, piece: seq<T>, rest: seq<seq<T>>)
    ensures done + ([piece] + rest) == (done + [piece]) + rest
  {
  }

  method Chunk<T>(items: seq<T>, size: nat) returns (out: seq<seq<T>>)
    requires size >= 1
    ensures out == Chunks(items, size)
  {
    out := [];
    var i := 0;
    assert items[0..] == items;
    while i < |items|
      invariant out + Uncut(items, i, size) == Chunks(items, size)
      decreases |items| - i
    {
      UncutNext(items, i, size);
      var piece := items[i..if i + size <= |items| then i + size else |items|];
      Regroup(out, piece, Uncut(items, i + size, size));
      out := out + [piece];
      i := i + size;
    }
  }

  /** The filters of each call of one read. */
  function Batches(ids: seq<ContractId>): seq<seq<seq<ContractId>>> {
    Chunks(Chunks(ids, MAX_CONTRACT_IDS_PER_FILTER), MAX_FILTERS_PER_CALL)
  }

  method BuildEventFilterBatches(contractIds: seq<ContractId>) returns (calls: seq<seq<seq<ContractId>>>)
    ensures calls == Batches(contractIds)
  {
    var filters := Chunk(contractIds, MAX_CONTRACT_IDS_PER_FILTER);
    calls := Chunk(filters, MAX_FILTERS_PER_CALL);
  }

  predicate FilterListOk(filters: seq<seq<ContractId>>) {
    1 <= |filters| <= 5 && forall j :: 0 <= j < |filters| ==> 1 <= |filters[j]| <= 5
  }

  /** Calls hold one to five filters of one to five ids each, the ids come back in their original order, and
      there is one call per twenty-five ids or part of that. */
  lemma BatchesFacts(ids: seq<ContractId>)
    ensures var calls := Batches(ids);
      && Concat(Concat(calls)) == ids
      && |calls| == CeilDiv(|ids|, 25)
      && forall i :: 0 <= i < |calls| ==> FilterListOk(calls[i])
  {
    var filters := Chunks(ids, MAX_CONTRACT_IDS_PER_FILTER);
    var calls := Batches(ids);
    ChunksFacts(ids, MAX_CONTRACT_IDS_PER_FILTER);
    ChunksFacts(filters, MAX_FILTERS_PER_CALL);
    forall i, j | 0 <= i < |calls| && 0 <= j < |calls[i]| ensures 1 <= |calls[i][j]| <= MAX_CONTRACT_IDS_PER_FILTER {
      ConcatMember(calls, i, j);
    }
  }

  lemma {:induction false} ConcatMember<T>(parts: seq<seq<T>>, i: nat, j: nat)
    requires i < |parts| && j < |parts[i]|
    ensures parts[i][j] in Concat(parts)
  {
    if i > 0 { ConcatMember(parts[1..], i - 1, j); }
  }

  /** The ids each call asks for. */
  function CallIds(ids: seq<ContractId>): seq<seq<ContractId>> { Joined(Batches(ids)) }

  function Joined(calls: seq<seq<seq<ContractId>>>): (r: seq<seq<ContractId>>)
    ensures |r| == |calls|
    ensures forall i :: 0 <= i < |calls| ==> r[i] == Concat(calls[i])
  {
    seq(|calls|, i requires 0 <= i < |calls| => Concat(calls[i]))
  }

  lemma {:induction false} JoinedConcat(calls: seq<seq<seq<ContractId>>>)
    ensures Concat(Joined(calls)) == Concat(Concat(calls))
  {
    if calls == [] {
    } else {
      JoinedConcat(calls[1..]);
      assert Joined(calls)[1..] == Joined(calls[1..]);
      ConcatAppend(calls[0], Concat(calls[1..]));
    }
  }

  lemma CallIdsFacts(ids: seq<ContractId>)
    ensures Concat(CallIds(ids)) == ids
    ensures |CallIds(ids)| == CeilDiv(|ids|, MAX_CONTRACT_IDS_PER_CALL)
  {
    BatchesFacts(ids);
    JoinedConcat(Batches(ids));
  }

  // ---------- Parsing ----------

  datatype Topic = SymbolTopic(name: string) | AddressTopic(address: string) | OtherTopic

  /** An event as the RPC returns it; the data value is kept as its truth value. */
  datatype RawEvent = RawEvent(topics: seq<Topic>, value: bool, ledger: int, contract: Option<ContractId>)

  datatype EventType = ContractInitialized | ProviderAdded | ProviderRemoved | ChannelStateChanged

  datatype StateChange = StateChange(channel: string, asset: string, enabled: bool)

  datatype Event = Event(kind: EventType, address: string, ledger: int, contract: ContractId,
                         change: Option<StateChange>)

  function KnownTopic(name: string): Option<EventType> {
    if name == "contract_initialized" then Some(ContractInitialized)
    else if name == "provider_added" then Some(ProviderAdded)
    else if name == "provider_removed" then Some(ProviderRemoved)
    else if name == "channel_state_changed" then Some(ChannelStateChanged)
    else None
  }

  /** `Malformed`: decoding an address topic throws, which fails the whole read. */
  datatype ParseResult = Parsed(event: Event) | Ignored | Malformed

  /** `parseRawEvent`, with the source contract taken from the raw event. */
  function ParseRawEvent(raw: RawEvent): (r: ParseResult)
    ensures r.Parsed? ==> r.event.ledger == raw.ledger && raw.contract == Some(r.event.contract)
    ensures r.Malformed? ==> raw.contract.Some?
  {
    if |raw.topics| < 2 || !raw.topics[0].SymbolTopic? then Ignored
    else
      var kind := KnownTopic(raw.topics[0].name);
      if kind.None? || raw.contract.None? || raw.contract.value == "" then Ignored
      else if kind.value.ChannelStateChanged? then
        if |raw.topics| < 3 then Ignored
        else if !raw.topics[1].AddressTopic? || !raw.topics[2].AddressTopic? then Malformed
        else
          var channel := raw.topics[1].address;
          Parsed(Event(ChannelStateChanged, channel, raw.ledger, raw.contract.value,
                       Some(StateChange(channel, raw.topics[2].address, raw.value))))
      else if !raw.topics[1].AddressTopic? then Malformed
      else Parsed(Event(kind.value, raw.topics[1].address, raw.ledger, raw.contract.value, None))
  }

  function TopicName(kind: EventType): string {
    match kind
    case ContractInitialized => "contract_initialized"
    case ProviderAdded => "provider_added"
    case ProviderRemoved => "provider_removed"
    case ChannelStateChanged => "channel_state_changed"
  }

  /** The raw event a contract emits for `e`. */
  function Emit(e: Event): RawEvent {
    RawEvent([SymbolTopic(TopicName(e.kind)), AddressTopic(e.address)]
             + (if e.change.Some? then [AddressTopic(e.change.value.asset)] else []),
             e.change.Some? && e.change.value.enabled, e.ledger, Some(e.contract))
  }

  /** Only a state change names a channel, which is then also the event's address. */
  predicate WellFormed(e: Event) {
    && e.contract != "" && (e.kind.ChannelStateChanged? <==> e.change.Some?)
    && (e.change.Some? ==> e.change.value.channel == e.address)
  }

  /** Parsing gives back every event a contract emits. */
  lemma ParseRoundTrip(e: Event)
    requires WellFormed(e)
    ensures ParseRawEvent(Emit(e)) == Parsed(e)
  {
    assert KnownTopic(TopicName(e.kind)) == Some(e.kind);
  }

  /** And gives nothing else: a raw event that parses is an emitted one, up to topics after the last it needs and
      a data value it does not look at. */
  lemma ParsedWasEmitted(raw: RawEvent)
    requires ParseRawEvent(raw).Parsed?
    ensures var e := ParseRawEvent(raw).event;
      && WellFormed(e) && Emit(e).topics <= raw.topics
      && raw == Emit(e).(topics := raw.topics, value := raw.value)
      && (e.change.Some? ==> raw.value == Emit(e).value)
  {
    var e := ParseRawEvent(raw).event;
    assert raw.topics[0] == SymbolTopic(TopicName(e.kind));
  }

  /** The well-formed events among `raws`, in order. */
  function ParseAll(raws: seq<RawEvent>): seq<Event> {
    if raws == [] then []
    else
      var n := |raws| - 1;
      var r := ParseRawEvent(raws[n]);
      ParseAll(raws[..n]) + (if r.Parsed? then [r.event] else [])
  }

  predicate AnyMalformed(raws: seq<RawEvent>) {
    exists i :: 0 <= i < |raws| && ParseRawEvent(raws[i]).Malformed?
  }

  // ---------- Ledger order ----------

  predicate LedgerOrder(es: seq<Event>) {
    forall i, j :: 0 <= i < j < |es| ==> es[i].ledger <= es[j].ledger
  }

  /** Inserts after the last event that is not later. */
  function InsertByLedger(es: seq<Event>, e: Event): seq<Event> {
    if es == [] || es[|es| - 1].ledger <= e.ledger then es + [e]
    else InsertByLedger(es[..|es| - 1], e) + [es[|es| - 1]]
  }

  lemma AppendKeepsOrder(es: seq<Event>, e: Event)
    requires LedgerOrder(es) && forall x :: x in es ==> x.ledger <= e.ledger
    ensures LedgerOrder(es + [e])
  {
    assert forall i :: 0 <= i < |es| ==> es[i] in es;
  }

  lemma {:induction false} InsertFacts(es: seq<Event>, e: Event)
    requires LedgerOrder(es)
    ensures var r := InsertByLedger(es, e);
      && LedgerOrder(r) && multiset(r) == multiset(es) + multiset{e}
      && forall x :: x in r ==> x in es || x == e
  {
    if es == [] || es[|es| - 1].ledger <= e.ledger {
      AppendKeepsOrder(es, e);
    } else {
      var n := |es| - 1;
      assert es == es[..n] + [es[n]];
      InsertFacts(es[..n], e);
      AppendKeepsOrder(InsertByLedger(es[..n], e), es[n]);
    }
  }

  /** The stable sort by ledger. */
  function SortByLedger(es: seq<Event>): (r: seq<Event>)
    ensures LedgerOrder(r) && multiset(r) == multiset(es)
  {
    if es == [] then []
    else
      var n := |es| - 1;
      assert es == es[..n] + [es[n]];
      InsertFacts(SortByLedger(es[..n]), es[n]);
      InsertByLedger(SortByLedger(es[..n]), es[n])
  }

  // ---------- Reading ----------

  /** What one `getEvents` call answers. */
  datatype Reply = Page(events: seq<RawEvent>, latestLedger: int) | OutOfRetention | TransientError

  datatype FetchResult = Fetched(events: seq<Event>, latestLedger: int) | FetchOutOfRetention | FetchFailed

  /** What the pages read so far amount to; no latest ledger before the first page. */
  datatype Progress = Gathered(events: seq<Event>, latest: Option<int>) | Stopped(retention: bool)

  function MinLatest(latest: Option<int>, l: int): int {
    if latest.Some? && latest.value <= l then latest.value else l
  }

  /** One more page; a failed call or a malformed event ends the read. */
  function GatherNext(g: Progress, r: Reply): Progress {
    if g.Stopped? then g
    else
      match r
      case OutOfRetention => Stopped(true)
      case TransientError => Stopped(false)
      case Page(events, l) =>
        if AnyMalformed(events) then Stopped(false)
        else Gathered(g.events + ParseAll(events), Some(MinLatest(g.latest, l)))
  }

  function Gather(replies: seq<Reply>): Progress {
    if replies == [] then Gathered([], None)
    else GatherNext(Gather(replies[..|replies| - 1]), replies[|replies| - 1])
  }

  /** The result of a read of `ids` whose calls are answered by `replies`, in order. */
  function Fetch(ids: seq<ContractId>, startLedger: int, replies: seq<Reply>): FetchResult {
    if ids == [] then Fetched([], startLedger - 1)
    else
      match Gather(replies)
      case Stopped(retention) => if retention then FetchOutOfRetention else FetchFailed
      case Gathered(events, latest) =>
        Fetched(SortByLedger(events), if latest.Some? then latest.value else startLedger - 1)
  }

  /** Parses one page; `ok` is false when an event throws. */
  method ParsePage(raws: seq<RawEvent>, parsed: seq<Event>) returns (ok: bool, events: seq<Event>)
    ensures ok == !AnyMalformed(raws)
    ensures ok ==> events == parsed + ParseAll(raws)
  {
    events := parsed;
    for i := 0 to |raws|
      invariant forall k :: 0 <= k < i ==> !ParseRawEvent(raws[k]).Malformed?
      invariant events == parsed + ParseAll(raws[..i])
    {
      assert raws[..i + 1][..i] == raws[..i];
      match ParseRawEvent(raws[i]) {
        case Parsed(e) => events := events + [e];
        case Ignored =>
        case Malformed => return false, events;
      }
    }
    assert raws[..|raws|] == raws;
    return true, events;
  }

  lemma {:induction false} StaysStopped(replies: seq<Reply>, n: nat)
    requires n <= |replies| && Gather(replies[..n]).Stopped?
    ensures Gather(replies) == Gather(replies[..n])
  {
    if n == |replies| {
      assert replies[..n] == replies;
    } else {
      var m := |replies| - 1;
      assert replies[..m][..n] == replies[..n];
      StaysStopped(replies[..m], n);
    }
  }

  /** `fetchChannelAuthEvents`; `replies[i]` is the answer to the i-th call. */
  method FetchChannelAuthEvents(contractIds: seq<ContractId>, startLedger: int, replies: seq<Reply>)
    returns (r: FetchResult)
    requires |replies| == |Batches(contractIds)|
    ensures r == Fetch(contractIds, startLedger, replies)
  {
    if |contractIds| == 0 { return Fetched([], startLedger - 1); }
    var callBatches := BuildEventFilterBatches(contractIds);
    BatchesFacts(contractIds);
    var parsed: seq<Event> := [];
    var latestLedger: Option<int> := None;
    for i := 0 to |callBatches|
      invariant Gather(replies[..i]) == Gathered(parsed, latestLedger)
    {
      assert replies[..i + 1][..i] == replies[..i];
      if Gather(replies[..i + 1]).Stopped? { StaysStopped(replies, i + 1); }
      match replies[i] {
        case OutOfRetention => return FetchOutOfRetention;
        case TransientError => return FetchFailed;
        case Page(events, latest) =>
          latestLedger := Some(MinLatest(latestLedger, latest));
          var ok;
          ok, parsed := ParsePage(events, parsed);
          if !ok { return FetchFailed; }
      }
    }
    assert replies[..|replies|] == replies;
    return Fetched(SortByLedger(parsed), if latestLedger.Some? then latestLedger.value else startLedger - 1);
  }

  // ---------- Against one unlimited query ----------

  function InPage(startLedger: int, latestLedger: int, ids: seq<ContractId>): RawEvent -> bool {
    (raw: RawEvent) => startLedger <= raw.ledger <= latestLedger && raw.contract.Some? && raw.contract.value in ids
  }

  /** The RPC answers with exactly the matching events of the chain up to its latest ledger. */
  ghost predicate HonestReply(chain: seq<RawEvent>, ids: seq<ContractId>, startLedger: int, r: Reply) {
    r.Page? ==> r.latestLedger >= startLedger - 1 && r.events == Filter(chain, InPage(startLedger, r.latestLedger, ids))
  }

  ghost predicate HonestReplies(chain: seq<RawEvent>, ids: seq<ContractId>, startLedger: int, replies: seq<Reply>) {
    && |replies| == |CallIds(ids)|
    && forall i :: 0 <= i < |replies| ==> HonestReply(chain, CallIds(ids)[i], startLedger, replies[i])
  }

  /** How often the chain holds event `e`. */
  ghost function OnChain(chain: seq<RawEvent>, e: Event): nat { multiset(ParseAll(chain))[e] }

  ghost predicate Wanted(e: Event, ids: seq<ContractId>, startLedger: int, latestLedger: int) {
    e.contract in ids && startLedger <= e.ledger <= latestLedger
  }

  /** Whether a raw event is one occurrence of `e`. */
  ghost function Occurs(raw: RawEvent, e: Event): nat { if ParseRawEvent(raw) == Parsed(e) then 1 else 0 }

  lemma OnChainSnoc(front: seq<RawEvent>, raw: RawEvent, e: Event)
    ensures OnChain(front + [raw], e) == OnChain(front, e) + Occurs(raw, e)
  {
    assert (front + [raw])[..|front|] == front;
  }

  /** A page holds every wanted event as often as the chain does, and no other. */
  lemma {:induction false} PageCount(chain: seq<RawEvent>, ids: seq<ContractId>, startLedger: int, latestLedger: int,
                                     e: Event)
    ensures OnChain(Filter(chain, InPage(startLedger, latestLedger, ids)), e)
         == if Wanted(e, ids, startLedger, latestLedger) then OnChain(chain, e) else 0
  {
    if chain == [] {
    } else {
      var front, raw := chain[..|chain| - 1], chain[|chain| - 1];
      var keep := InPage(startLedger, latestLedger, ids);
      assert chain == front + [raw];
      PageCount(front, ids, startLedger, latestLedger, e);
      OnChainSnoc(front, raw, e);
      OnChainSnoc(Filter(front, keep), raw, e);
    }
  }

  /** What the calls made so far, for `asked`, have gathered of event `e`. */
  ghost predicate GatheredSoFar(chain: seq<RawEvent>, asked: seq<ContractId>, startLedger: int, g: Progress, e: Event) {
    g.Gathered? ==>
      var count := multiset(g.events)[e];
      && count <= OnChain(chain, e)
      && (g.latest.Some? ==> g.latest.value >= startLedger - 1)
      && (e.contract !in asked || e.ledger < startLedger ==> count == 0)
      && (e.contract in asked ==> g.latest.Some?)
      && (e.contract in asked && startLedger <= e.ledger && e.ledger <= g.latest.value ==> count == OnChain(chain, e))
  }

  lemma GatherNextCount(chain: seq<RawEvent>, asked: seq<ContractId>, ids: seq<ContractId>, startLedger: int,
                        g: Progress, r: Reply, e: Event)
    requires GatheredSoFar(chain, asked, startLedger, g, e) && HonestReply(chain, ids, startLedger, r)
    requires !(e.contract in asked && e.contract in ids)
    ensures GatheredSoFar(chain, asked + ids, startLedger, GatherNext(g, r), e)
  {
    if GatherNext(g, r).Gathered? {
      PageCount(chain, ids, startLedger, r.latestLedger, e);
    }
  }

  lemma {:induction false} GatherCount(chain: seq<RawEvent>, calls: seq<seq<ContractId>>, startLedger: int,
                                       replies: seq<Reply>, e: Event)
    requires |replies| == |calls| && NoDuplicates(Concat(calls))
    requires forall i :: 0 <= i < |replies| ==> HonestReply(chain, calls[i], startLedger, replies[i])
    ensures GatheredSoFar(chain, Concat(calls), startLedger, Gather(replies), e)
  {
    if calls == [] {
    } else {
      var n := |calls| - 1;
      assert calls == calls[..n] + [calls[n]];
      ConcatAppend(calls[..n], [calls[n]]);
      assert [calls[n]][1..] == [];
      assert Concat([calls[n]]) == calls[n];
      SplitDistinct(Concat(calls[..n]), calls[n]);
      GatherCount(chain, calls[..n], startLedger, replies[..n], e);
      GatherNextCount(chain, Concat(calls[..n]), calls[n], startLedger, Gather(replies[..n]), replies[n], e);
    }
  }

  lemma SplitDistinct(a: seq<ContractId>, b: seq<ContractId>)
    requires NoDuplicates(a + b)
    ensures NoDuplicates(a) && forall x :: !(x in a && x in b)
  {
    forall i, j | 0 <= i < j < |a| ensures a[i] != a[j] {
      assert (a + b)[i] == a[i] && (a + b)[j] == a[j];
    }
    forall i, j | 0 <= i < |a| && 0 <= j < |b| ensures a[i] != b[j] {
      assert (a + b)[i] == a[i] && (a + b)[|a| + j] == b[j];
    }
  }

  /** Refinement: whatever the batching, a successful read is in ledger order, holds every watched contract's
      events from the start ledger up to the latest ledger it reports exactly as often as the chain does, and
      beyond that at most as often; a read of at most twenty-five ids holds nothing beyond it. */
  lemma FetchCount(chain: seq<RawEvent>, ids: seq<ContractId>, startLedger: int, replies: seq<Reply>, e: Event)
    requires NoDuplicates(ids) && HonestReplies(chain, ids, startLedger, replies)
    requires Fetch(ids, startLedger, replies).Fetched?
    ensures var r := Fetch(ids, startLedger, replies);
      var count := multiset(r.events)[e];
      && LedgerOrder(r.events) && r.latestLedger >= startLedger - 1
      && count <= OnChain(chain, e)
      && (e.contract !in ids || e.ledger < startLedger ==> count == 0)
      && (Wanted(e, ids, startLedger, r.latestLedger) ==> count == OnChain(chain, e))
      && (|ids| <= MAX_CONTRACT_IDS_PER_CALL && e.ledger > r.latestLedger ==> count == 0)
  {
    CallIdsFacts(ids);
    GatherCount(chain, CallIds(ids), startLedger, replies, e);
    if ids != [] && |ids| <= MAX_CONTRACT_IDS_PER_CALL {
      OneCall(chain, ids, startLedger, replies, e);
    }
  }

  lemma OneCall(chain: seq<RawEvent>, ids: seq<ContractId>, startLedger: int, replies: seq<Reply>, e: Event)
    requires HonestReplies(chain, ids, startLedger, replies) && |replies| == 1
    requires Gather(replies).Gathered?
    ensures var g := Gather(replies);
      g.latest.Some? && (e.ledger > g.latest.value ==> multiset(g.events)[e] == 0)
  {
    assert Gather(replies[..0]) == Gathered([], None);
    PageCount(chain, CallIds(ids)[0], startLedger, replies[0].latestLedger, e);
    assert [] + ParseAll(replies[0].events) == ParseAll(replies[0].events);
  }

  /** The single query the batched read stands for. */
  ghost function Query(chain: seq<RawEvent>, ids: seq<ContractId>, startLedger: int, latestLedger: int): seq<Event> {
    ParseAll(Filter(chain, InPage(startLedger, latestLedger, ids)))
  }

  function NotBeyond(ledger: int): Event -> bool { (e: Event) => e.ledger <= ledger }

  /** Up to the ledger it reports, a batched read returns what one unlimited query would. */
  lemma FetchRefinesQuery(chain: seq<RawEvent>, ids: seq<ContractId>, startLedger: int, replies: seq<Reply>)
    requires NoDuplicates(ids) && HonestReplies(chain, ids, startLedger, replies)
    requires Fetch(ids, startLedger, replies).Fetched?
    ensures var r := Fetch(ids, startLedger, replies);
      multiset(Filter(r.events, NotBeyond(r.latestLedger))) == multiset(Query(chain, ids, startLedger, r.latestLedger))
  {
    var r := Fetch(ids, startLedger, replies);
    forall e ensures multiset(Filter(r.events, NotBeyond(r.latestLedger)))[e]
                  == multiset(Query(chain, ids, startLedger, r.latestLedger))[e]
    {
      FetchCount(chain, ids, startLedger, replies, e);
      FilterCount(r.events, NotBeyond(r.latestLedger), e);
      PageCount(chain, ids, startLedger, r.latestLedger, e);
    }
  }

  // ---------- Malformed events ----------

  /** A read that succeeds had a clean page from every call, and reports no ledger beyond any of them. */
  lemma {:induction false} GatheredClean(replies: seq<Reply>, i: nat)
    requires i < |replies| && Gather(replies).Gathered?
    ensures replies[i].Page? && !AnyMalformed(replies[i].events)
    ensures Gather(replies).latest.Some? && Gather(replies).latest.value <= replies[i].latestLedger
  {
    var n := |replies| - 1;
    if i == n {
    } else {
      GatheredClean(replies[..n], i);
    }
  }

  lemma {:induction false} ConcatFind<T>(parts: seq<seq<T>>, x: T) returns (i: nat)
    requires x in Concat(parts)
    ensures i < |parts| && x in parts[i]
  {
    if x in parts[0] {
      i := 0;
    } else {
      i := ConcatFind(parts[1..], x);
      i := i + 1;
    }
  }

  lemma MalformedInPage(chain: seq<RawEvent>, ids: seq<ContractId>, startLedger: int, latestLedger: int, raw: RawEvent)
    requires raw in chain && ParseRawEvent(raw).Malformed? && raw.contract.value in ids
    requires startLedger <= raw.ledger <= latestLedger
    ensures AnyMalformed(Filter(chain, InPage(startLedger, latestLedger, ids)))
  {
    var events := Filter(chain, InPage(startLedger, latestLedger, ids));
    assert raw in events;
    var k :| 0 <= k < |events| && events[k] == raw;
  }

  /** A read never gets past a malformed event of a contract it asks for: it fails, or it ends before that ledger. */
  lemma FetchStopsAtMalformed(chain: seq<RawEvent>, ids: seq<ContractId>, startLedger: int, replies: seq<Reply>,
                              raw: RawEvent)
    requires HonestReplies(chain, ids, startLedger, replies) && Fetch(ids, startLedger, replies).Fetched?
    requires raw in chain && ParseRawEvent(raw).Malformed? && raw.contract.value in ids && startLedger <= raw.ledger
    ensures Fetch(ids, startLedger, replies).latestLedger < raw.ledger
  {
    CallIdsFacts(ids);
    var i := ConcatFind(CallIds(ids), raw.contract.value);
    GatheredClean(replies, i);
    if replies[i].latestLedger >= raw.ledger {
      MalformedInPage(chain, CallIds(ids)[i], startLedger, replies[i].latestLedger, raw);
    }
  }

  // ---------- How a read ends ----------

  /** A page whose every event can be decoded. */
  predicate Clean(r: Reply) { r.Page? && !AnyMalformed(r.events) }

  /** The i-th reply is the first that is not a clean page. */
  predicate FirstBad(replies: seq<Reply>, i: nat) {
    i < |replies| && !Clean(replies[i]) && forall j :: 0 <= j < i ==> Clean(replies[j])
  }

  lemma {:induction false} GatherClean(replies: seq<Reply>)
    requires forall j :: 0 <= j < |replies| ==> Clean(replies[j])
    ensures Gather(replies).Gathered?
  {
    if replies == [] {
    } else {
      GatherClean(replies[..|replies| - 1]);
    }
  }

  /** The first reply that is not a clean page decides how the read fails. */
  lemma GatherBad(replies: seq<Reply>, i: nat)
    requires FirstBad(replies, i)
    ensures Gather(replies) == Stopped(replies[i].OutOfRetention?)
  {
    assert replies[..i + 1][..i] == replies[..i];
    GatherClean(replies[..i]);
    StaysStopped(replies, i + 1);
  }

  /** A read of some contracts succeeds exactly when every call answers with a clean page. Otherwise the first answer
      that is not one decides: it is out of retention exactly when that answer says so. */
  lemma FetchEnds(ids: seq<ContractId>, startLedger: int, replies: seq<Reply>)
    requires ids != []
    ensures (forall j :: 0 <= j < |replies| ==> Clean(replies[j])) ==> Fetch(ids, startLedger, replies).Fetched?
    ensures forall i: nat :: FirstBad(replies, i) ==>
      Fetch(ids, startLedger, replies) == if replies[i].OutOfRetention? then FetchOutOfRetention else FetchFailed
  {
    if forall j :: 0 <= j < |replies| ==> Clean(replies[j]) { GatherClean(replies); }
    forall i: nat | FirstBad(replies, i) ensures Gather(replies) == Stopped(replies[i].OutOfRetention?) {
      GatherBad(replies, i);
    }
  }

  lemma {:induction false} GatherLeast(replies: seq<Reply>)
    requires replies != [] && Gather(replies).Gathered?
    ensures exists i ::
      0 <= i < |replies| && replies[i].Page? && Gather(replies).latest == Some(replies[i].latestLedger)
  {
    var n := |replies| - 1;
    GatheredClean(replies, n);
    if n > 0 && Gather(replies).latest != Some(replies[n].latestLedger) {
      GatherLeast(replies[..n]);
      var i :| 0 <= i < n && replies[..n][i].Page? && Gather(replies[..n]).latest == Some(replies[..n][i].latestLedger);
      assert replies[..n][i] == replies[i];
    }
  }

  /** The ledger a successful read reports is the least that any of its calls reported. */
  lemma FetchReportsLeast(ids: seq<ContractId>, startLedger: int, replies: seq<Reply>)
    requires ids != [] && replies != [] && Fetch(ids, startLedger, replies).Fetched?
    ensures var latest := Fetch(ids, startLedger, replies).latestLedger;
      && (forall i :: 0 <= i < |replies| ==> replies[i].Page? && latest <= replies[i].latestLedger)
      && exists i :: 0 <= i < |replies| && replies[i].Page? && replies[i].latestLedger == latest
  {
    forall i | 0 <= i < |replies|
      ensures replies[i].Page? && Gather(replies).latest.Some?
      ensures Gather(replies).latest.value <= replies[i].latestLedger
    {
      GatheredClean(replies, i);
    }
    GatherLeast(replies);
  }

  // ---------- Order within a ledger ----------

  function AtLedger(ledger: int): Event -> bool { (e: Event) => e.ledger == ledger }

  lemma {:induction false} InsertKeepsLedger(es: seq<Event>, e: Event, ledger: int)
    requires LedgerOrder(es)
    ensures Filter(InsertByLedger(es, e), AtLedger(ledger)) == Filter(es + [e], AtLedger(ledger))
  {
    if es == [] || es[|es| - 1].ledger <= e.ledger {
    } else {
      var n := |es| - 1;
      InsertKeepsLedger(es[..n], e, ledger);
      FilterAppend(es, [e], AtLedger(ledger));
      FilterAppend(es[..n], [e], AtLedger(ledger));
    }
  }

  lemma {:induction false} SortKeepsLedger(es: seq<Event>, ledger: int)
    ensures Filter(SortByLedger(es), AtLedger(ledger)) == Filter(es, AtLedger(ledger))
  {
    if es == [] {
    } else {
      var front, e := es[..|es| - 1], es[|es| - 1];
      assert es == front + [e];
      SortKeepsLedger(front, ledger);
      InsertKeepsLedger(SortByLedger(front), e, ledger);
      FilterAppend(SortByLedger(front), [e], AtLedger(ledger));
      FilterAppend(front, [e], AtLedger(ledger));
    }
  }

  /** The events of all pages, page after page. */
  function PageEvents(replies: seq<Reply>): seq<Event> {
    if replies == [] then []
    else (if replies[0].Page? then ParseAll(replies[0].events) else []) + PageEvents(replies[1..])
  }

  lemma {:induction false} PageEventsAppend(a: seq<Reply>, b: seq<Reply>)
    ensures PageEvents(a + b) == PageEvents(a) + PageEvents(b)
  {
    if a == [] {
      assert a + b == b;
    } else {
      assert (a + b)[0] == a[0] && (a + b)[1..] == a[1..] + b;
      PageEventsAppend(a[1..], b);
    }
  }

  lemma {:induction false} GatherInOrder(replies: seq<Reply>)
    requires Gather(replies).Gathered?
    ensures Gather(replies).events == PageEvents(replies)
  {
    if replies == [] {
    } else {
      var front, r := replies[..|replies| - 1], replies[|replies| - 1];
      GatherInOrder(front);
      PageEventsAppend(front, [r]);
      assert replies == front + [r] && PageEvents([r][1..]) == [];
    }
  }

  /** Events of one ledger come in the order of the pages and, within a page, of its entries. */
  lemma FetchKeepsPageOrder(ids: seq<ContractId>, startLedger: int, replies: seq<Reply>, ledger: int)
    requires ids != [] && Fetch(ids, startLedger, replies).Fetched?
    ensures Filter(Fetch(ids, startLedger, replies).events, AtLedger(ledger))
         == Filter(PageEvents(replies), AtLedger(ledger))
  {
    GatherInOrder(replies);
    SortKeepsLedger(PageEvents(replies), ledger);
  }
}
