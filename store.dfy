/**
 * The sync store (src/store/useBlockchain.ts): the state the UI reads, the
 * `refresh` transitions, the polling timer and the record persisted after a
 * successful refresh.
 *
 * The pure functions at the top say what one refresh does to the state; the
 * class `BlockchainStore` holds the fields the store updates in place and
 * its methods are proved against those functions.
 */
module SyncStore {
  import opened Wrappers
  import opened BlockchainApi

  /** What the UI reads from the store. */
  datatype SyncState = SyncState(
    block: Option<BlockDetails>,
    previousBlock: Option<BlockDetails>,
    loading: bool,
    error: Option<string>)

  /** The `{ block, previousBlock }` record kept in durable storage. */
  datatype Snapshot = Snapshot(block: Option<BlockDetails>, previousBlock: Option<BlockDetails>)

  /** The state the store's initializer returns. */
  const InitialState := SyncState(None, None, false, None)

  /** `set({ loading: true, error: null })`. */
  function Began(s: SyncState): (t: SyncState)
    ensures t.loading && t.error.None?
    ensures t.block == s.block && t.previousBlock == s.previousBlock
  {
    s.(loading := true, error := None)
  }

  /** `err?.message || String(err)`, where `String` of an error with no message is its name. */
  function ErrorText(e: Error): (m: string)
    ensures e.message != "" ==> m == e.message
    ensures e.message == "" ==> m == e.name
    ensures m != "" <==> e.message != "" || e.name != ""
  {
    if e.message != "" then e.message else e.name
  }

  /**
   * The end of a refresh: a fetched pair replaces both block fields (an absent
   * previous block included); a failure keeps them and records its message;
   * either way loading ends.
   */
  function Completed(s: SyncState, outcome: Result<TwoBlocks, Error>): (t: SyncState)
    ensures !t.loading
    ensures outcome.Success? ==>
      t.block == Some(outcome.value.current) && t.previousBlock == outcome.value.previous && t.error == s.error
    ensures outcome.Failure? ==>
      t.block == s.block && t.previousBlock == s.previousBlock && t.error == Some(ErrorText(outcome.error))
  {
    match outcome
    case Success(pair) => s.(block := Some(pair.current), previousBlock := pair.previous, loading := false)
    case Failure(e) => s.(error := Some(ErrorText(e)), loading := false)
  }

  /** One whole refresh, from its start to the fetch's outcome. */
  function Refreshed(s: SyncState, outcome: Result<TwoBlocks, Error>): SyncState {
    Completed(Began(s), outcome)
  }

  /** The storage after a refresh: the fetched pair when it could be written, else what was there. */
  function Persisted(stored: Option<Snapshot>, outcome: Result<TwoBlocks, Error>, storageWritable: bool)
    : (r: Option<Snapshot>)
    ensures outcome.Success? && storageWritable ==>
      r == Some(Snapshot(Some(outcome.value.current), outcome.value.previous))
    ensures outcome.Failure? || !storageWritable ==> r == stored
  {
    if outcome.Success? && storageWritable then
      Some(Snapshot(Some(outcome.value.current), outcome.value.previous))
    else
      stored
  }

  /** A field of a parsed JSON object: absent, `null`, or a value. */
  datatype Field<T> = Missing | Null | Present(value: T)

  /** `field ?? null`: an absent field and `null` both become `null`. */
  function OrNull<T>(field: Field<T>): (r: Option<T>)
    ensures r.Some? <==> field.Present?
    ensures r.Some? ==> r.value == field.value
  {
    if field.Present? then Some(field.value) else None
  }

  /** The object `JSON.parse` yields for the stored value, as far as it is read. */
  datatype StoredJson = StoredJson(block: Field<BlockDetails>, previousBlock: Field<BlockDetails>)

  /**
   * The restore attempted when the store is created: nothing for a missing or
   * empty stored value or one `parse` rejects (`JSON.parse` throwing, or the
   * property reads on a non-object throwing), otherwise the parsed record
   * with `?? null` applied to both fields. The store created right after
   * does not show it: its initializer's result replaces it.
   */
  function RestoredSnapshot(raw: Option<string>, parse: string -> Option<StoredJson>): (r: Option<Snapshot>)
    ensures r.Some? <==> raw.Some? && raw.value != "" && parse(raw.value).Some?
    ensures r.Some? ==> (r.value.block.Some? <==> parse(raw.value).value.block.Present?)
    ensures r.Some? ==> (r.value.previousBlock.Some? <==> parse(raw.value).value.previousBlock.Present?)
    ensures r.Some? && r.value.block.Some? ==> r.value.block.value == parse(raw.value).value.block.value
    ensures r.Some? && r.value.previousBlock.Some? ==>
      r.value.previousBlock.value == parse(raw.value).value.previousBlock.value
  {
    if raw.None? || raw.value == "" then None
    else
      match parse(raw.value)
      case None => None
      case Some(json) => Some(Snapshot(OrNull(json.block), OrNull(json.previousBlock)))
  }

  /** A sequence of refreshes, one per outcome, in order. */
  function RefreshAll(s: SyncState, outcomes: seq<Result<TwoBlocks, Error>>): SyncState
    decreases |outcomes|
  {
    if outcomes == [] then s else RefreshAll(Refreshed(s, outcomes[0]), outcomes[1..])
  }

  /** The pair of the last successful outcome, if any. */
  function LastSuccess(outcomes: seq<Result<TwoBlocks, Error>>): Option<TwoBlocks>
    decreases |outcomes|
  {
    if outcomes == [] then None
    else if outcomes[|outcomes| - 1].Success? then Some(outcomes[|outcomes| - 1].value)
    else LastSuccess(outcomes[..|outcomes| - 1])
  }

  /** A successful refresh clears a previous error. */
  lemma SuccessClearsError(s: SyncState, pair: TwoBlocks)
    ensures Refreshed(s, Success(pair)) == SyncState(Some(pair.current), pair.previous, false, None)
  {
  }

  /** Two successful refreshes, the second naming the first as previous, show both. */
  lemma ConsecutiveRefreshes(s: SyncState, first: BlockDetails, second: BlockDetails)
    ensures RefreshAll(s, [Success(TwoBlocks(first, None)), Success(TwoBlocks(second, Some(first)))])
      == SyncState(Some(second), Some(first), false, None)
  {
    var outcomes: seq<Result<TwoBlocks, Error>> := [Success(TwoBlocks(first, None)), Success(TwoBlocks(second, Some(first)))];
    var afterFirst := Refreshed(s, outcomes[0]);
    assert outcomes[1..] == [outcomes[1]];
    assert RefreshAll(s, outcomes) == RefreshAll(afterFirst, [outcomes[1]]);
    assert [outcomes[1]][1..] == [];
    assert RefreshAll(afterFirst, [outcomes[1]]) == Refreshed(afterFirst, outcomes[1]);
  }

  lemma {:induction false} RefreshAllSnoc(s: SyncState, outcomes: seq<Result<TwoBlocks, Error>>, last: Result<TwoBlocks, Error>)
    ensures RefreshAll(s, outcomes + [last]) == Refreshed(RefreshAll(s, outcomes), last)
    decreases |outcomes|
  {
    if outcomes == [] {
      assert [last][1..] == [];
    } else {
      assert (outcomes + [last])[1..] == outcomes[1..] + [last];
      RefreshAllSnoc(Refreshed(s, outcomes[0]), outcomes[1..], last);
    }
  }

  /**
   * After any run of refreshes the displayed pair is the last fetched one, or
   * the pair shown before the run if none succeeded; the error is set exactly
   * when the last refresh failed; loading has ended.
   */
  lemma {:induction false} ShowsLastSuccess(s: SyncState, outcomes: seq<Result<TwoBlocks, Error>>)
    requires outcomes != []
    ensures var t := RefreshAll(s, outcomes);
      && !t.loading
      && (t.error.None? <==> outcomes[|outcomes| - 1].Success?)
      && match LastSuccess(outcomes)
         case None => t.block == s.block && t.previousBlock == s.previousBlock
         case Some(pair) => t.block == Some(pair.current) && t.previousBlock == pair.previous
    decreases |outcomes|
  {
    var init := outcomes[..|outcomes| - 1];
    var last := outcomes[|outcomes| - 1];
    assert outcomes == init + [last];
    RefreshAllSnoc(s, init, last);
    if init == [] {
      assert RefreshAll(s, init) == s;
    } else {
      ShowsLastSuccess(s, init);
    }
  }

  /** The store object: its state fields, the polling timer and the storage slot it writes. */
  class BlockchainStore {
    var block: Option<BlockDetails>
    var previousBlock: Option<BlockDetails>
    var loading: bool
    var error: Option<string>
    /** Whether the closure's `timer` holds an interval. */
    var timerActive: bool
    /** The period of that interval, in milliseconds. */
    var pollInterval: int
    /** The value under the key "btc-browser:lastBlock" in durable storage. */
    var persisted: Option<Snapshot>
    /** The number of intervals this store has scheduled and not cleared. */
    ghost var liveTimers: nat

    function State(): SyncState
      reads this
    {
      SyncState(block, previousBlock, loading, error)
    }

    /** At most one interval runs, and it is the one `timer` holds. */
    ghost predicate Valid()
      reads this
    {
      liveTimers == if timerActive then 1 else 0
    }

    /** Creation: the initializer's literal state, whatever `stored` holds; no timer. */
    constructor (stored: Option<Snapshot>)
      ensures Valid() && State() == InitialState
      ensures !timerActive && persisted == stored
    {
      block, previousBlock, loading, error := None, None, false, None;
      timerActive, pollInterval, liveTimers := false, 0, 0;
      persisted := stored;
    }

    /** The start of `refresh`. */
    method BeginRefresh()
      requires Valid()
      modifies this
      ensures Valid() && State() == Began(old(State()))
      ensures timerActive == old(timerActive) && pollInterval == old(pollInterval) && liveTimers == old(liveTimers)
      ensures persisted == old(persisted)
    {
      loading := true;
      error := None;
    }

    /** The rest of `refresh`, once the fetch has produced `outcome`; a failed storage write is ignored. */
    method CompleteRefresh(outcome: Result<TwoBlocks, Error>, storageWritable: bool)
      requires Valid()
      modifies this
      ensures Valid() && State() == Completed(old(State()), outcome)
      ensures persisted == Persisted(old(persisted), outcome, storageWritable)
      ensures timerActive == old(timerActive) && pollInterval == old(pollInterval) && liveTimers == old(liveTimers)
    {
      match outcome {
        case Success(pair) =>
          block, previousBlock := Some(pair.current), pair.previous;
          if storageWritable {
            persisted := Some(Snapshot(Some(pair.current), pair.previous));
          }
        case Failure(e) =>
          error := Some(ErrorText(e));
      }
      loading := false;
    }

    /** `refresh()`: begin, fetch both blocks, complete. */
    method Refresh(env: Option<string>, net: Network, parse: JsonParser, storageWritable: bool)
      requires Valid()
      modifies this
      ensures Valid()
      ensures State() == Refreshed(old(State()), FetchLatestAndPreviousBlockDetails(env, net, parse).result)
      ensures persisted == Persisted(old(persisted), FetchLatestAndPreviousBlockDetails(env, net, parse).result, storageWritable)
      ensures timerActive == old(timerActive) && pollInterval == old(pollInterval) && liveTimers == old(liveTimers)
    {
      BeginRefresh();
      var fetched := FetchLatestAndPreviousBlockDetails(env, net, parse);
      CompleteRefresh(fetched.result, storageWritable);
    }

    /** `startPolling(ms)`: schedules an interval unless one is already active. */
    method StartPolling(ms: int)
      requires Valid()
      modifies this
      ensures Valid() && timerActive && liveTimers == 1
      ensures old(timerActive) ==> pollInterval == old(pollInterval)
      ensures !old(timerActive) ==> pollInterval == ms
      ensures State() == old(State()) && persisted == old(persisted)
    {
      if timerActive {
        return;
      }
      timerActive, pollInterval := true, ms;
      liveTimers := liveTimers + 1;
    }

    /** `stopPolling()`: clears the active interval, if any. */
    method StopPolling()
      requires Valid()
      modifies this
      ensures Valid() && !timerActive && liveTimers == 0
      ensures !old(timerActive) ==> pollInterval == old(pollInterval)
      ensures State() == old(State()) && persisted == old(persisted)
    {
      if timerActive {
        timerActive := false;
        liveTimers := liveTimers - 1;
      }
    }

    /**
     * One firing of the interval: a refresh whose rejection, if any, is
     * dropped. `refresh` handles every fetch failure itself, so the tick
     * ends like the refresh and the interval stays.
     */
    method Tick(env: Option<string>, net: Network, parse: JsonParser, storageWritable: bool)
      requires Valid() && timerActive
      modifies this
      ensures Valid() && timerActive && pollInterval == old(pollInterval)
      ensures State() == Refreshed(old(State()), FetchLatestAndPreviousBlockDetails(env, net, parse).result)
      ensures persisted == Persisted(old(persisted), FetchLatestAndPreviousBlockDetails(env, net, parse).result, storageWritable)
    {
      Refresh(env, net, parse, storageWritable);
    }
  }
}
