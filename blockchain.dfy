/**
 * The fetch client (src/api/blockchain.ts): the three `fetch*` operations as
 * total functions of the network's answers.
 *
 * Every HTTP request is a URL; the network is a function from the log of
 * URLs requested so far (the last one being the request in flight) to that
 * request's outcome: a response with a status and a body, or a thrown error.
 * A deadline that fires is the thrown error whose name is "AbortError";
 * a connection failure is any other thrown error. Parsing a JSON body and
 * `Number(...)` are parameters of the operations. Each operation returns
 * its result together with the log of the requests it issued.
 */
module BlockchainApi {
  import opened Wrappers
  import opened Text

  /** The explorer used when no base URL is configured. */
  const DefaultBase := "https://blockstream.info/api"

  /** The message a deadline failure is reported with. */
  const TimedOutMessage := "Request timed out"

  const InvalidHeightMessage := "Invalid block height response"

  /** A JavaScript error object: its `name` and its `message`. */
  datatype Error = Error(name: string, message: string)

  datatype BlockDetails = BlockDetails(id: string, height: int, timestamp: int, txCount: Option<int>)

  datatype TwoBlocks = TwoBlocks(current: BlockDetails, previous: Option<BlockDetails>)

  /** The fields of a `/block/{hash}` payload that are read; `None` is `null` or missing. */
  datatype BlockJson = BlockJson(id: string, height: int, timestamp: int, tx_count: Option<int>, txCount: Option<int>)

  /** A response: `body` is what reading it yields, or the error reading it throws. */
  datatype Response = Response(status: int, statusText: string, body: Result<string, Error>)

  datatype Outcome = Responded(response: Response) | Threw(error: Error)

  type Network = seq<string> -> Outcome

  /** `res.json()` once the body text is read: the payload, or the error it throws. */
  type JsonParser = string -> Result<BlockJson, Error>

  /** `Number(...)` restricted to finite integral values; `None` is NaN or an infinity. */
  type NumberParser = string -> Option<int>

  /** The result of an operation and the URLs it requested, in order. */
  datatype Fetched<T> = Fetched(result: Result<T, Error>, requests: seq<string>)

  /** One request as the code sees it: a usable body, a non-2xx response, or a throw. */
  datatype Step<T> = Got(value: T) | BadStatus(response: Response) | Raised(error: Error)

  /** `env.VITE_BLOCKSTREAM_API_BASE || default`: an unset or empty value selects the default. */
  function ConfiguredBase(env: Option<string>): (b: string)
    ensures b == DefaultBase <==> env.None? || env.value == "" || env.value == DefaultBase
    ensures b != DefaultBase ==> env == Some(b)
  {
    if env.Some? && env.value != "" then env.value else DefaultBase
  }

  /** `replace(/\/$/, '')`: removes one `/` at the very end, if there is one, and nothing else. */
  function StripTrailingSlash(s: string): (r: string)
    ensures s == r + "/" || (r == s && (s == [] || s[|s| - 1] != '/'))
    ensures s != [] && s[|s| - 1] == '/' ==> s == r + "/"
  {
    if s != [] && s[|s| - 1] == '/' then s[..|s| - 1] else s
  }

  function ApiBase(env: Option<string>): string {
    StripTrailingSlash(ConfiguredBase(env))
  }

  /** The explorer's endpoints under the base URL `b`. */
  function TipHeightUrl(b: string): string { b + "/blocks/tip/height" }

  function TipHashUrl(b: string): string { b + "/blocks/tip/hash" }

  function BlockUrl(b: string, hash: string): string { b + "/block/" + hash }

  function HeightUrl(b: string, height: nat): string { b + "/block-height/" + NatToString(height) }

  /** `res.ok`. */
  predicate IsOk(status: int) {
    200 <= status <= 299
  }

  /** The error thrown for a non-2xx response while fetching `what`. */
  function HttpFailure(what: string, r: Response): Error {
    Error("Error", "Failed to fetch " + what + ": " + IntToString(r.status) + " " + r.statusText)
  }

  /** The `catch` clause: an abort becomes "Request timed out", anything else is rethrown as is. */
  function Caught(e: Error): (r: Error)
    ensures r.name != "AbortError"
    ensures e.name == "AbortError" ==> r.message == TimedOutMessage
    ensures e.name != "AbortError" ==> r == e
  {
    if e.name == "AbortError" then Error("Error", TimedOutMessage) else e
  }

  function CaughtResult<T>(f: Fetched<T>): Fetched<T> {
    match f.result
    case Success(_) => f
    case Failure(e) => Fetched(Failure(Caught(e)), f.requests)
  }

  /** Maps a payload to a record: `tx_count ?? txCount ?? undefined`. */
  function ToDetails(data: BlockJson): (d: BlockDetails)
    ensures d.id == data.id && d.height == data.height && d.timestamp == data.timestamp
    ensures data.tx_count.Some? ==> d.txCount == data.tx_count
    ensures data.tx_count.None? ==> d.txCount == data.txCount
  {
    BlockDetails(data.id, data.height, data.timestamp,
      if data.tx_count.Some? then data.tx_count else data.txCount)
  }

  /** Issues the last request of `log`, checks `res.ok` and reads the trimmed body text. */
  function GetText(net: Network, log: seq<string>): (r: Step<string>)
    ensures r.Got? <==> net(log).Responded? && IsOk(net(log).response.status) && net(log).response.body.Success?
    ensures r.Got? ==> r.value == Trim(net(log).response.body.value)
    ensures r.BadStatus? <==> net(log).Responded? && !IsOk(net(log).response.status)
    ensures r.BadStatus? ==> r.response == net(log).response
    ensures net(log).Threw? ==> r == Raised(net(log).error)
    ensures net(log).Responded? && IsOk(net(log).response.status) && net(log).response.body.Failure? ==>
      r == Raised(net(log).response.body.error)
  {
    match net(log)
    case Threw(e) => Raised(e)
    case Responded(r) =>
      if !IsOk(r.status) then BadStatus(r)
      else
        match r.body
        case Failure(e) => Raised(e)
        case Success(text) => Got(Trim(text))
  }

  /** Issues the last request of `log`, checks `res.ok`, reads the JSON body and maps it. */
  function GetBlock(net: Network, log: seq<string>, parse: JsonParser): (r: Step<BlockDetails>)
    ensures r.Got? <==>
      net(log).Responded? && IsOk(net(log).response.status) && net(log).response.body.Success?
      && parse(net(log).response.body.value).Success?
    ensures r.Got? ==> r.value == ToDetails(parse(net(log).response.body.value).value)
    ensures net(log).Responded? && IsOk(net(log).response.status) && net(log).response.body.Success?
            && parse(net(log).response.body.value).Failure? ==>
      r == Raised(parse(net(log).response.body.value).error)
    ensures r.BadStatus? <==> net(log).Responded? && !IsOk(net(log).response.status)
    ensures r.BadStatus? ==> r.response == net(log).response
    ensures net(log).Threw? ==> r == Raised(net(log).error)
    ensures net(log).Responded? && IsOk(net(log).response.status) && net(log).response.body.Failure? ==>
      r == Raised(net(log).response.body.error)
  {
    match net(log)
    case Threw(e) => Raised(e)
    case Responded(r) =>
      if !IsOk(r.status) then BadStatus(r)
      else
        match r.body
        case Failure(e) => Raised(e)
        case Success(text) =>
          match parse(text)
          case Failure(e) => Raised(e)
          case Success(data) => Got(ToDetails(data))
  }

  /** The tip hash, then the block with that hash; any failure is thrown (before the `catch`). */
  function LatestBlock(b: string, net: Network, parse: JsonParser): (f: Fetched<BlockDetails>)
    ensures 1 <= |f.requests| <= 2 && f.requests[0] == TipHashUrl(b)
    ensures f.result.Success? ==> |f.requests| == 2 && net(f.requests).Responded?
    ensures net(f.requests).Threw? ==> f.result == Failure(net(f.requests).error)
    ensures |f.requests| == 2 ==> net(f.requests[..1]).Responded?
    ensures |f.requests| == 2 ==>
      GetText(net, f.requests[..1]).Got? && f.requests[1] == BlockUrl(b, GetText(net, f.requests[..1]).value)
    ensures f.result.Success? ==> GetBlock(net, f.requests, parse) == Got(f.result.value)
    ensures GetText(net, [TipHashUrl(b)]).Raised? ==>
      f == Fetched(Failure(GetText(net, [TipHashUrl(b)]).error), [TipHashUrl(b)])
    ensures |f.requests| == 2 && GetBlock(net, f.requests, parse).Raised? ==>
      f.result == Failure(GetBlock(net, f.requests, parse).error)
  {
    var hashUrl := TipHashUrl(b);
    match GetText(net, [hashUrl])
    case Raised(e) => Fetched(Failure(e), [hashUrl])
    case BadStatus(r) => Fetched(Failure(HttpFailure("latest block hash", r)), [hashUrl])
    case Got(hash) =>
      var blockUrl := BlockUrl(b, hash);
      assert [hashUrl, blockUrl][..1] == [hashUrl];
      match GetBlock(net, [hashUrl, blockUrl], parse)
      case Raised(e) => Fetched(Failure(e), [hashUrl, blockUrl])
      case BadStatus(r) => Fetched(Failure(HttpFailure("block details", r)), [hashUrl, blockUrl])
      case Got(current) => Fetched(Success(current), [hashUrl, blockUrl])
  }

  /**
   * The block before `current`, looked up after the requests in `sent`: none
   * below height 1; a non-2xx answer yields `None`; a thrown error is passed
   * on. Its `requests` are the ones it adds to `sent`.
   */
  function PreviousBlock(b: string, net: Network, parse: JsonParser, sent: seq<string>, current: BlockDetails)
    : (f: Fetched<Option<BlockDetails>>)
    ensures |f.requests| <= 2
    ensures current.height < 1 ==> f == Fetched(Success(None), [])
    ensures current.height >= 1 ==> f.requests != [] && f.requests[0] == HeightUrl(b, current.height - 1)
    ensures f.result.Success? && f.result.value.Some? ==> |f.requests| == 2
    ensures f.requests != [] && net(sent + f.requests).Threw? ==> f.result == Failure(net(sent + f.requests).error)
    ensures |f.requests| == 2 ==> net(sent + f.requests[..1]).Responded?
    ensures |f.requests| == 2 ==>
      GetText(net, sent + f.requests[..1]).Got? && f.requests[1] == BlockUrl(b, GetText(net, sent + f.requests[..1]).value)
    ensures f.result.Success? && f.result.value.Some? ==> GetBlock(net, sent + f.requests, parse) == Got(f.result.value.value)
    ensures f.requests != [] && GetText(net, sent + f.requests[..1]).Raised? ==>
      f == Fetched(Failure(GetText(net, sent + f.requests[..1]).error), f.requests[..1])
    ensures |f.requests| == 2 && GetBlock(net, sent + f.requests, parse).Raised? ==>
      f.result == Failure(GetBlock(net, sent + f.requests, parse).error)
  {
    var prevHeight := current.height - 1;
    if prevHeight < 0 then Fetched(Success(None), [])
    else
      var heightUrl := HeightUrl(b, prevHeight);
      assert [heightUrl][..1] == [heightUrl];
      match GetText(net, sent + [heightUrl])
      case Raised(e) => Fetched(Failure(e), [heightUrl])
      case BadStatus(_) => Fetched(Success(None), [heightUrl])
      case Got(prevHash) =>
        var blockUrl := BlockUrl(b, prevHash);
        assert sent + [heightUrl, blockUrl] == sent + [heightUrl] + [blockUrl];
        assert [heightUrl, blockUrl][..1] == [heightUrl];
        match GetBlock(net, sent + [heightUrl] + [blockUrl], parse)
        case Raised(e) => Fetched(Failure(e), [heightUrl, blockUrl])
        case BadStatus(_) => Fetched(Success(None), [heightUrl, blockUrl])
        case Got(p) => Fetched(Success(Some(p)), [heightUrl, blockUrl])
  }

  /** `fetchLatestBlockHeight`. */
  function FetchLatestBlockHeight(env: Option<string>, net: Network, parseNumber: NumberParser): (f: Fetched<int>)
    ensures f.requests == [TipHeightUrl(ApiBase(env))]
    ensures f.result.Failure? ==> f.result.error.name != "AbortError"
    ensures var g := GetText(net, [TipHeightUrl(ApiBase(env))]);
      g.Raised? ==> f.result == Failure(Caught(g.error))
  {
    var url := TipHeightUrl(ApiBase(env));
    var raw :=
      match GetText(net, [url])
      case Raised(e) => Failure(e)
      case BadStatus(r) => Failure(HttpFailure("latest block height", r))
      case Got(text) =>
        match parseNumber(text)
        case None => Failure(Error("Error", InvalidHeightMessage))
        case Some(n) => Success(n);
    CaughtResult(Fetched(raw, [url]))
  }

  /** `fetchLatestBlockDetails`. */
  function FetchLatestBlockDetails(env: Option<string>, net: Network, parse: JsonParser): (f: Fetched<BlockDetails>)
    ensures 1 <= |f.requests| <= 2 && f.requests[0] == TipHashUrl(ApiBase(env))
    ensures f.result.Failure? ==> f.result.error.name != "AbortError"
    ensures f.result.Success? ==> |f.requests| == 2 && GetBlock(net, f.requests, parse) == Got(f.result.value)
  {
    CaughtResult(LatestBlock(ApiBase(env), net, parse))
  }

  /** `fetchLatestAndPreviousBlockDetails`, the entry point the store uses. */
  function FetchLatestAndPreviousBlockDetails(env: Option<string>, net: Network, parse: JsonParser)
    : (f: Fetched<TwoBlocks>)
    ensures 1 <= |f.requests| <= 4 && f.requests[0] == TipHashUrl(ApiBase(env))
    ensures f.result.Failure? ==> f.result.error.name != "AbortError"
    ensures f.result.Success? && f.result.value.previous.Some? ==> |f.requests| == 4
    ensures f.result.Success? && f.result.value.current.height < 1 ==> f.result.value.previous.None? && |f.requests| == 2
  {
    var b := ApiBase(env);
    var tip := LatestBlock(b, net, parse);
    match tip.result
    case Failure(e) => Fetched(Failure(Caught(e)), tip.requests)
    case Success(current) =>
      var prev := PreviousBlock(b, net, parse, tip.requests, current);
      var requests := tip.requests + prev.requests;
      match prev.result
      case Failure(e) => Fetched(Failure(Caught(e)), requests)
      case Success(p) => Fetched(Success(TwoBlocks(current, p)), requests)
  }

  /** A non-empty configured base replaces the default; only a final `/` is dropped from it. */
  lemma ConfiguredBaseOverrides(env: string)
    requires env != ""
    ensures ApiBase(Some(env)) + "/" == env || ApiBase(Some(env)) == env
    ensures ApiBase(None) == DefaultBase && ApiBase(Some("")) == DefaultBase
  {
    assert DefaultBase[|DefaultBase| - 1] == 'i';
  }

  /** The message of a non-2xx failure carries the response status in decimal. */
  lemma StatusInMessage(what: string, r: Response)
    ensures var prefix := "Failed to fetch " + what + ": ";
      var m := HttpFailure(what, r).message;
      exists k :: |prefix| <= k <= |m| && ParseInt(m[|prefix|..k]) == Some(r.status)
  {
    var prefix := "Failed to fetch " + what + ": ";
    var m := HttpFailure(what, r).message;
    var k := |prefix| + |IntToString(r.status)|;
    assert m[|prefix|..k] == IntToString(r.status);
    ParseIntToString(r.status);
  }

  /** The height is `Number(trimmed body)` when that is finite, else an "Invalid block height response". */
  lemma HeightFromBody(env: Option<string>, net: Network, parseNumber: NumberParser, r: Response)
    requires net([TipHeightUrl(ApiBase(env))]) == Responded(r)
    ensures !IsOk(r.status) ==>
      FetchLatestBlockHeight(env, net, parseNumber).result == Failure(HttpFailure("latest block height", r))
    ensures IsOk(r.status) && r.body.Success? && parseNumber(Trim(r.body.value)).Some? ==>
      FetchLatestBlockHeight(env, net, parseNumber).result == Success(parseNumber(Trim(r.body.value)).value)
    ensures IsOk(r.status) && r.body.Success? && parseNumber(Trim(r.body.value)).None? ==>
      FetchLatestBlockHeight(env, net, parseNumber).result == Failure(Error("Error", InvalidHeightMessage))
  {
    var url := TipHeightUrl(ApiBase(env));
    if !IsOk(r.status) {
      assert GetText(net, [url]) == BadStatus(r);
    } else if r.body.Success? {
      assert GetText(net, [url]) == Got(Trim(r.body.value));
    }
  }

  /**
   * When the current block cannot be had, the combined call fails exactly as
   * `fetchLatestBlockDetails` does and issues no further request; when it
   * succeeds, its current block is the one `fetchLatestBlockDetails` returns.
   */
  lemma CurrentFailurePropagates(env: Option<string>, net: Network, parse: JsonParser)
    ensures var d := FetchLatestBlockDetails(env, net, parse);
      var f := FetchLatestAndPreviousBlockDetails(env, net, parse);
      && (d.result.Failure? ==> f.result == Failure(d.result.error) && f.requests == d.requests)
      && (f.result.Success? ==> d.result == Success(f.result.value.current) && f.requests[..|d.requests|] == d.requests)
  {
  }

  /** A non-2xx answer for the tip hash fails the call with that status and stops there. */
  lemma TipHashStatusFails(env: Option<string>, net: Network, parse: JsonParser, r: Response)
    requires net([TipHashUrl(ApiBase(env))]) == Responded(r) && !IsOk(r.status)
    ensures FetchLatestAndPreviousBlockDetails(env, net, parse)
      == Fetched(Failure(HttpFailure("latest block hash", r)), [TipHashUrl(ApiBase(env))])
  {
  }

  /** A non-2xx answer for the current block fails the call with that status and stops there. */
  lemma CurrentBlockStatusFails(env: Option<string>, net: Network, parse: JsonParser, hash: string, r: Response)
    requires var hashUrl := TipHashUrl(ApiBase(env));
      GetText(net, [hashUrl]) == Got(hash) && net([hashUrl, BlockUrl(ApiBase(env), hash)]) == Responded(r)
    requires !IsOk(r.status)
    ensures FetchLatestAndPreviousBlockDetails(env, net, parse)
      == Fetched(Failure(HttpFailure("block details", r)),
                 [TipHashUrl(ApiBase(env)), BlockUrl(ApiBase(env), hash)])
  {
  }

  /** Below height 1 there is no previous block and no lookup is requested. */
  lemma GenesisSkipsLookup(env: Option<string>, net: Network, parse: JsonParser)
    requires var d := FetchLatestBlockDetails(env, net, parse);
      d.result.Success? && d.result.value.height < 1
    ensures var d := FetchLatestBlockDetails(env, net, parse);
      FetchLatestAndPreviousBlockDetails(env, net, parse) == Fetched(Success(TwoBlocks(d.result.value, None)), d.requests)
  {
  }

  /** From height 1 on, the third request asks for exactly the height below the current block's. */
  lemma LookupAsksForPredecessor(env: Option<string>, net: Network, parse: JsonParser, sent: seq<string>, current: BlockDetails)
    requires FetchLatestBlockDetails(env, net, parse) == Fetched(Success(current), sent)
    requires current.height >= 1
    ensures var f := FetchLatestAndPreviousBlockDetails(env, net, parse);
      var prefix := ApiBase(env) + "/block-height/";
      && |f.requests| >= 3 && f.requests[..2] == sent
      && |f.requests[2]| >= |prefix| && f.requests[2][..|prefix|] == prefix
      && ParseNat(f.requests[2][|prefix|..]) == Some(current.height - 1)
  {
    var b := ApiBase(env);
    CombinedAfterCurrent(env, net, parse, sent, current);
    var prev := PreviousBlock(b, net, parse, sent, current);
    var url := HeightUrl(b, current.height - 1);
    FollowsCurrent(sent, prev.requests, url);
    HeightUrlNamesHeight(b, current.height - 1);
  }

  /** The current block's two requests followed by a lookup that starts with `url`. */
  lemma FollowsCurrent(sent: seq<string>, lookup: seq<string>, url: string)
    requires |sent| == 2 && lookup != [] && lookup[0] == url
    ensures |sent + lookup| >= 3 && (sent + lookup)[..2] == sent && (sent + lookup)[2] == url
  {
  }

  /** The height-lookup URL is the lookup path followed by the height's digits, which read back as the height. */
  lemma HeightUrlNamesHeight(b: string, h: nat)
    ensures var prefix := b + "/block-height/";
      var url := HeightUrl(b, h);
      |url| >= |prefix| && url[..|prefix|] == prefix && ParseNat(url[|prefix|..]) == Some(h)
  {
    var prefix := b + "/block-height/";
    var url := prefix + NatToString(h);
    assert url[..|prefix|] == prefix && url[|prefix|..] == NatToString(h);
    ParseNatToString(h);
  }

  /**
   * The previous-block lookup after the current block `current` was fetched
   * with the requests `sent`: its hash request, and the block request that
   * follows a usable hash.
   */
  ghost predicate LookupAnswers(env: Option<string>, net: Network, parse: JsonParser, sent: seq<string>,
                                current: BlockDetails, hash: Step<string>, block: Option<Step<BlockDetails>>)
    requires current.height >= 1
  {
    var b := ApiBase(env);
    var hashLog := sent + [HeightUrl(b, current.height - 1)];
    && hash == GetText(net, hashLog)
    && (hash.Got? ==> block == Some(GetBlock(net, hashLog + [BlockUrl(b, hash.value)], parse)))
  }

  /** A non-2xx answer anywhere in the previous-block lookup yields success with no previous block. */
  lemma LookupStatusDegrades(env: Option<string>, net: Network, parse: JsonParser, sent: seq<string>,
                             current: BlockDetails, hash: Step<string>, block: Option<Step<BlockDetails>>)
    requires FetchLatestBlockDetails(env, net, parse) == Fetched(Success(current), sent)
    requires current.height >= 1 && LookupAnswers(env, net, parse, sent, current, hash, block)
    requires hash.BadStatus? || (hash.Got? && block.value.BadStatus?)
    ensures FetchLatestAndPreviousBlockDetails(env, net, parse).result == Success(TwoBlocks(current, None))
  {
    var b := ApiBase(env);
    assert LatestBlock(b, net, parse) == Fetched(Success(current), sent);
    assert PreviousBlock(b, net, parse, sent, current).result == Success(None);
  }

  /** A throw anywhere in the previous-block lookup fails the whole call (an abort renamed). */
  lemma LookupThrowFailsCall(env: Option<string>, net: Network, parse: JsonParser, sent: seq<string>,
                             current: BlockDetails, hash: Step<string>, block: Option<Step<BlockDetails>>, e: Error)
    requires FetchLatestBlockDetails(env, net, parse) == Fetched(Success(current), sent)
    requires current.height >= 1 && LookupAnswers(env, net, parse, sent, current, hash, block)
    requires hash == Raised(e) || (hash.Got? && block == Some(Raised(e)))
    ensures var f := FetchLatestAndPreviousBlockDetails(env, net, parse);
      var heightUrl := HeightUrl(ApiBase(env), current.height - 1);
      && f.result == Failure(Caught(e))
      && (hash.Raised? ==> f.requests == sent + [heightUrl])
      && (hash.Got? ==> f.requests == sent + [heightUrl, BlockUrl(ApiBase(env), hash.value)])
  {
    var b := ApiBase(env);
    CombinedAfterCurrent(env, net, parse, sent, current);
    LookupThrowStops(b, net, parse, sent, current, hash, block, e);
  }

  /** The lookup on its own: a throw at either of its requests is its failure, and it stops there. */
  lemma LookupThrowStops(b: string, net: Network, parse: JsonParser, sent: seq<string>,
                         current: BlockDetails, hash: Step<string>, block: Option<Step<BlockDetails>>, e: Error)
    requires current.height >= 1
    requires hash == GetText(net, sent + [HeightUrl(b, current.height - 1)])
    requires hash.Got? ==>
      block == Some(GetBlock(net, sent + [HeightUrl(b, current.height - 1)] + [BlockUrl(b, hash.value)], parse))
    requires hash == Raised(e) || (hash.Got? && block == Some(Raised(e)))
    ensures PreviousBlock(b, net, parse, sent, current)
      == Fetched(Failure(e), if hash.Raised? then [HeightUrl(b, current.height - 1)]
                             else [HeightUrl(b, current.height - 1), BlockUrl(b, hash.value)])
  {
  }

  /** After the current block was fetched with `sent`, the combined call is that block followed by the lookup. */
  lemma CombinedAfterCurrent(env: Option<string>, net: Network, parse: JsonParser, sent: seq<string>, current: BlockDetails)
    requires FetchLatestBlockDetails(env, net, parse) == Fetched(Success(current), sent)
    ensures var prev := PreviousBlock(ApiBase(env), net, parse, sent, current);
      var f := FetchLatestAndPreviousBlockDetails(env, net, parse);
      && f.requests == sent + prev.requests
      && (prev.result.Failure? ==> f.result == Failure(Caught(prev.result.error)))
      && (prev.result.Success? ==> f.result == Success(TwoBlocks(current, prev.result.value)))
  {
    assert LatestBlock(ApiBase(env), net, parse) == Fetched(Success(current), sent);
  }

  /** Both lookup requests answered with a usable block: that block is the previous one. */
  lemma LookupFindsPrevious(env: Option<string>, net: Network, parse: JsonParser, sent: seq<string>,
                            current: BlockDetails, hash: Step<string>, previous: BlockDetails)
    requires FetchLatestBlockDetails(env, net, parse) == Fetched(Success(current), sent)
    requires current.height >= 1 && LookupAnswers(env, net, parse, sent, current, hash, Some(Got(previous)))
    requires hash.Got?
    ensures FetchLatestAndPreviousBlockDetails(env, net, parse).result == Success(TwoBlocks(current, Some(previous)))
  {
    var b := ApiBase(env);
    assert LatestBlock(b, net, parse) == Fetched(Success(current), sent);
    assert PreviousBlock(b, net, parse, sent, current).result == Success(Some(previous));
  }

  /**
   * Whatever request a throw hits (the deadline firing or the connection
   * failing), the call ends there and fails with that error, renamed if an
   * abort: every request before the last one was answered with a response.
   */
  lemma ThrowEndsCall(env: Option<string>, net: Network, parse: JsonParser)
    ensures var f := FetchLatestAndPreviousBlockDetails(env, net, parse);
      && (forall i | 0 < i < |f.requests| :: net(f.requests[..i]).Responded?)
      && (net(f.requests).Threw? ==> f.result == Failure(Caught(net(f.requests).error)))
  {
    EarlierRequestsAnswered(env, net, parse);
    LastThrowFails(env, net, parse);
  }

  /** The first half of `ThrowEndsCall`: no request follows one that threw. */
  lemma EarlierRequestsAnswered(env: Option<string>, net: Network, parse: JsonParser)
    ensures var f := FetchLatestAndPreviousBlockDetails(env, net, parse);
      forall i | 0 < i < |f.requests| :: net(f.requests[..i]).Responded?
  {
    var b := ApiBase(env);
    var tip := LatestBlock(b, net, parse);
    if tip.result.Failure? {
      AnsweredBeforeLast(net, tip.requests, []);
      assert tip.requests + [] == tip.requests;
    } else {
      var prev := PreviousBlock(b, net, parse, tip.requests, tip.result.value);
      AnsweredBeforeLast(net, tip.requests, prev.requests);
    }
  }

  /** The second half of `ThrowEndsCall`: a throw at the last request is the call's failure. */
  lemma LastThrowFails(env: Option<string>, net: Network, parse: JsonParser)
    ensures var f := FetchLatestAndPreviousBlockDetails(env, net, parse);
      net(f.requests).Threw? ==> f.result == Failure(Caught(net(f.requests).error))
  {
    var b := ApiBase(env);
    var tip := LatestBlock(b, net, parse);
    if tip.result.Success? {
      var prev := PreviousBlock(b, net, parse, tip.requests, tip.result.value);
      if prev.requests == [] {
        // nothing was requested after the current block, and that request was answered
        assert tip.requests + prev.requests == tip.requests;
      }
    }
  }

  /** The current block's requests followed by the lookup's: every one but the last was answered. */
  lemma AnsweredBeforeLast(net: Network, tip: seq<string>, prev: seq<string>)
    requires 1 <= |tip| <= 2 && |prev| <= 2
    requires |tip| == 2 ==> net(tip[..1]).Responded?
    requires prev != [] ==> |tip| == 2 && net(tip).Responded?
    requires |prev| == 2 ==> net(tip + prev[..1]).Responded?
    ensures forall i | 0 < i < |tip + prev| :: net((tip + prev)[..i]).Responded?
  {
    forall i | 0 < i < |tip + prev|
      ensures net((tip + prev)[..i]).Responded?
    {
      if i == 1 {
        assert (tip + prev)[..i] == tip[..1];
      } else if i == 2 {
        assert (tip + prev)[..i] == tip;
      } else {
        assert (tip + prev)[..i] == tip + prev[..1];
      }
    }
  }

  /**
   * The fetched block is the mapping of the payload answered for the block
   * whose hash is the trimmed tip-hash body.
   */
  lemma BlockFromPayload(env: Option<string>, net: Network, parse: JsonParser,
                         hashRes: Response, blockRes: Response, data: BlockJson)
    requires net([TipHashUrl(ApiBase(env))]) == Responded(hashRes) && IsOk(hashRes.status) && hashRes.body.Success?
    requires net([TipHashUrl(ApiBase(env)), BlockUrl(ApiBase(env), Trim(hashRes.body.value))]) == Responded(blockRes)
    requires IsOk(blockRes.status) && blockRes.body.Success? && parse(blockRes.body.value) == Success(data)
    ensures FetchLatestBlockDetails(env, net, parse)
      == Fetched(Success(ToDetails(data)), [TipHashUrl(ApiBase(env)), BlockUrl(ApiBase(env), Trim(hashRes.body.value))])
    ensures var f := FetchLatestAndPreviousBlockDetails(env, net, parse);
      f.result.Success? ==> f.result.value.current == ToDetails(data)
  {
  }
}
