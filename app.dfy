/**
 * The values the page derives from the store (src/App.tsx): the time and
 * transaction deltas between the two blocks, the sign rule of the tx delta,
 * the height line, the page's own initial theme and what is rendered.
 */
module AppView {
  import opened Wrappers
  import opened Text
  import opened BlockchainApi
  import opened Theme
  import opened SyncStore

  /** `|block.timestamp - previousBlock.timestamp|` when both blocks are present. */
  function TimeDelta(block: Option<BlockDetails>, previous: Option<BlockDetails>): (d: Option<int>)
    ensures d.Some? <==> block.Some? && previous.Some?
    ensures d.Some? ==> d.value >= 0
    ensures d.Some? ==>
      d.value == block.value.timestamp - previous.value.timestamp || d.value == previous.value.timestamp - block.value.timestamp
  {
    if block.Some? && previous.Some? then
      var diff := block.value.timestamp - previous.value.timestamp;
      Some(if diff < 0 then -diff else diff)
    else
      None
  }

  /** The time delta does not depend on which block is the current one. */
  lemma TimeDeltaSymmetric(block: Option<BlockDetails>, previous: Option<BlockDetails>)
    ensures TimeDelta(block, previous) == TimeDelta(previous, block)
  {
  }

  /** `block.tx_count - previousBlock.tx_count` when both blocks carry a count. */
  function TxDelta(block: Option<BlockDetails>, previous: Option<BlockDetails>): (d: Option<int>)
    ensures d.Some? <==> block.Some? && previous.Some? && block.value.txCount.Some? && previous.value.txCount.Some?
    ensures d.Some? ==> previous.value.txCount.value + d.value == block.value.txCount.value
  {
    if block.Some? && previous.Some? && block.value.txCount.Some? && previous.value.txCount.Some? then
      Some(block.value.txCount.value - previous.value.txCount.value)
    else
      None
  }

  /** The "Δ tx" text: a `+` before a delta that is zero or more, the plain number otherwise. */
  function TxDeltaText(d: int): (s: string)
    ensures s != [] && (s[0] == '+' <==> d >= 0)
    ensures d < 0 ==> s[0] == '-'
  {
    if d >= 0 then "+" + IntToString(d) else IntToString(d)
  }

  /** Reads a delta back: an optional `+`, then an integer. */
  function ReadDelta(s: string): Option<int> {
    if s != [] && s[0] == '+' then ParseInt(s[1..]) else ParseInt(s)
  }

  /** The tx-delta text loses nothing: it reads back as the delta. */
  lemma TxDeltaTextReadsBack(d: int)
    ensures ReadDelta(TxDeltaText(d)) == Some(d)
  {
    ParseIntToString(d);
    if d >= 0 {
      assert TxDeltaText(d)[1..] == IntToString(d);
    }
  }

  /** The height line: "Loading..." while loading, else the block's height, else "Unknown". */
  function HeightText(loading: bool, block: Option<BlockDetails>): (s: string)
    ensures loading ==> s == "Loading..."
    ensures !loading && block.Some? ==> ParseInt(s) == Some(block.value.height)
    ensures !loading && block.None? ==> s == "Unknown"
  {
    if loading then "Loading..."
    else if block.Some? then
      ParseIntToString(block.value.height);
      IntToString(block.value.height)
    else "Unknown"
  }

  /** The "Tx count" text: `tx_count ?? 'N/A'`. */
  function TxCountText(b: BlockDetails): (s: string)
    ensures b.txCount.Some? ==> ParseInt(s) == b.txCount
    ensures b.txCount.None? ==> s == "N/A"
  {
    match b.txCount
    case Some(n) =>
      ParseIntToString(n);
      IntToString(n)
    case None => "N/A"
  }

  /** The page's own initial theme: dark only for a stored "dark"; no OS fallback. */
  function PageInitialTheme(stored: Probe<Option<string>>): (t: Theme)
    ensures t == Dark <==> stored == Yields(Some("dark"))
  {
    if stored == Yields(Some("dark")) then Dark else Light
  }

  /**
   * The page's initial theme and the provider's agree except when nothing
   * valid is stored and the OS prefers dark.
   */
  lemma InitialThemesAgree(stored: Probe<Option<string>>, prefersDark: Probe<bool>)
    ensures PageInitialTheme(stored) == InitialTheme(stored, prefersDark)
      <==> StoredTheme(stored).Some? || prefersDark != Yields(true)
  {
    if StoredTheme(stored).Some? {
      assert stored.Yields? && stored.value.Some?;
      assert stored.value.value == "dark" || stored.value.value == "light";
    }
  }

  /** The current block's list. */
  datatype CurrentPanel = CurrentPanel(id: string, txCount: string, timeDelta: Option<int>, txDelta: Option<string>)

  /** The previous block's list. */
  datatype PreviousPanel = PreviousPanel(id: string, txCount: string)

  /** The page below its title: the alert alone, or the height line, the panels and the refresh button. */
  datatype View =
    | Alert(message: string)
    | Dashboard(heightText: string, current: Option<CurrentPanel>, previous: Option<PreviousPanel>)

  /** What the page shows for a store state. */
  function Render(s: SyncState): (v: View)
    ensures v.Alert? <==> s.error.Some? && s.error.value != ""
    ensures v.Alert? ==> v.message == s.error.value
    ensures v.Dashboard? ==> v.heightText == HeightText(s.loading, s.block)
    ensures v.Dashboard? ==> (v.current.Some? <==> s.block.Some?) && (v.previous.Some? <==> s.previousBlock.Some?)
    ensures v.Dashboard? && v.current.Some? ==>
      var c := v.current.value;
      && c.id == s.block.value.id && c.txCount == TxCountText(s.block.value)
      && c.timeDelta == TimeDelta(s.block, s.previousBlock)
      && (c.txDelta.Some? <==> TxDelta(s.block, s.previousBlock).Some?)
      && (c.txDelta.Some? ==> ReadDelta(c.txDelta.value) == TxDelta(s.block, s.previousBlock))
    ensures v.Dashboard? && v.previous.Some? ==>
      v.previous.value.id == s.previousBlock.value.id && v.previous.value.txCount == TxCountText(s.previousBlock.value)
  {
    if s.error.Some? && s.error.value != "" then Alert(s.error.value)
    else
      var current :=
        match s.block
        case Some(b) =>
          var dt := TimeDelta(s.block, s.previousBlock);
          var dx := TxDelta(s.block, s.previousBlock);
          var dxText := if dx.Some? then TxDeltaTextReadsBack(dx.value); Some(TxDeltaText(dx.value)) else None;
          Some(CurrentPanel(b.id, TxCountText(b), dt, dxText))
        case None => None;
      var previous :=
        match s.previousBlock
        case Some(p) => Some(PreviousPanel(p.id, TxCountText(p)))
        case None => None;
      Dashboard(HeightText(s.loading, s.block), current, previous)
  }

  /**
   * After a successful refresh the page shows the fetched block and its
   * height; after a failed one with a message, only the alert.
   */
  lemma RenderAfterRefresh(s: SyncState, outcome: Result<TwoBlocks, Error>)
    ensures var v := Render(Refreshed(s, outcome));
      && (outcome.Success? ==>
            v.Dashboard? && v.current.Some? && v.current.value.id == outcome.value.current.id
            && ParseInt(v.heightText) == Some(outcome.value.current.height))
      && (outcome.Failure? && ErrorText(outcome.error) != "" ==> v == Alert(ErrorText(outcome.error)))
  {
  }
}
