/** The message formatters of app.py. Each message is a list of lines joined
    with newlines: a fixed top part, one block of lines per rendered pick
    (at most three or four of them) and a fixed bottom part. The pure pieces
    (`_emoji`, `_header`, `_divider`, `_stock_lines`, `_footer`) are functions;
    the `format_*_message` operations build their list of lines step by step
    and are methods proved equal to a layout function. */
module Formatting {
  import opened Wrappers
  import opened Text
  import opened Reports

  const DefaultDisclaimer: string := "For educational purposes only. DYOR."
  const Rule: string := "━━━━━━━━━━━━━━━━━━━━━━"
  const HoldLabel: string := "   ⏱  Hold   : "

  // ---------------------------------------------------------------------------
  // Pure pieces
  // ---------------------------------------------------------------------------

  /** `_emoji`: keyword search on the lower-cased sentiment, in priority order. */
  function Emoji(sentiment: string): (r: string)
    ensures var s := Lower(sentiment);
      && (Contains(s, "bullish") ==> r == "🟢")
      && ((!Contains(s, "bullish") && Contains(s, "bearish")) ==> r == "🔴")
      && ((!Contains(s, "bullish") && !Contains(s, "bearish") && Contains(s, "neutral")) ==> r == "🟡")
      && ((!Contains(s, "bullish") && !Contains(s, "bearish") && !Contains(s, "neutral")) ==> r == "⚪")
  {
    var s := Lower(sentiment);
    if Contains(s, "bullish") then "🟢"
    else if Contains(s, "bearish") then "🔴"
    else if Contains(s, "neutral") then "🟡"
    else "⚪"
  }

  /** The sentiment indicator does not depend on letter case. */
  lemma EmojiIgnoresCase(sentiment: string)
    ensures Emoji(Lower(sentiment)) == Emoji(sentiment)
  {
    LowerIdempotent(sentiment);
  }

  /** The indicator is always one of the four. */
  lemma EmojiRange(sentiment: string)
    ensures Emoji(sentiment) in {"🟢", "🔴", "🟡", "⚪"}
  {
  }

  /** The sentiment line shared by all headers, after its slotLabel. */
  function SentimentText(report: Report): string {
    report.sentiment.GetOr("N/A") + " " + Emoji(report.sentiment.GetOr(""))
  }

  /** `_header`: title, time stamp, sentiment and index level. */
  function Header(title: string, report: Report, stamp: string): (r: seq<string>)
    ensures |r| == 4
  {
    [ "*" + title + "*",
      "📅  " + stamp,
      "📊  Sentiment : " + SentimentText(report),
      "📉  Nifty     : " + report.niftyLevel.GetOr("N/A") ]
  }

  /** `_divider`. */
  function Divider(title: string): (r: seq<string>)
    ensures |r| == 4
  {
    ["", Rule, "🎯  *" + title + "*", Rule]
  }

  /** The header lines: the title in bold, the time stamp, the sentiment ("N/A" when it is
      missing) followed by its indicator, and the index level ("N/A" when it is missing). */
  lemma HeaderLines(title: string, report: Report, stamp: string)
    ensures var r := Header(title, report, stamp);
      && r[0] == "*" + title + "*"
      && r[1] == "📅  " + stamp
      && (report.sentiment.None? ==> r[2] == "📊  Sentiment : N/A " + Emoji(""))
      && (report.sentiment.Some? ==>
            r[2] == "📊  Sentiment : " + report.sentiment.value + " " + Emoji(report.sentiment.value))
      && (report.niftyLevel.None? ==> r[3] == "📉  Nifty     : N/A")
      && (report.niftyLevel.Some? ==> r[3] == "📉  Nifty     : " + report.niftyLevel.value)
  {
  }

  /** The divider: a blank line, then the title in bold between two rules. */
  lemma DividerLines(title: string)
    ensures var r := Divider(title);
      r[0] == "" && r[1] == Rule && r[2] == "🎯  *" + title + "*" && r[3] == Rule
  {
  }

  /** The numbered first line of every pick block. */
  function Heading(i: int, s: Pick): string {
    "\n*" + IntToString(i) + ". " + s.symbol.GetOr("?") + "*  [" + s.exchange.GetOr("NSE") + "]"
  }

  /** `_stock_lines`: seven lines, and the holding period as an eighth when `showHold`. */
  function StockLines(i: int, s: Pick, showHold: bool): (r: seq<string>)
    ensures |r| == if showHold then 8 else 7
    ensures r[0] == Heading(i, s)
  {
    [ Heading(i, s),
      "   🏷️  " + s.sector.GetOr(""),
      "   💡  " + s.reason.GetOr(""),
      "   📈  Entry  : ₹" + s.entryLow.GetOr("?") + " – ₹" + s.entryHigh.GetOr("?"),
      "   🎯  Target : ₹" + s.target.GetOr("?") + "  (+" + s.upside.GetOr("?") + "%)",
      "   🛑  SL     : ₹" + s.stopLoss.GetOr("?"),
      "   ⚖️   R:R    : " + s.riskReward.GetOr("1:2") ]
    + (if showHold then [HoldLabel + s.holdingPeriod.GetOr("Intraday")] else [])
  }

  /** The pick block of `format_night_message`. */
  function TomorrowLines(i: int, s: Pick): (r: seq<string>)
    ensures |r| == 7
  {
    [ Heading(i, s),
      "   🏷️  " + s.sector.GetOr(""),
      "   💡  " + s.reason.GetOr(""),
      "   📈  Entry Tmr  : ₹" + s.entryLow.GetOr("?") + " – ₹" + s.entryHigh.GetOr("?"),
      "   🎯  Target     : ₹" + s.target.GetOr("?") + "  (+" + s.upside.GetOr("?") + "%)",
      "   🛑  SL         : ₹" + s.stopLoss.GetOr("?"),
      "   ⏱  Horizon    : " + s.holdingPeriod.GetOr("2-3 days") ]
  }

  /** The pick block of `format_weekend_message`. */
  function NextWeekLines(i: int, s: Pick): (r: seq<string>)
    ensures |r| == 7
  {
    [ Heading(i, s),
      "   🏷️  " + s.sector.GetOr(""),
      "   💡  " + s.reason.GetOr(""),
      "   📈  Entry  : ₹" + s.entryLow.GetOr("?") + " – ₹" + s.entryHigh.GetOr("?"),
      "   🎯  Target : ₹" + s.target.GetOr("?") + "  (+" + s.upside.GetOr("?") + "%)",
      "   🛑  SL     : ₹" + s.stopLoss.GetOr("?"),
      HoldLabel + s.holdingPeriod.GetOr("1 week") ]
  }

  /** The last line of every message. */
  function DisclaimerLine(report: Report): string {
    "⚠️  " + report.disclaimer.GetOr(DefaultDisclaimer)
  }

  /** `_footer`: optional watch and avoid lines, the extras, a blank line and the disclaimer. */
  function Footer(report: Report, extras: seq<string>): (r: seq<string>)
    ensures |r| >= 2 && r[|r| - 1] == DisclaimerLine(report)
  {
    (if NonEmptyList(report.sectorsToWatch)
     then ["\n👀  *Watch* : " + Join(report.sectorsToWatch.value, ", ")] else [])
    + (if NonEmptyList(report.avoidSectors)
       then ["🚫  *Avoid* : " + Join(report.avoidSectors.value, ", ")] else [])
    + extras
    + ["", DisclaimerLine(report)]
  }

  // ---------------------------------------------------------------------------
  // Pick blocks
  // ---------------------------------------------------------------------------

  /** Which of the three block shapes a formatter renders. */
  datatype BlockStyle = TodayBlock(showHold: bool) | TomorrowBlock | NextWeekBlock

  function BlockSize(style: BlockStyle): nat {
    if style == TodayBlock(true) then 8 else 7
  }

  function Block(style: BlockStyle, i: int, s: Pick): (r: seq<string>)
    ensures |r| == BlockSize(style)
    ensures r[0] == Heading(i, s)
  {
    match style
    case TodayBlock(showHold) => StockLines(i, s, showHold)
    case TomorrowBlock => TomorrowLines(i, s)
    case NextWeekBlock => NextWeekLines(i, s)
  }

  /** The lines of a list of blocks, one block after the other. */
  function Concat(blocks: seq<seq<string>>): seq<string> {
    if blocks == [] then [] else blocks[0] + Concat(blocks[1..])
  }

  lemma {:induction false} ConcatSnoc(blocks: seq<seq<string>>, b: seq<string>)
    ensures Concat(blocks + [b]) == Concat(blocks) + b
  {
    if blocks != [] {
      assert (blocks + [b])[1..] == blocks[1..] + [b];
      ConcatSnoc(blocks[1..], b);
    }
  }

  lemma MulStep(n: nat, size: nat)
    requires n > 0
    ensures n * size == (n - 1) * size + size
  {
  }

  lemma MulMonotone(a: nat, b: nat, size: nat)
    requires a <= b
    ensures a * size <= b * size
  {
  }

  predicate Uniform(blocks: seq<seq<string>>, size: nat) {
    forall j :: 0 <= j < |blocks| ==> |blocks[j]| == size
  }

  lemma {:induction false} ConcatLength(blocks: seq<seq<string>>, size: nat)
    requires Uniform(blocks, size)
    ensures |Concat(blocks)| == |blocks| * size
    decreases |blocks|
  {
    if blocks != [] {
      ConcatLength(blocks[1..], size);
      MulStep(|blocks|, size);
    }
  }

  /** When every block has `size` lines, block `k` sits at lines `k*size .. (k+1)*size`. */
  lemma {:induction false} ConcatAt(blocks: seq<seq<string>>, size: nat, k: nat)
    requires Uniform(blocks, size)
    requires k < |blocks|
    ensures (k + 1) * size <= |Concat(blocks)|
    ensures Concat(blocks)[k * size..(k + 1) * size] == blocks[k]
    decreases k
  {
    ConcatLength(blocks, size);
    MulMonotone(k + 1, |blocks|, size);
    var rest := Concat(blocks[1..]);
    assert Concat(blocks) == blocks[0] + rest;
    if k == 0 {
      assert (blocks[0] + rest)[0..size] == blocks[0];
    } else {
      ConcatAt(blocks[1..], size, k - 1);
      MulStep(k, size);
      MulStep(k + 1, size);
      assert (blocks[0] + rest)[size + (k - 1) * size..size + k * size] == rest[(k - 1) * size..k * size];
    }
  }

  /** The blocks of `enumerate(picks, first)`. */
  function Blocks(style: BlockStyle, picks: seq<Pick>, first: int): (r: seq<seq<string>>)
    ensures |r| == |picks|
    ensures forall k :: 0 <= k < |picks| ==> r[k] == Block(style, first + k, picks[k])
  {
    if picks == [] then [] else [Block(style, first, picks[0])] + Blocks(style, picks[1..], first + 1)
  }

  /** The lines of the picks in the order of the enumeration. */
  function PickBlocks(style: BlockStyle, picks: seq<Pick>, first: int): seq<string> {
    Concat(Blocks(style, picks, first))
  }

  /** Block `k` sits at lines `k*B .. (k+1)*B` and is pick `k` numbered `first + k`. */
  lemma PickBlocksAt(style: BlockStyle, picks: seq<Pick>, first: int, k: nat)
    requires k < |picks|
    ensures |PickBlocks(style, picks, first)| == |picks| * BlockSize(style)
    ensures PickBlocks(style, picks, first)[k * BlockSize(style)..(k + 1) * BlockSize(style)]
            == Block(style, first + k, picks[k])
  {
    ConcatLength(Blocks(style, picks, first), BlockSize(style));
    ConcatAt(Blocks(style, picks, first), BlockSize(style), k);
  }

  lemma PickBlocksLength(style: BlockStyle, picks: seq<Pick>, first: int)
    ensures |PickBlocks(style, picks, first)| == |picks| * BlockSize(style)
  {
    ConcatLength(Blocks(style, picks, first), BlockSize(style));
  }

  // ---------------------------------------------------------------------------
  // Layouts: top part, pick blocks, bottom part
  // ---------------------------------------------------------------------------

  datatype Layout = Layout(top: seq<string>, style: BlockStyle, limit: nat, bottom: seq<string>)

  /** The lines of a message: the top, the first `limit` picks numbered from 1, the bottom. */
  function Render(l: Layout, stocks: seq<Pick>): seq<string> {
    l.top + PickBlocks(l.style, Take(stocks, l.limit), 1) + l.bottom
  }

  /** How the lines of a rendered message are laid out: the top comes first, then
      `min(limit, |stocks|)` blocks, block `k` rendering pick `k` under number `k + 1`,
      then the bottom. */
  lemma RenderShape(l: Layout, stocks: seq<Pick>)
    ensures var r := Render(l, stocks);
      && |r| == |l.top| + Min(l.limit, |stocks|) * BlockSize(l.style) + |l.bottom|
      && r[..|l.top|] == l.top
      && r[|r| - |l.bottom|..] == l.bottom
  {
    var r := Render(l, stocks);
    var blocks := PickBlocks(l.style, Take(stocks, l.limit), 1);
    PickBlocksLength(l.style, Take(stocks, l.limit), 1);
    assert r == l.top + blocks + l.bottom;
    assert r[..|l.top|] == l.top;
    assert r[|r| - |l.bottom|..] == l.bottom;
  }

  /** The line at which block `k` of a layout starts. */
  function BlockStart(l: Layout, k: nat): nat {
    |l.top| + k * BlockSize(l.style)
  }

  lemma RenderBlock(l: Layout, stocks: seq<Pick>, k: nat)
    requires k < Min(l.limit, |stocks|)
    ensures var r := Render(l, stocks);
      var b := BlockSize(l.style);
      && BlockStart(l, k) + b <= |r|
      && r[BlockStart(l, k)..BlockStart(l, k) + b] == Block(l.style, k + 1, stocks[k])
  {
    var picks := Take(stocks, l.limit);
    var b := BlockSize(l.style);
    var blocks := PickBlocks(l.style, picks, 1);
    PickBlocksAt(l.style, picks, 1, k);
    MulStep(k + 1, b);
    var r := Render(l, stocks);
    assert r == l.top + blocks + l.bottom;
    assert r[BlockStart(l, k)..BlockStart(l, k) + b] == blocks[k * b..(k + 1) * b];
  }

  /** A block carries a line headed "Hold" exactly when it is asked to show one. */
  predicate HasHoldLine(lines: seq<string>) {
    exists j :: 0 <= j < |lines| && HoldLabel <= lines[j]
  }

  lemma HoldLineIffShown(i: int, s: Pick, showHold: bool)
    ensures HasHoldLine(StockLines(i, s, showHold)) <==> showHold
  {
    var r := StockLines(i, s, showHold);
    if showHold {
      assert HoldLabel <= r[7];
    } else {
      forall j | 0 <= j < |r| ensures !(HoldLabel <= r[j]) {
        if j == 0 {
          assert r[j][0] == '\n';
        } else {
          assert r[j][3] != HoldLabel[3];
        }
      }
    }
  }

  /** A next-day block starts with the numbered heading and ends with the horizon
      ("2-3 days" when missing); it has no Hold line. */
  lemma TomorrowLinesShape(i: int, s: Pick)
    ensures var r := TomorrowLines(i, s);
      && r[0] == Heading(i, s)
      && (s.holdingPeriod.None? ==> r[6] == "   ⏱  Horizon    : 2-3 days")
      && (s.holdingPeriod.Some? ==> r[6] == "   ⏱  Horizon    : " + s.holdingPeriod.value)
      && !HasHoldLine(r)
  {
    var r := TomorrowLines(i, s);
    forall j | 0 <= j < |r| ensures !(HoldLabel <= r[j]) {
      if j == 0 {
        assert r[j][0] == '\n';
      } else if j < 6 {
        assert r[j][3] != HoldLabel[3];
      } else {
        assert r[j][8] != HoldLabel[8];
      }
    }
  }

  /** A next-week block starts with the numbered heading and ends with the Hold line
      ("1 week" when missing). */
  lemma NextWeekLinesShape(i: int, s: Pick)
    ensures var r := NextWeekLines(i, s);
      && r[0] == Heading(i, s)
      && (s.holdingPeriod.None? ==> r[6] == HoldLabel + "1 week")
      && (s.holdingPeriod.Some? ==> r[6] == HoldLabel + s.holdingPeriod.value)
      && HasHoldLine(r)
  {
    var r := NextWeekLines(i, s);
    assert HoldLabel <= r[6];
  }

  // ---------------------------------------------------------------------------
  // The five message kinds
  // ---------------------------------------------------------------------------

  /** The `mode` argument of `format_scheduled_message`. */
  datatype Mode = Open | Intraday | Closing

  function ThemeLine(theme: string): string { "📰  " + theme }
  function SummaryLine(summary: string): string { "📋  " + summary }

  function DividerTitle(mode: Mode): string {
    match mode
    case Open => "TOP PICKS – TODAY"
    case Closing => "SWING TRADE PICKS"
    case Intraday => "LIVE INTRADAY PICKS"
  }

  /** The header, the optional theme, the divider, and in closing mode the optional
      day summary inserted at index 4 (`lines.insert(4, …)`). */
  function ScheduledTop(report: Report, slotLabel: string, mode: Mode, stamp: string): seq<string> {
    var head := Header(slotLabel, report, stamp)
                + (if Truthy(report.theme) then [ThemeLine(report.theme.value)] else [])
                + Divider(DividerTitle(mode));
    if mode == Closing && Truthy(report.daySummary)
    then head[..4] + [SummaryLine(report.daySummary.value)] + head[4..]
    else head
  }

  function ScheduledExtras(report: Report, mode: Mode): seq<string> {
    (if mode == Closing && Truthy(report.nextDayOutlook)
     then ["\n🔭  *Tomorrow* : " + report.nextDayOutlook.value] else [])
    + (if Truthy(report.globalCues) then ["🌐  *Global*   : " + report.globalCues.value] else [])
  }

  function ScheduledLayout(report: Report, slotLabel: string, mode: Mode, stamp: string): Layout {
    Layout(ScheduledTop(report, slotLabel, mode, stamp), TodayBlock(mode != Intraday), 3,
           Footer(report, ScheduledExtras(report, mode)))
  }

  function AdhocLayout(report: Report, stamp: string): Layout {
    Layout(Header("📲  INSTANT PICKS", report, stamp) + Divider("BEST PICKS RIGHT NOW"),
           TodayBlock(true), 3, Footer(report, []))
  }

  function PreOpenExtras(report: Report): seq<string> {
    if Truthy(report.keyEvents) then ["\n📋  Key Events : " + report.keyEvents.value] else []
  }

  function PreOpenLayout(report: Report, stamp: string): Layout {
    Layout(Header("🌄  PRE-MARKET WATCHLIST", report, stamp)
           + ["⏰  Gift Nifty : " + report.niftyOpenEstimate.GetOr("N/A")]
           + Divider("STOCKS TO WATCH TODAY"),
           TodayBlock(true), 3, Footer(report, PreOpenExtras(report)))
  }

  function NightLayout(report: Report, stamp: string): Layout {
    Layout([ "🌙  *TOMORROW'S WATCHLIST*",
             "📅  " + stamp,
             "📊  Tomorrow's Outlook : " + SentimentText(report),
             "📰  Theme : " + report.theme.GetOr("") ]
           + Divider("BUY TOMORROW – TOP PICKS"),
           TomorrowBlock, 4,
           [ "",
             "🌐  *Global Cues*    : " + report.globalCues.GetOr("N/A"),
             "📋  *Key Events*     : " + report.keyEvents.GetOr("N/A"),
             "📉  *Nifty Open Est* : " + report.niftyOpenEstimate.GetOr("N/A"),
             "",
             "⏰  _Set price alerts at entry levels. Check pre-market at 9 AM._",
             "",
             DisclaimerLine(report) ])
  }

  function WeekendLayout(report: Report, stamp: string): Layout {
    Layout([ "📅  *WEEKEND WATCHLIST*",
             "📅  " + stamp,
             "📊  Next Week Outlook : " + SentimentText(report) ]
           + Divider("PICKS FOR NEXT WEEK"),
           NextWeekBlock, 4,
           [ "",
             "📋  *Key Events Next Week* : " + report.keyEvents.GetOr("N/A"),
             "🌐  *Global Watch*         : " + report.globalCues.GetOr("N/A"),
             "",
             DisclaimerLine(report) ])
  }

  function ScheduledText(report: Report, slotLabel: string, mode: Mode, stamp: string): string {
    Join(Render(ScheduledLayout(report, slotLabel, mode, stamp), Stocks(report)), "\n")
  }

  function AdhocText(report: Report, stamp: string): string {
    Join(Render(AdhocLayout(report, stamp), Stocks(report)), "\n")
  }

  function PreOpenText(report: Report, stamp: string): string {
    Join(Render(PreOpenLayout(report, stamp), Stocks(report)), "\n")
  }

  function NightText(report: Report, stamp: string): string {
    Join(Render(NightLayout(report, stamp), Stocks(report)), "\n")
  }

  function WeekendText(report: Report, stamp: string): string {
    Join(Render(WeekendLayout(report, stamp), Stocks(report)), "\n")
  }

  // ---------------------------------------------------------------------------
  // Properties of the layouts
  // ---------------------------------------------------------------------------

  /** A scheduled message opens with the four header lines; in closing mode a present day
      summary is line 4, ahead of the theme, and otherwise a present theme is line 4;
      the Hold line is shown except in intraday mode;
      at most three picks are rendered; the last line is the disclaimer. */
  lemma ScheduledShape(report: Report, slotLabel: string, mode: Mode, stamp: string)
    ensures var l := ScheduledLayout(report, slotLabel, mode, stamp);
      var r := Render(l, Stocks(report));
      && r[..4] == Header(slotLabel, report, stamp)
      && (mode == Closing && Truthy(report.daySummary) ==> r[4] == SummaryLine(report.daySummary.value))
      && (mode == Closing && Truthy(report.daySummary) && Truthy(report.theme)
          ==> r[5] == ThemeLine(report.theme.value))
      && (!(mode == Closing && Truthy(report.daySummary)) && Truthy(report.theme)
          ==> r[4] == ThemeLine(report.theme.value))
      && l.limit == 3 && l.style == TodayBlock(mode != Intraday)
      && r[|r| - 1] == DisclaimerLine(report)
  {
    var l := ScheduledLayout(report, slotLabel, mode, stamp);
    RenderShape(l, Stocks(report));
    var r := Render(l, Stocks(report));
    var header := Header(slotLabel, report, stamp);
    var theme := if Truthy(report.theme) then [ThemeLine(report.theme.value)] else [];
    var head := header + theme + Divider(DividerTitle(mode));
    assert head[..4] == header;
    assert |l.top| >= 8;
    assert r[..|l.top|] == l.top;
    assert r[..4] == l.top[..4];
    assert r[4] == l.top[4] && r[5] == l.top[5];
    if mode == Closing && Truthy(report.daySummary) {
      var summary := SummaryLine(report.daySummary.value);
      assert l.top == head[..4] + [summary] + head[4..];
      assert l.top[..4] == header && l.top[4] == summary && l.top[5] == head[4];
    } else {
      assert l.top == head;
    }
  }

  /** Pick k of a scheduled message is rendered as block k, numbered k + 1, and that block
      carries the Hold line exactly when the mode is not intraday. */
  lemma ScheduledPickBlock(report: Report, slotLabel: string, mode: Mode, stamp: string, k: nat)
    requires k < Min(3, |Stocks(report)|)
    ensures var l := ScheduledLayout(report, slotLabel, mode, stamp);
      var r := Render(l, Stocks(report));
      var b := BlockSize(l.style);
      && BlockStart(l, k) + b <= |r|
      && r[BlockStart(l, k)..BlockStart(l, k) + b] == StockLines(k + 1, Stocks(report)[k], mode != Intraday)
      && (HasHoldLine(r[BlockStart(l, k)..BlockStart(l, k) + b]) <==> mode != Intraday)
  {
    var l := ScheduledLayout(report, slotLabel, mode, stamp);
    RenderBlock(l, Stocks(report), k);
    HoldLineIffShown(k + 1, Stocks(report)[k], mode != Intraday);
  }

  /** Ad-hoc message: title, at most three picks with the Hold line, disclaimer last. */
  lemma AdhocShape(report: Report, stamp: string)
    ensures var l := AdhocLayout(report, stamp); var r := Render(l, Stocks(report));
      && r[..4] == Header("📲  INSTANT PICKS", report, stamp)
      && l.limit == 3 && l.style == TodayBlock(true)
      && r[|r| - 1] == DisclaimerLine(report)
  {
    var l := AdhocLayout(report, stamp);
    RenderShape(l, Stocks(report));
    var r := Render(l, Stocks(report));
    assert r[..4] == r[..|l.top|][..4];
  }

  /** Pre-open message: header, then the Gift Nifty line, at most three picks with the
      Hold line, disclaimer last. */
  lemma PreOpenShape(report: Report, stamp: string)
    ensures var l := PreOpenLayout(report, stamp); var r := Render(l, Stocks(report));
      && r[..4] == Header("🌄  PRE-MARKET WATCHLIST", report, stamp)
      && r[4] == "⏰  Gift Nifty : " + report.niftyOpenEstimate.GetOr("N/A")
      && l.limit == 3 && l.style == TodayBlock(true)
      && r[|r| - 1] == DisclaimerLine(report)
  {
    var l := PreOpenLayout(report, stamp);
    RenderShape(l, Stocks(report));
    var r := Render(l, Stocks(report));
    assert r[..5] == r[..|l.top|][..5];
  }

  /** Night message: its own title, at most four picks in the next-day block, disclaimer last. */
  lemma NightShape(report: Report, stamp: string)
    ensures var l := NightLayout(report, stamp); var r := Render(l, Stocks(report));
      && r[0] == "🌙  *TOMORROW'S WATCHLIST*" && r[1] == "📅  " + stamp
      && l.limit == 4 && l.style == TomorrowBlock
      && r[|r| - 1] == DisclaimerLine(report)
  {
    var l := NightLayout(report, stamp);
    RenderShape(l, Stocks(report));
    var r := Render(l, Stocks(report));
    assert r[..2] == r[..|l.top|][..2];
  }

  /** Weekend message: its own title, at most four picks in the next-week block, disclaimer last. */
  lemma WeekendShape(report: Report, stamp: string)
    ensures var l := WeekendLayout(report, stamp); var r := Render(l, Stocks(report));
      && r[0] == "📅  *WEEKEND WATCHLIST*" && r[1] == "📅  " + stamp
      && l.limit == 4 && l.style == NextWeekBlock
      && r[|r| - 1] == DisclaimerLine(report)
  {
    var l := WeekendLayout(report, stamp);
    RenderShape(l, Stocks(report));
    var r := Render(l, Stocks(report));
    assert r[..2] == r[..|l.top|][..2];
  }

  // ---------------------------------------------------------------------------
  // The formatters as the source writes them
  // ---------------------------------------------------------------------------

  /** Appends the blocks one after the other, in order. */
  method AppendBlocks(lines: seq<string>, blocks: seq<seq<string>>) returns (out: seq<string>)
    ensures out == lines + Concat(blocks)
  {
    out := lines;
    var i := 0;
    while i < |blocks|
      invariant 0 <= i <= |blocks|
      invariant out == lines + Concat(blocks[..i])
    {
      assert blocks[..i + 1] == blocks[..i] + [blocks[i]];
      ConcatSnoc(blocks[..i], blocks[i]);
      out := out + blocks[i];
      i := i + 1;
    }
    assert blocks[..i] == blocks;
  }

  /** `for i, s in enumerate(picks, 1): lines += <block>`: block `i` of `Blocks` is the block of
      pick `i` numbered `i + 1`. */
  method AppendPicks(lines: seq<string>, style: BlockStyle, picks: seq<Pick>) returns (out: seq<string>)
    ensures out == lines + PickBlocks(style, picks, 1)
  {
    out := AppendBlocks(lines, Blocks(style, picks, 1));
  }

  /** `format_scheduled_message`. */
  method FormatScheduledMessage(report: Report, slotLabel: string, mode: Mode, stamp: string)
    returns (text: string)
    ensures text == ScheduledText(report, slotLabel, mode, stamp)
  {
    var lines := Header(slotLabel, report, stamp);
    if Truthy(report.theme) {
      lines := lines + [ThemeLine(report.theme.value)];
    }
    lines := lines + Divider(DividerTitle(mode));
    if mode == Closing && Truthy(report.daySummary) {
      lines := lines[..4] + [SummaryLine(report.daySummary.value)] + lines[4..];
    }
    assert lines == ScheduledTop(report, slotLabel, mode, stamp);
    lines := AppendPicks(lines, TodayBlock(mode != Intraday), Take(Stocks(report), 3));
    var extras := [];
    if mode == Closing && Truthy(report.nextDayOutlook) {
      extras := extras + ["\n🔭  *Tomorrow* : " + report.nextDayOutlook.value];
    }
    if Truthy(report.globalCues) {
      extras := extras + ["🌐  *Global*   : " + report.globalCues.value];
    }
    assert extras == ScheduledExtras(report, mode);
    lines := lines + Footer(report, extras);
    text := Join(lines, "\n");
  }

  /** `format_adhoc_message`. */
  method FormatAdhocMessage(report: Report, stamp: string) returns (text: string)
    ensures text == AdhocText(report, stamp)
  {
    var lines := Header("📲  INSTANT PICKS", report, stamp);
    lines := lines + Divider("BEST PICKS RIGHT NOW");
    lines := AppendPicks(lines, TodayBlock(true), Take(Stocks(report), 3));
    lines := lines + Footer(report, []);
    text := Join(lines, "\n");
  }

  /** `format_pre_open_message`. */
  method FormatPreOpenMessage(report: Report, stamp: string) returns (text: string)
    ensures text == PreOpenText(report, stamp)
  {
    var lines := Header("🌄  PRE-MARKET WATCHLIST", report, stamp);
    lines := lines + ["⏰  Gift Nifty : " + report.niftyOpenEstimate.GetOr("N/A")];
    lines := lines + Divider("STOCKS TO WATCH TODAY");
    lines := AppendPicks(lines, TodayBlock(true), Take(Stocks(report), 3));
    var extras := [];
    if Truthy(report.keyEvents) {
      extras := extras + ["\n📋  Key Events : " + report.keyEvents.value];
    }
    assert extras == PreOpenExtras(report);
    lines := lines + Footer(report, extras);
    text := Join(lines, "\n");
  }

  /** `format_night_message`. */
  method FormatNightMessage(report: Report, stamp: string) returns (text: string)
    ensures text == NightText(report, stamp)
  {
    var l := NightLayout(report, stamp);
    var lines := AppendPicks(l.top, TomorrowBlock, Take(Stocks(report), 4));
    lines := lines + l.bottom;
    text := Join(lines, "\n");
  }

  /** `format_weekend_message`. */
  method FormatWeekendMessage(report: Report, stamp: string) returns (text: string)
    ensures text == WeekendText(report, stamp)
  {
    var l := WeekendLayout(report, stamp);
    var lines := AppendPicks(l.top, NextWeekBlock, Take(Stocks(report), 4));
    lines := lines + l.bottom;
    text := Join(lines, "\n");
  }
}
