/** The decisions `app.py` takes before any text is formatted or sent: the market
    session of a moment, the slot table and the report each slot asks for, the
    report an ad-hoc message asks for, the wait message, the command words of the
    webhook, and the manual trigger names. */
module Session {
  import opened Wrappers
  import opened Text
  import Analyzer
  import Formatting

  // ---------------------------------------------------------------------------
  // Market sessions
  // ---------------------------------------------------------------------------

  datatype Phase = PreOpen | Market | PostClose | Night | Weekend

  /** 9:15, 15:30 and 18:00 as minutes after midnight. */
  const MarketOpens := 9 * 60 + 15
  const MarketCloses := 15 * 60 + 30
  const EveningEnds := 18 * 60

  /** `market_session`: the weekday (0 is Monday) decides the weekend, then the minute of the
      day falls into exactly one weekday phase; both ends of the market window belong to it. */
  function MarketSession(weekday: int, hour: int, minute: int): (p: Phase)
    ensures p == Weekend <==> weekday >= 5
    ensures p == PreOpen <==> weekday < 5 && hour * 60 + minute < MarketOpens
    ensures p == Market <==> weekday < 5 && MarketOpens <= hour * 60 + minute <= MarketCloses
    ensures p == PostClose <==> weekday < 5 && MarketCloses < hour * 60 + minute <= EveningEnds
    ensures p == Night <==> weekday < 5 && EveningEnds < hour * 60 + minute
  {
    if weekday >= 5 then Weekend
    else
      var mins := hour * 60 + minute;
      if mins < MarketOpens then PreOpen
      else if mins <= MarketCloses then Market
      else if mins <= EveningEnds then PostClose
      else Night
  }

  /** The boundary minutes: 9:15 and 15:30 are market time, 18:00 is still after-close. */
  lemma SessionBoundaries(weekday: int)
    requires 0 <= weekday < 5
    ensures MarketSession(weekday, 9, 14) == PreOpen && MarketSession(weekday, 9, 15) == Market
    ensures MarketSession(weekday, 15, 30) == Market && MarketSession(weekday, 15, 31) == PostClose
    ensures MarketSession(weekday, 18, 0) == PostClose && MarketSession(weekday, 18, 1) == Night
  {
  }

  /** The position of a weekday phase in the day. */
  function PhaseOrder(p: Phase): nat {
    match p
    case PreOpen => 0
    case Market => 1
    case PostClose => 2
    case Night => 3
    case Weekend => 4
  }

  /** On a weekday the phases follow one another in time and never come back. */
  lemma SessionMonotone(weekday: int, h1: int, m1: int, h2: int, m2: int)
    requires weekday < 5 && h1 * 60 + m1 <= h2 * 60 + m2
    ensures PhaseOrder(MarketSession(weekday, h1, m1)) <= PhaseOrder(MarketSession(weekday, h2, m2))
    ensures MarketSession(weekday, h1, m1) != Weekend
  {
  }

  // ---------------------------------------------------------------------------
  // The slot table
  // ---------------------------------------------------------------------------

  /** `SCHEDULE`: the weekday (hour, minute) slots of the automated alerts. */
  const Schedule: seq<(int, int)> :=
    [(9, 20), (10, 0), (11, 0), (12, 0), (13, 0), (14, 0), (14, 30), (15, 0)]

  /** `SLOT_LABELS`. */
  const SlotLabels: map<(int, int), string> := map[
    (9, 20) := "🌅 MARKET OPEN",
    (10, 0) := "📊 10 AM UPDATE",
    (11, 0) := "📈 11 AM UPDATE",
    (12, 0) := "☀️ NOON UPDATE",
    (13, 0) := "🔆 1 PM UPDATE",
    (14, 0) := "🔥 2 PM UPDATE",
    (14, 30) := "⚡ 2:30 PM UPDATE",
    (15, 0) := "🌆 CLOSING UPDATE"]

  /** The label of a slot missing from the table: `f"📣 {hour:02d}:{minute:02d} UPDATE"`. */
  function FallbackLabel(hour: int, minute: int): string {
    "📣 " + Pad2(hour) + ":" + Pad2(minute) + " UPDATE"
  }

  function SlotLabel(hour: int, minute: int): string {
    if (hour, minute) in SlotLabels then SlotLabels[(hour, minute)] else FallbackLabel(hour, minute)
  }

  function MinuteOfDay(slot: (int, int)): int {
    slot.0 * 60 + slot.1
  }

  /** Eight slots from 9:20 to 15:00 in strictly increasing order, each a weekday market
      minute, and exactly the keys of the label table. */
  lemma ScheduleTable()
    ensures |Schedule| == 8 && Schedule[0] == (9, 20) && Schedule[7] == (15, 0)
    ensures forall i, j :: 0 <= i < j < |Schedule| ==> MinuteOfDay(Schedule[i]) < MinuteOfDay(Schedule[j])
    ensures forall slot :: slot in Schedule <==> slot in SlotLabels
    ensures forall i, weekday :: 0 <= i < |Schedule| && 0 <= weekday < 5 ==>
              MarketSession(weekday, Schedule[i].0, Schedule[i].1) == Market
  {
    forall slot ensures slot in Schedule <==> slot in SlotLabels {
      if slot in SlotLabels {
        assert slot in SlotLabels.Keys;
      }
    }
  }

  /** Every scheduled slot is announced with its table label, never with the fallback. */
  lemma ScheduledLabels(i: nat)
    requires i < |Schedule|
    ensures SlotLabel(Schedule[i].0, Schedule[i].1) == SlotLabels[Schedule[i]]
    ensures SlotLabel(Schedule[i].0, Schedule[i].1) != FallbackLabel(Schedule[i].0, Schedule[i].1)
  {
    var (h, m) := Schedule[i];
    assert (h, m) in SlotLabels;
    var fallback := FallbackLabel(h, m);
    assert fallback[0] == '📣';
    assert SlotLabels[(h, m)][0] != '📣';
  }

  /** What `run_scheduled_alert` asks the generator for, and how it formats the report. */
  datatype Job = Job(request: Analyzer.Request, mode: Formatting.Mode)

  function SlotJob(hour: int, minute: int): Job {
    if hour == 9 && minute == 20 then Job(Analyzer.MarketOpen, Formatting.Open)
    else if hour == 15 then Job(Analyzer.Closing, Formatting.Closing)
    else Job(Analyzer.Intraday(hour), Formatting.Intraday)
  }

  /** Mode selection: "open" exactly at 9:20, "closing" at any minute of hour 15, intraday
      otherwise with the slot's hour; the request always agrees with the mode. */
  lemma SlotJobChoice(hour: int, minute: int)
    ensures var job := SlotJob(hour, minute);
      && (job.mode == Formatting.Open <==> hour == 9 && minute == 20)
      && (job.mode == Formatting.Closing <==> hour == 15)
      && (job.mode == Formatting.Intraday <==> job.request == Analyzer.Intraday(hour))
      && (job.mode == Formatting.Open <==> job.request == Analyzer.MarketOpen)
      && (job.mode == Formatting.Closing <==> job.request == Analyzer.Closing)
  {
  }

  /** Over the schedule: the first slot opens, the last closes, the six between are intraday. */
  lemma ScheduleJobs(i: nat)
    requires i < |Schedule|
    ensures i == 0 ==> SlotJob(Schedule[i].0, Schedule[i].1) == Job(Analyzer.MarketOpen, Formatting.Open)
    ensures i == 7 ==> SlotJob(Schedule[i].0, Schedule[i].1) == Job(Analyzer.Closing, Formatting.Closing)
    ensures 0 < i < 7 ==>
      SlotJob(Schedule[i].0, Schedule[i].1) == Job(Analyzer.Intraday(Schedule[i].0), Formatting.Intraday)
  {
  }

  // ---------------------------------------------------------------------------
  // Ad-hoc requests
  // ---------------------------------------------------------------------------

  /** The report `handle_adhoc` asks for in each session. */
  function AdhocRequest(phase: Phase, hour: int): (r: Analyzer.Request)
    ensures r == Analyzer.Adhoc(hour) <==> phase == Market
    ensures r == Analyzer.PreOpen <==> phase == PreOpen
    ensures r == Analyzer.NextDay <==> phase == PostClose || phase == Night
    ensures r == Analyzer.Weekend <==> phase == Weekend
  {
    match phase
    case Market => Analyzer.Adhoc(hour)
    case PreOpen => Analyzer.PreOpen
    case PostClose => Analyzer.NextDay
    case Night => Analyzer.NextDay
    case Weekend => Analyzer.Weekend
  }

  /** The session names the source uses as dictionary keys. */
  function PhaseName(p: Phase): string {
    match p
    case PreOpen => "pre_open"
    case Market => "market"
    case PostClose => "post_close"
    case Night => "night"
    case Weekend => "weekend"
  }

  const WaitFallback := "⏳  Analyzing... please wait ~30 sec"

  /** The tail every wait message shares. */
  const WaitSuffix := "... ~30 sec ⏳"

  /** The "please wait" message, looked up by session name with a fallback. */
  function WaitMessage(p: Phase): string {
    var waits := map[
      "market" := "🔍  Analyzing live market data" + WaitSuffix,
      "pre_open" := "🌄  Checking pre-market signals" + WaitSuffix,
      "post_close" := "📊  Building tomorrow's watchlist" + WaitSuffix,
      "night" := "🌙  Preparing tomorrow's picks" + WaitSuffix,
      "weekend" := "📅  Scanning next week's opportunities" + WaitSuffix];
    if PhaseName(p) in waits then waits[PhaseName(p)] else WaitFallback
  }

  /** Every session has its own wait message, so the fallback is never sent. */
  lemma WaitMessageNeverFallback(p: Phase)
    ensures WaitMessage(p) != WaitFallback
  {
    assert WaitFallback[0] == '⏳';
  }

  /** No two sessions share a wait message: each begins with its own emoji. */
  lemma WaitMessageDistinct(p: Phase, q: Phase)
    requires p != q
    ensures WaitMessage(p) != WaitMessage(q)
  {
    assert WaitMessage(p)[0] != WaitMessage(q)[0];
  }

  // ---------------------------------------------------------------------------
  // Webhook commands
  // ---------------------------------------------------------------------------

  datatype Command = Subscribe | Unsubscribe | Help | Other

  const SubscribeWords: seq<string> := ["start", "subscribe", "hi", "hello", "hey"]
  const UnsubscribeWords: seq<string> := ["stop", "unsubscribe"]

  /** The command of a message body: its trimmed, lower-cased text compared for equality. */
  function ParseCommand(body: string): (c: Command)
    ensures var cmd := Lower(Strip(body));
      && (c == Subscribe <==> cmd in SubscribeWords)
      && (c == Unsubscribe <==> cmd in UnsubscribeWords)
      && (c == Help <==> cmd == "help")
  {
    var cmd := Lower(Strip(body));
    if cmd in SubscribeWords then Subscribe
    else if cmd in UnsubscribeWords then Unsubscribe
    else if cmd == "help" then Help
    else Other
  }

  /** Case does not matter: a body and its lower-cased form are the same command. */
  lemma ParseCommandIgnoresCase(body: string)
    ensures ParseCommand(Lower(body)) == ParseCommand(body)
  {
    StripLowerCommute(body);
    LowerIdempotent(Strip(body));
  }

  const OnboardingReply := Join([
    "✅  *Subscribed to India Stock Alerts!*",
    "",
    "📅  *Automated Alerts (Mon–Fri IST)*",
    "   9:20 AM  – Market Open Picks",
    "  10:00 AM  – Hourly Update",
    "  11:00 AM  – Hourly Update",
    "  12:00 PM  – Noon Update",
    "   1:00 PM  – Hourly Update",
    "   2:00 PM  – Hourly Update",
    "   2:30 PM  – Pre-Close Picks",
    "   3:00 PM  – Closing Picks",
    "",
    "📲  *Message anytime* for instant picks!",
    "   • Market hours  → Live intraday picks",
    "   • Night time    → Tomorrow's watchlist",
    "   • Weekend       → Next week's picks",
    "",
    "Commands: *stop* | *picks* | *help*",
    "",
    "⚠️  For educational purposes only."], "\n")

  const UnsubscribedReply := "❌  Unsubscribed. Send *start* to re-subscribe anytime."

  const HelpReply := Join([
    "📋  *Commands*",
    "",
    "  *start*  – Subscribe to auto alerts",
    "  *stop*   – Unsubscribe",
    "  *picks*  – Instant stock picks",
    "  *help*   – This menu",
    "",
    "💡  Or send *any message* for smart picks!",
    "",
    "Smart picks adapt to the time:",
    "  📈 Market hours → Intraday picks",
    "  🌙 Night time   → Tomorrow's watchlist",
    "  📅 Weekend      → Next week picks"], "\n")

  const AdhocErrorPrefix := "⚠️ Could not generate picks right now.\nPlease retry in a moment.\n\n_"

  /** The reply sent when the ad-hoc report could not be produced: `f"…_{e}_"`. */
  function AdhocErrorReply(error: string): (r: string)
    ensures |r| == |AdhocErrorPrefix| + |error| + 1
    ensures r[..|AdhocErrorPrefix|] == AdhocErrorPrefix
    ensures r[|AdhocErrorPrefix|..][..|error|] == error
    ensures r[|r| - 1] == '_'
  {
    AdhocErrorPrefix + (error + "_")
  }

  // ---------------------------------------------------------------------------
  // Manual triggers
  // ---------------------------------------------------------------------------

  /** The keys of the trigger mapping, in their order. */
  const TriggerNames: seq<string> :=
    ["open", "10am", "11am", "noon", "1pm", "2pm", "230pm", "closing", "night", "weekend"]

  /** The trigger mapping: a name to its slot, or `None` for the two off-schedule reports. */
  const TriggerSlots: map<string, Option<(int, int)>> := map[
    "open" := Some((9, 20)),
    "10am" := Some((10, 0)),
    "11am" := Some((11, 0)),
    "noon" := Some((12, 0)),
    "1pm" := Some((13, 0)),
    "2pm" := Some((14, 0)),
    "230pm" := Some((14, 30)),
    "closing" := Some((15, 0)),
    "night" := None,
    "weekend" := None]

  /** Python's `str` of a list of strings: `['a', 'b']`. */
  function PyStrList(items: seq<string>): string {
    "[" + Join(seq(|items|, i requires 0 <= i < |items| => "'" + items[i] + "'"), ", ") + "]"
  }

  /** The error text of an unknown trigger name. */
  function UnknownSlotError(): string {
    "Unknown slot. Use: " + PyStrList(TriggerNames)
  }

  datatype Target = SlotTarget(hour: int, minute: int) | NightTarget | WeekendTarget

  /** What a manual trigger does: run a scheduled slot, or one of the two off-schedule reports;
      `None` for a name the mapping does not know. */
  function TriggerTarget(slot: string): Option<Target> {
    if slot !in TriggerSlots then None
    else if slot == "night" then Some(NightTarget)
    else if slot == "weekend" then Some(WeekendTarget)
    else match TriggerSlots[slot]
      case Some(hm) => Some(SlotTarget(hm.0, hm.1))
      case None => None
  }

  /** The trigger names are exactly the mapping's keys; each known name has a target, the first
      eight run the eight scheduled slots in order, and the last two the night and weekend reports. */
  lemma TriggerTable()
    ensures forall slot :: slot in TriggerSlots <==> slot in TriggerNames
    ensures forall slot :: TriggerTarget(slot).Some? <==> slot in TriggerNames
    ensures forall k :: 0 <= k < 8 ==>
      TriggerTarget(TriggerNames[k]) == Some(SlotTarget(Schedule[k].0, Schedule[k].1))
    ensures TriggerTarget("night") == Some(NightTarget)
    ensures TriggerTarget("weekend") == Some(WeekendTarget)
  {
    forall slot ensures slot in TriggerSlots <==> slot in TriggerNames {
      if slot in TriggerSlots {
        assert slot in TriggerSlots.Keys;
      }
    }
  }
}
