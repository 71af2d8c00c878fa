/** The entry points of `app.py` that send messages: the broadcast loop, the scheduled
    alert job, the ad-hoc dispatcher, the WhatsApp webhook and the manual trigger. The
    IST clock, the report generator and the message transport are parameters; each
    method returns the delivery requests it handed to the transport, in order. */
module Alerts {
  import opened Wrappers
  import opened Text
  import opened Reports
  import Formatting
  import Analyzer
  import Session
  import WhatsApp
  import Subscribers

  /** One reading of the IST clock: weekday (0 is Monday), hour, minute, and the
      timestamp text the message headers print. */
  datatype Clock = Clock(weekday: int, hour: int, minute: int, stamp: string)

  // ---------------------------------------------------------------------------
  // Broadcast
  // ---------------------------------------------------------------------------

  /** The requests a broadcast of `message` to `numbers` hands to the transport. */
  function BroadcastTrace(svc: WhatsApp.Service, numbers: seq<string>, message: string)
    : seq<WhatsApp.Outgoing>
    decreases |numbers|
  {
    if numbers == [] then []
    else [WhatsApp.Envelope(svc, numbers[0], message)] + BroadcastTrace(svc, numbers[1..], message)
  }

  /** One request per listed number, in list order, each with the same body. */
  lemma {:induction false} BroadcastTraceShape(svc: WhatsApp.Service, numbers: seq<string>, message: string)
    ensures |BroadcastTrace(svc, numbers, message)| == |numbers|
    ensures forall i :: 0 <= i < |numbers| ==>
      BroadcastTrace(svc, numbers, message)[i] == WhatsApp.Envelope(svc, numbers[i], message)
    decreases |numbers|
  {
    if numbers != [] {
      BroadcastTraceShape(svc, numbers[1..], message);
    }
  }

  lemma {:induction false} BroadcastTraceAppend(svc: WhatsApp.Service, a: seq<string>, b: seq<string>, message: string)
    ensures BroadcastTrace(svc, a + b, message) == BroadcastTrace(svc, a, message) + BroadcastTrace(svc, b, message)
    decreases |a|
  {
    if a == [] {
      assert a + b == b;
    } else {
      assert (a + b)[1..] == a[1..] + b;
      BroadcastTraceAppend(svc, a[1..], b, message);
    }
  }

  /** How many of `attempts` the transport rejects. */
  function Failures(transport: WhatsApp.Outgoing -> Result<string, string>, attempts: seq<WhatsApp.Outgoing>)
    : (n: nat)
    ensures n <= |attempts|
    decreases |attempts|
  {
    if attempts == [] then 0
    else (if transport(attempts[0]).Failure? then 1 else 0) + Failures(transport, attempts[1..])
  }

  lemma {:induction false} FailuresAppend(transport: WhatsApp.Outgoing -> Result<string, string>,
                                          a: seq<WhatsApp.Outgoing>, b: seq<WhatsApp.Outgoing>)
    ensures Failures(transport, a + b) == Failures(transport, a) + Failures(transport, b)
    decreases |a|
  {
    if a == [] {
      assert a + b == b;
    } else {
      assert (a + b)[1..] == a[1..] + b;
      FailuresAppend(transport, a[1..], b);
    }
  }

  /** No failure is counted exactly when every request is accepted. */
  lemma {:induction false} FailuresZero(transport: WhatsApp.Outgoing -> Result<string, string>, attempts: seq<WhatsApp.Outgoing>)
    ensures Failures(transport, attempts) == 0 <==> forall i :: 0 <= i < |attempts| ==> transport(attempts[i]).Success?
    decreases |attempts|
  {
    if attempts != [] {
      FailuresZero(transport, attempts[1..]);
      assert forall i :: 1 <= i < |attempts| ==> attempts[i] == attempts[1..][i - 1];
    }
  }

  /** `_broadcast`: nothing is sent to an empty list; otherwise every listed number gets one
      request, in order, and a rejected request is counted and does not stop the rest. */
  method Broadcast(store: Subscribers.SubscriberStore, svc: WhatsApp.Service,
                   transport: WhatsApp.Outgoing -> Result<string, string>, message: string)
    returns (attempts: seq<WhatsApp.Outgoing>, failed: nat)
    ensures attempts == BroadcastTrace(svc, store.subs, message)
    ensures failed == Failures(transport, attempts)
  {
    var numbers := store.GetAll();
    if |numbers| == 0 {
      return [], 0;
    }
    attempts, failed := [], 0;
    var i := 0;
    while i < |numbers|
      invariant 0 <= i <= |numbers|
      invariant attempts == BroadcastTrace(svc, numbers[..i], message)
      invariant failed == Failures(transport, attempts)
    {
      var request := WhatsApp.Envelope(svc, numbers[i], message);
      var outcome := WhatsApp.SendMessage(svc, numbers[i], message, transport);
      BroadcastTraceAppend(svc, numbers[..i], [numbers[i]], message);
      assert numbers[..i + 1] == numbers[..i] + [numbers[i]];
      assert BroadcastTrace(svc, [numbers[i]], message) == [request];
      FailuresAppend(transport, attempts, [request]);
      attempts := attempts + [request];
      if outcome.Failure? {
        failed := failed + 1;
      }
      i := i + 1;
    }
    assert numbers[..i] == numbers;
  }

  // ---------------------------------------------------------------------------
  // Scheduled alerts
  // ---------------------------------------------------------------------------

  /** The requests a scheduled alert for (hour, minute) makes: none when the generator
      fails, otherwise the broadcast of the scheduled message. */
  function ScheduledAlertTrace(svc: WhatsApp.Service, subs: seq<string>,
                               gen: Analyzer.Request -> Result<Report, string>,
                               hour: int, minute: int, stamp: string): seq<WhatsApp.Outgoing>
  {
    var job := Session.SlotJob(hour, minute);
    match gen(job.request)
    case Failure(_) => []
    case Success(report) =>
      BroadcastTrace(svc, subs,
        Formatting.ScheduledText(report, Session.SlotLabel(hour, minute), job.mode, stamp))
  }

  /** Subscriber i receives request i, all with the same scheduled message, and a failed
      generator sends nothing to anyone. */
  lemma ScheduledAlertReachesAll(svc: WhatsApp.Service, subs: seq<string>,
                                 gen: Analyzer.Request -> Result<Report, string>,
                                 hour: int, minute: int, stamp: string)
    ensures var t := ScheduledAlertTrace(svc, subs, gen, hour, minute, stamp);
      && (gen(Session.SlotJob(hour, minute).request).Failure? ==> t == [])
      && (gen(Session.SlotJob(hour, minute).request).Success? ==>
            |t| == |subs|
            && (forall i :: 0 <= i < |subs| ==>
                  t[i] == WhatsApp.Envelope(svc, subs[i],
                            Formatting.ScheduledText(gen(Session.SlotJob(hour, minute).request).value,
                                                     Session.SlotLabel(hour, minute),
                                                     Session.SlotJob(hour, minute).mode, stamp)))
            && forall i, j :: 0 <= i < |t| && 0 <= j < |t| ==> t[i].body == t[j].body)
  {
    var job := Session.SlotJob(hour, minute);
    if gen(job.request).Success? {
      var report := gen(job.request).value;
      var text := Formatting.ScheduledText(report, Session.SlotLabel(hour, minute), job.mode, stamp);
      BroadcastTraceShape(svc, subs, text);
    }
  }

  /** `run_scheduled_alert(hour, minute)`: generate the slot's report, format it under the
      slot's label and mode, and broadcast it; a generator error is caught. */
  method RunScheduledAlert(store: Subscribers.SubscriberStore, svc: WhatsApp.Service,
                           gen: Analyzer.Request -> Result<Report, string>,
                           transport: WhatsApp.Outgoing -> Result<string, string>,
                           hour: int, minute: int, clock: Clock)
    returns (attempts: seq<WhatsApp.Outgoing>)
    ensures attempts == ScheduledAlertTrace(svc, store.subs, gen, hour, minute, clock.stamp)
  {
    var slotLabel := Session.SlotLabel(hour, minute);
    var job := Session.SlotJob(hour, minute);
    var report := gen(job.request);
    if report.Failure? {
      return [];
    }
    var message := Formatting.FormatScheduledMessage(report.value, slotLabel, job.mode, clock.stamp);
    var failed;
    attempts, failed := Broadcast(store, svc, transport, message);
  }

  // ---------------------------------------------------------------------------
  // Ad-hoc replies
  // ---------------------------------------------------------------------------

  /** The reply `handle_adhoc` sends for a clock reading: the session's report in the
      session's format, or the error reply when the generator fails. */
  function AdhocReply(gen: Analyzer.Request -> Result<Report, string>, clock: Clock): string {
    var phase := Session.MarketSession(clock.weekday, clock.hour, clock.minute);
    match gen(Session.AdhocRequest(phase, clock.hour))
    case Failure(e) => Session.AdhocErrorReply(e)
    case Success(report) => SessionText(phase, report, clock.stamp)
  }

  /** The formatter each session's report is rendered with. */
  function SessionText(phase: Session.Phase, report: Report, stamp: string): string {
    match phase
    case Market => Formatting.AdhocText(report, stamp)
    case PreOpen => Formatting.PreOpenText(report, stamp)
    case PostClose => Formatting.NightText(report, stamp)
    case Night => Formatting.NightText(report, stamp)
    case Weekend => Formatting.WeekendText(report, stamp)
  }

  /** The formatter call of `handle_adhoc` for the session. */
  method FormatForSession(phase: Session.Phase, report: Report, stamp: string) returns (text: string)
    ensures text == SessionText(phase, report, stamp)
  {
    match phase
    case Market => text := Formatting.FormatAdhocMessage(report, stamp);
    case PreOpen => text := Formatting.FormatPreOpenMessage(report, stamp);
    case PostClose => text := Formatting.FormatNightMessage(report, stamp);
    case Night => text := Formatting.FormatNightMessage(report, stamp);
    case Weekend => text := Formatting.FormatWeekendMessage(report, stamp);
  }

  /** The ad-hoc reply by session: weekends get the weekend watchlist, evenings and nights
      the next-day watchlist, market hours the live picks for the current hour, before 9:15
      the pre-market list; a generator error comes back to the sender inside the error text. */
  lemma AdhocReplyBySession(gen: Analyzer.Request -> Result<Report, string>, clock: Clock)
    ensures var phase := Session.MarketSession(clock.weekday, clock.hour, clock.minute);
      var request := Session.AdhocRequest(phase, clock.hour);
      && (clock.weekday >= 5 ==> request == Analyzer.Weekend)
      && (clock.weekday < 5 && clock.hour * 60 + clock.minute > Session.MarketCloses ==>
            request == Analyzer.NextDay)
      && (clock.weekday < 5 && Session.MarketOpens <= clock.hour * 60 + clock.minute <= Session.MarketCloses ==>
            request == Analyzer.Adhoc(clock.hour))
      && (clock.weekday < 5 && clock.hour * 60 + clock.minute < Session.MarketOpens ==>
            request == Analyzer.PreOpen)
      && (gen(request).Failure? ==>
            AdhocReply(gen, clock)[|Session.AdhocErrorPrefix|..][..|gen(request).error|] == gen(request).error)
  {
  }

  /** `handle_adhoc(from_number)`: one reply to the sender whatever the generator does; the
      outcome of that send is passed back (the source lets its exception escape). */
  method HandleAdhoc(svc: WhatsApp.Service, gen: Analyzer.Request -> Result<Report, string>,
                     transport: WhatsApp.Outgoing -> Result<string, string>,
                     fromNumber: string, clock: Clock)
    returns (sent: WhatsApp.Outgoing, outcome: Result<string, string>)
    ensures sent == WhatsApp.Envelope(svc, fromNumber, AdhocReply(gen, clock))
    ensures outcome == transport(sent)
  {
    var phase := Session.MarketSession(clock.weekday, clock.hour, clock.minute);
    var report := gen(Session.AdhocRequest(phase, clock.hour));
    var reply: string;
    if report.Failure? {
      reply := Session.AdhocErrorReply(report.error);
    } else {
      reply := FormatForSession(phase, report.value, clock.stamp);
    }
    sent := WhatsApp.Envelope(svc, fromNumber, reply);
    outcome := WhatsApp.SendMessage(svc, fromNumber, reply, transport);
  }

  // ---------------------------------------------------------------------------
  // The WhatsApp webhook
  // ---------------------------------------------------------------------------

  /** The sender as the webhook reads it: the `From` field (empty when absent) without the prefix. */
  function Sender(fromField: Option<string>): string {
    Subscribers.Normalise(fromField.GetOr(""))
  }

  /** The sender is the `From` field without the prefix: empty when the field is missing,
      the bare number for the prefixed form the gateway sends, and a plain number as it is. */
  lemma SenderShape(fromField: Option<string>, number: string)
    requires !Contains(number, WhatsApp.Prefix)
    ensures fromField == None ==> Sender(fromField) == ""
    ensures fromField == Some(number) ==> Sender(fromField) == number
    ensures fromField == Some(WhatsApp.Prefix + number) ==> Sender(fromField) == number
  {
    Subscribers.NormalisePlain(number);
    LeadingPatternDropped(number, WhatsApp.Prefix);
  }

  /** The fixed reply to each of the three commands. */
  function CommandReply(cmd: Session.Command): string
    requires cmd != Session.Other
  {
    match cmd
    case Subscribe => Session.OnboardingReply
    case Unsubscribe => Session.UnsubscribedReply
    case Help => Session.HelpReply
  }

  /** The requests for a message that is not a command: the wait message for the session at
      arrival and, only when that went through, the ad-hoc reply. */
  function AcknowledgeTrace(svc: WhatsApp.Service, gen: Analyzer.Request -> Result<Report, string>,
                            transport: WhatsApp.Outgoing -> Result<string, string>,
                            from: string, arrival: Clock, later: Clock): seq<WhatsApp.Outgoing>
  {
    var phase := Session.MarketSession(arrival.weekday, arrival.hour, arrival.minute);
    var wait := WhatsApp.Envelope(svc, from, Session.WaitMessage(phase));
    if transport(wait).Failure? then [wait]
    else [wait, WhatsApp.Envelope(svc, from, AdhocReply(gen, later))]
  }

  /** The requests the webhook makes for a message: one fixed reply for the three commands,
      the acknowledgement sequence for anything else. */
  function WebhookTrace(svc: WhatsApp.Service, gen: Analyzer.Request -> Result<Report, string>,
                        transport: WhatsApp.Outgoing -> Result<string, string>,
                        fromField: Option<string>, bodyField: Option<string>,
                        arrival: Clock, later: Clock): seq<WhatsApp.Outgoing>
  {
    var cmd := Session.ParseCommand(bodyField.GetOr(""));
    if cmd == Session.Other then AcknowledgeTrace(svc, gen, transport, Sender(fromField), arrival, later)
    else [WhatsApp.Envelope(svc, Sender(fromField), CommandReply(cmd))]
  }

  /** The acknowledgement goes to the sender: the wait message, then the ad-hoc reply only
      when the wait message went through. */
  lemma AcknowledgeTraceShape(svc: WhatsApp.Service, gen: Analyzer.Request -> Result<Report, string>,
                              transport: WhatsApp.Outgoing -> Result<string, string>,
                              from: string, arrival: Clock, later: Clock)
    ensures var t := AcknowledgeTrace(svc, gen, transport, from, arrival, later);
      && 1 <= |t| <= 2
      && t[0].body == Session.WaitMessage(Session.MarketSession(arrival.weekday, arrival.hour, arrival.minute))
      && (forall m :: m in t ==> m.to == WhatsApp.Destination(from))
      && (|t| == 2 <==> transport(t[0]).Success?)
  {
    var phase := Session.MarketSession(arrival.weekday, arrival.hour, arrival.minute);
    var wait := WhatsApp.Envelope(svc, from, Session.WaitMessage(phase));
    var reply := WhatsApp.Envelope(svc, from, AdhocReply(gen, later));
    var t := AcknowledgeTrace(svc, gen, transport, from, arrival, later);
    assert t == if transport(wait).Failure? then [wait] else [wait, reply];
  }

  /** Every request of the webhook goes back to the sender, and at most two are made. */
  lemma WebhookRepliesToSender(svc: WhatsApp.Service, gen: Analyzer.Request -> Result<Report, string>,
                               transport: WhatsApp.Outgoing -> Result<string, string>,
                               fromField: Option<string>, bodyField: Option<string>,
                               arrival: Clock, later: Clock)
    ensures var t := WebhookTrace(svc, gen, transport, fromField, bodyField, arrival, later);
      && 1 <= |t| <= 2
      && (forall m :: m in t ==> m.to == WhatsApp.Destination(Sender(fromField)))
      && (|t| == 2 <==> Session.ParseCommand(bodyField.GetOr("")) == Session.Other && transport(t[0]).Success?)
  {
    var from := Sender(fromField);
    var cmd := Session.ParseCommand(bodyField.GetOr(""));
    if cmd == Session.Other {
      AcknowledgeTraceShape(svc, gen, transport, from, arrival, later);
    } else {
      var m := WhatsApp.Envelope(svc, from, CommandReply(cmd));
      assert WebhookTrace(svc, gen, transport, fromField, bodyField, arrival, later) == [m];
    }
  }

  /** The webhook's answer to a message that is not a command. The session is read at
      arrival; a failing wait message raises, so the ad-hoc reply is never sent. */
  method Acknowledge(svc: WhatsApp.Service, gen: Analyzer.Request -> Result<Report, string>,
                     transport: WhatsApp.Outgoing -> Result<string, string>,
                     fromNumber: string, arrival: Clock, later: Clock)
    returns (attempts: seq<WhatsApp.Outgoing>, ok: bool)
    ensures attempts == AcknowledgeTrace(svc, gen, transport, fromNumber, arrival, later)
    ensures ok <==> forall m :: m in attempts ==> transport(m).Success?
  {
    var phase := Session.MarketSession(arrival.weekday, arrival.hour, arrival.minute);
    var waitMessage := Session.WaitMessage(phase);
    var wait := WhatsApp.Envelope(svc, fromNumber, waitMessage);
    var waitOutcome := WhatsApp.SendMessage(svc, fromNumber, waitMessage, transport);
    if waitOutcome.Failure? {
      assert wait in [wait];
      return [wait], false;
    }
    var sent, adhocOutcome := HandleAdhoc(svc, gen, transport, fromNumber, later);
    assert sent in [wait, sent];
    return [wait, sent], adhocOutcome.Success?;
  }

  /** The one reply the webhook sends for a command. */
  method SendCommandReply(svc: WhatsApp.Service, transport: WhatsApp.Outgoing -> Result<string, string>,
                          fromNumber: string, cmd: Session.Command)
    returns (attempts: seq<WhatsApp.Outgoing>, ok: bool)
    requires cmd != Session.Other
    ensures attempts == [WhatsApp.Envelope(svc, fromNumber, CommandReply(cmd))]
    ensures ok <==> transport(attempts[0]).Success?
  {
    var reply: string;
    if cmd == Session.Subscribe {
      reply := Session.OnboardingReply;
    } else if cmd == Session.Unsubscribe {
      reply := Session.UnsubscribedReply;
    } else {
      reply := Session.HelpReply;
    }
    var request := WhatsApp.Envelope(svc, fromNumber, reply);
    var outcome := WhatsApp.SendMessage(svc, fromNumber, reply, transport);
    attempts, ok := [request], outcome.Success?;
  }

  /** `whatsapp_webhook`, from the form fields and two clock readings (the webhook's own,
      and the later one `handle_adhoc` takes). The subscriber list and the count of file
      writes change as the command says, and help changes neither; `ok` is false when a
      send raised, which ends the request with an error. */
  method Webhook(store: Subscribers.SubscriberStore, svc: WhatsApp.Service,
                 gen: Analyzer.Request -> Result<Report, string>,
                 transport: WhatsApp.Outgoing -> Result<string, string>,
                 fromField: Option<string>, bodyField: Option<string>, arrival: Clock, later: Clock)
    returns (attempts: seq<WhatsApp.Outgoing>, ok: bool)
    modifies store
    ensures attempts == WebhookTrace(svc, gen, transport, fromField, bodyField, arrival, later)
    ensures ok <==> forall m :: m in attempts ==> transport(m).Success?
    ensures var cmd := Session.ParseCommand(bodyField.GetOr(""));
      && (cmd == Session.Subscribe || cmd == Session.Other ==>
            store.subs == Subscribers.Added(old(store.subs), Sender(fromField)))
      && (cmd == Session.Unsubscribe ==>
            store.subs == Subscribers.Removed(old(store.subs), Sender(fromField)))
      && (cmd == Session.Help ==> store.subs == old(store.subs))
    ensures var cmd := Session.ParseCommand(bodyField.GetOr(""));
      var listed := Subscribers.Normalise(Sender(fromField)) in old(store.subs);
      && (cmd == Session.Subscribe || cmd == Session.Other ==>
            store.writes == if listed then old(store.writes) else old(store.writes) + 1)
      && (cmd == Session.Unsubscribe ==> store.writes == old(store.writes) + 1)
      && (cmd == Session.Help ==> store.writes == old(store.writes))
    ensures old(store.Valid()) ==> store.Valid()
  {
    var fromNumber := Sender(fromField);
    var cmd := Session.ParseCommand(bodyField.GetOr(""));
    if cmd == Session.Other {
      store.Add(fromNumber);
      attempts, ok := Acknowledge(svc, gen, transport, fromNumber, arrival, later);
      return;
    }
    if cmd == Session.Subscribe {
      store.Add(fromNumber);
    } else if cmd == Session.Unsubscribe {
      store.Remove(fromNumber);
    }
    attempts, ok := SendCommandReply(svc, transport, fromNumber, cmd);
  }

  // ---------------------------------------------------------------------------
  // Manual triggers
  // ---------------------------------------------------------------------------

  /** The HTTP answer of `trigger_alert`: 200 with the slot, 400 for an unknown name, 500 with
      the text of a caught exception. */
  datatype TriggerResponse = Triggered(slot: string) | BadRequest(error: string) | ServerError(error: string)

  /** `trigger_alert(slot)`: an unknown name is refused before anything runs; "night" and
      "weekend" broadcast their report (a generator error answers 500); any other name runs
      the scheduled alert of its slot, which catches its own errors. */
  method TriggerAlert(store: Subscribers.SubscriberStore, svc: WhatsApp.Service,
                      gen: Analyzer.Request -> Result<Report, string>,
                      transport: WhatsApp.Outgoing -> Result<string, string>,
                      slot: string, clock: Clock)
    returns (response: TriggerResponse, attempts: seq<WhatsApp.Outgoing>)
    ensures Session.TriggerTarget(slot).None? ==>
      response == BadRequest(Session.UnknownSlotError()) && attempts == []
    ensures Session.TriggerTarget(slot) == Some(Session.NightTarget) ==>
      var report := gen(Analyzer.NextDay);
      && (report.Failure? ==> response == ServerError(report.error) && attempts == [])
      && (report.Success? ==>
            response == Triggered(slot)
            && attempts == BroadcastTrace(svc, store.subs, Formatting.NightText(report.value, clock.stamp)))
    ensures Session.TriggerTarget(slot) == Some(Session.WeekendTarget) ==>
      var report := gen(Analyzer.Weekend);
      && (report.Failure? ==> response == ServerError(report.error) && attempts == [])
      && (report.Success? ==>
            response == Triggered(slot)
            && attempts == BroadcastTrace(svc, store.subs, Formatting.WeekendText(report.value, clock.stamp)))
    ensures Session.TriggerTarget(slot).Some? && Session.TriggerTarget(slot).value.SlotTarget? ==>
      var target := Session.TriggerTarget(slot).value;
      response == Triggered(slot)
      && attempts == ScheduledAlertTrace(svc, store.subs, gen, target.hour, target.minute, clock.stamp)
  {
    var target := Session.TriggerTarget(slot);
    if target.None? {
      return BadRequest(Session.UnknownSlotError()), [];
    }
    match target.value
    case NightTarget =>
      var report := gen(Analyzer.NextDay);
      if report.Failure? {
        return ServerError(report.error), [];
      }
      var message := Formatting.FormatNightMessage(report.value, clock.stamp);
      var failed;
      attempts, failed := Broadcast(store, svc, transport, message);
      response := Triggered(slot);
    case WeekendTarget =>
      var report := gen(Analyzer.Weekend);
      if report.Failure? {
        return ServerError(report.error), [];
      }
      var message := Formatting.FormatWeekendMessage(report.value, clock.stamp);
      var failed;
      attempts, failed := Broadcast(store, svc, transport, message);
      response := Triggered(slot);
    case SlotTarget(h, m) =>
      attempts := RunScheduledAlert(store, svc, gen, transport, h, m, clock);
      response := Triggered(slot);
  }
}
