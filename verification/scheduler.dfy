/** The report scheduler (scheduler.js): the list of authorized recipients
    read from the environment, the report times read from the settings, the
    `HH:MM` to cron conversion with its per-trigger fallback, and the
    dispatch that sends one report to every recipient in turn. Registering
    the cron jobs, the bot and the report builder are outside the model:
    their outcomes are parameters. */
module Scheduler {
  import opened Options
  import opened JsText

  // ---------------------------------------------------------------------------
  // Authorized recipients
  // ---------------------------------------------------------------------------

  /** The non-blank entries of a comma-separated list: each piece trimmed,
      the empty ones dropped, the rest kept in order. */
  function Entries(pieces: seq<string>): (es: seq<string>)
    ensures |es| <= |pieces|
    ensures forall i :: 0 <= i < |es| ==> es[i] != [] && !IsSpace(es[i][0]) && !IsSpace(es[i][|es[i]| - 1])
  {
    if pieces == [] then []
    else
      var t := Trim(pieces[0]);
      TrimEnds(pieces[0]);
      if t != [] then [t] + Entries(pieces[1..]) else Entries(pieces[1..])
  }

  /** A recipient id: `None` is the NaN that a non-numeric entry becomes. */
  type RecipientId = Option<int>

  /** `AUTHORIZED_IDS`: the variable's value (empty when unset), split at
      commas, trimmed, blank entries dropped, each entry read by `parseInt`. */
  function AuthorizedIds(env: Option<string>): (ids: seq<RecipientId>)
    ensures env.None? || env == Some("") ==> ids == []
    ensures env.Some? ==> |ids| <= |Split(env.value, ',')|
  {
    var raw := if env.Some? then env.value else "";
    var es := Entries(Split(raw, ','));
    seq(|es|, i requires 0 <= i < |es| => ParseInt(es[i]))
  }

  /** The entries keep the order of the pieces: the entries of a
      concatenation are the entries of each part, one after the other. */
  lemma {:induction false} EntriesAppend(a: seq<string>, b: seq<string>)
    ensures Entries(a + b) == Entries(a) + Entries(b)
  {
    if a == [] {
      assert a + b == b;
    } else {
      assert (a + b)[0] == a[0];
      assert (a + b)[1..] == a[1..] + b;
      EntriesAppend(a[1..], b);
    }
  }

  /** A blank piece anywhere in the list is simply dropped. */
  lemma BlankEntryDropped(a: seq<string>, blank: string, b: seq<string>)
    requires Trim(blank) == []
    ensures Entries(a + [blank] + b) == Entries(a + b)
  {
    assert Entries([blank]) == Entries([blank][1..]);
    assert Entries([blank]) == [];
    EntriesAppend(a + [blank], b);
    EntriesAppend(a, [blank]);
    EntriesAppend(a, b);
    assert Entries(a + [blank]) == Entries(a);
  }

  lemma {:induction false} EntriesOfNonBlank(pieces: seq<string>)
    requires forall i :: 0 <= i < |pieces| ==> Trim(pieces[i]) != []
    ensures Entries(pieces) == seq(|pieces|, i requires 0 <= i < |pieces| => Trim(pieces[i]))
  {
    if pieces != [] {
      EntriesOfNonBlank(pieces[1..]);
    }
  }

  /** A list of non-blank, comma-free entries written out with commas reads
      back as one id per entry, in order: what `parseInt` makes of the
      trimmed entry, NaN included. */
  lemma AuthorizedIdsOfList(entries: seq<string>)
    requires |entries| >= 1
    requires forall i :: 0 <= i < |entries| ==> ',' !in entries[i] && Trim(entries[i]) != []
    ensures var ids := AuthorizedIds(Some(Join(entries, ',')));
      |ids| == |entries| && forall i :: 0 <= i < |entries| ==> ids[i] == ParseInt(Trim(entries[i]))
  {
    SplitJoin(entries, ',');
    EntriesOfNonBlank(entries);
  }

  // ---------------------------------------------------------------------------
  // Report times and cron expressions
  // ---------------------------------------------------------------------------

  /** The cron expression `"m h * * *"`: every day at `h:m`. */
  datatype Cron = Daily(minute: int, hour: int)

  function CronText(c: Cron): string {
    IntString(c.minute) + " " + IntString(c.hour) + " * * *"
  }

  /** The minute is written before the hour: the first field of the cron
      text reads back as the minute and the second as the hour. */
  lemma CronTextFields(c: Cron)
    ensures Split(CronText(c), ' ') == [IntString(c.minute), IntString(c.hour), "*", "*", "*"]
    ensures ParseInt(Split(CronText(c), ' ')[0]) == Some(c.minute)
    ensures ParseInt(Split(CronText(c), ' ')[1]) == Some(c.hour)
  {
    var parts := [IntString(c.minute), IntString(c.hour), "*", "*", "*"];
    assert Join(parts[4..], ' ') == "*";
    assert Join(parts[3..], ' ') == "* *";
    assert Join(parts[2..], ' ') == "* * *";
    assert Join(parts[1..], ' ') == IntString(c.hour) + " * * *";
    assert Join(parts, ' ') == CronText(c);
    IntStringHasNoSeparator(c.minute, ' ');
    IntStringHasNoSeparator(c.hour, ' ');
    SplitJoin(parts, ' ');
    ParseIntString(c.minute, []);
    ParseIntString(c.hour, []);
    assert IntString(c.minute) + [] == IntString(c.minute);
    assert IntString(c.hour) + [] == IntString(c.hour);
  }

  predicate ValidClock(hour: int, minute: int) {
    0 <= hour < 24 && 0 <= minute < 60
  }

  /** The hour and minute `timeToCron` reads: `parseInt` of the text before
      the first colon and of the text after it up to the next colon; the
      minute is NaN when there is no colon. */
  function ClockFields(timeStr: Option<string>): (Option<int>, Option<int>) {
    var text := if timeStr.Some? then timeStr.value else "";
    var parts := Split(text, ':');
    (ParseInt(parts[0]), if |parts| > 1 then ParseInt(parts[1]) else None)
  }

  /** `timeToCron`: the configured time when both fields read as numbers on
      the clock, otherwise the trigger's default. */
  function TimeToCron(timeStr: Option<string>, defaultHour: int, defaultMin: int): (c: Cron)
    ensures ValidClock(c.hour, c.minute) || c == Daily(defaultMin, defaultHour)
    ensures ValidClock(defaultHour, defaultMin) ==> ValidClock(c.hour, c.minute)
  {
    var (h, m) := ClockFields(timeStr);
    if h.Some? && m.Some? && ValidClock(h.value, m.value) then Daily(m.value, h.value)
    else Daily(defaultMin, defaultHour)
  }

  /** Two-digit, zero-padded, as in `"07"`. */
  function Pad2(n: nat): (s: string)
    ensures AllDigits(s)
  {
    if n < 10 then "0" + Decimal(n) else Decimal(n)
  }

  lemma ParsePad2(n: nat)
    ensures ParseInt(Pad2(n)) == Some(n)
  {
    if n < 10 {
      ParseIntZeroPadded(n, []);
      assert "0" + Decimal(n) + [] == Pad2(n);
    } else {
      ParseIntString(n, []);
      assert IntString(n) + [] == Pad2(n);
    }
  }

  /** Every time on the clock written as `HH:MM` is scheduled at that time,
      whatever the default. */
  lemma TimeToCronReadsClock(h: nat, m: nat, defaultHour: int, defaultMin: int)
    requires ValidClock(h, m)
    ensures TimeToCron(Some(Pad2(h) + ":" + Pad2(m)), defaultHour, defaultMin) == Daily(m, h)
  {
    var parts := [Pad2(h), Pad2(m)];
    assert Join(parts, ':') == Pad2(h) + ":" + Pad2(m);
    SplitJoin(parts, ':');
    ParsePad2(h);
    ParsePad2(m);
  }

  lemma ClockFieldsOf(h: string, m: string, rest: string)
    requires h != [] && AllDigits(h) && m != [] && AllDigits(m)
    requires ':' !in rest && (rest == [] || !IsDigit(rest[0]))
    ensures ClockFields(Some(h + ":" + m + rest)) == (Some(DigitsValue(h)), Some(DigitsValue(m)))
  {
    assert ':' !in h && ':' !in m + rest;
    assert Join([h, m + rest], ':') == h + ":" + m + rest;
    SplitJoin([h, m + rest], ':');
    ParseUnsigned(h, []);
    assert h + [] == h;
    ParseUnsigned(m, rest);
  }

  /** A time whose hour and minute are digits on the clock is scheduled
      at that time, whatever follows the minute and whatever the default. */
  lemma TimeOfDigits(h: string, m: string, rest: string, defaultHour: int, defaultMin: int)
    requires h != [] && AllDigits(h) && m != [] && AllDigits(m)
    requires ':' !in rest && (rest == [] || !IsDigit(rest[0]))
    requires ValidClock(DigitsValue(h), DigitsValue(m))
    ensures TimeToCron(Some(h + ":" + m + rest), defaultHour, defaultMin) == Daily(DigitsValue(m), DigitsValue(h))
  {
    ClockFieldsOf(h, m, rest);
  }

  /** Text after the minute is ignored: `"7:30pm"` is 7:30. */
  lemma TimeWithSuffix()
    ensures TimeToCron(Some("7:30pm"), 19, 0) == Daily(30, 7)
  {
    TwoDigitsValue('3', '0');
    assert DigitsValue("7") == 7;
    TimeOfDigits("7", "30", "pm", 19, 0);
    assert "7" + ":" + "30" + "pm" == "7:30pm";
  }

  lemma TwoDigitsValue(tens: char, ones: char)
    requires IsDigit(tens) && IsDigit(ones)
    ensures DigitsValue([tens, ones]) == 10 * DigitValue(tens) + DigitValue(ones)
  {
    assert [tens][..0] == [];
    assert DigitsValue([tens]) == DigitValue(tens);
    assert [tens, ones][..1] == [tens];
  }

  /** An hour or minute off the clock falls back to the default. */
  lemma TimeOutOfRange()
    ensures TimeToCron(Some("25:99"), 19, 0) == Daily(0, 19)
  {
    TwoDigitsValue('2', '5');
    TimeOffClock("25", "99", "", 19, 0);
    assert "25" + ":" + "99" + "" == "25:99";
  }

  /** A time without a colon has a NaN minute, so it always falls back to
      the default, whatever it says before. */
  lemma TimeWithoutColon(s: string, defaultHour: int, defaultMin: int)
    requires ':' !in s
    ensures TimeToCron(Some(s), defaultHour, defaultMin) == Daily(defaultMin, defaultHour)
  {
    SplitNoSep(s, ':');
  }

  /** A time whose hour or minute reads as a number off the clock falls
      back to the default. */
  lemma TimeOffClock(h: string, m: string, rest: string, defaultHour: int, defaultMin: int)
    requires h != [] && AllDigits(h) && m != [] && AllDigits(m)
    requires ':' !in rest && (rest == [] || !IsDigit(rest[0]))
    requires !ValidClock(DigitsValue(h), DigitsValue(m))
    ensures TimeToCron(Some(h + ":" + m + rest), defaultHour, defaultMin) == Daily(defaultMin, defaultHour)
  {
    ClockFieldsOf(h, m, rest);
  }

  /** A time whose hour field holds no digit has a NaN hour, so it falls
      back to the default, whatever follows the colon. */
  lemma TimeWithoutHour(h: string, rest: string, defaultHour: int, defaultMin: int)
    requires ':' !in h && forall i :: 0 <= i < |h| ==> !IsDigit(h[i])
    ensures TimeToCron(Some(h + ":" + rest), defaultHour, defaultMin) == Daily(defaultMin, defaultHour)
  {
    SplitAppend(h, rest, ':');
    assert h + ":" + rest == h + [':'] + rest;
    ParseIntNoDigit(h);
  }

  /** A minute field with no digit, as in `"19:"` or `"7:pm"`, is NaN, so
      the time falls back to the default whatever the hour says. */
  lemma TimeWithoutMinuteDigit(h: string, m: string, defaultHour: int, defaultMin: int)
    requires ':' !in h && ':' !in m && forall i :: 0 <= i < |m| ==> !IsDigit(m[i])
    ensures TimeToCron(Some(h + ":" + m), defaultHour, defaultMin) == Daily(defaultMin, defaultHour)
  {
    assert Join([h, m], ':') == h + ":" + m;
    SplitJoin([h, m], ':');
    ParseIntNoDigit(m);
  }

  /** A missing minute falls back to the default: `"19"` alone gives a NaN
      minute. */
  lemma TimeWithoutMinute()
    ensures TimeToCron(Some("19"), 22, 0) == Daily(0, 22)
  {
    TimeWithoutColon("19", 22, 0);
  }

  /** An absent or empty time falls back to the default. */
  lemma TimeMissing(defaultHour: int, defaultMin: int)
    ensures TimeToCron(None, defaultHour, defaultMin) == Daily(defaultMin, defaultHour)
    ensures TimeToCron(Some(""), defaultHour, defaultMin) == Daily(defaultMin, defaultHour)
  {
    assert Split("", ':') == [""];
  }

  /** `getSetting(key) || fallback`: an absent or empty setting gives the
      fallback. */
  function ReportTime(setting: Option<string>, fallback: string): (t: string)
    ensures setting.None? || setting.value == "" ==> t == fallback
    ensures setting.Some? && setting.value != "" ==> t == setting.value
    ensures fallback != [] ==> t != []
  {
    if setting.None? || setting.value == "" then fallback else setting.value
  }

  /** A registered trigger: the label its reports carry (the report time as
      configured) and when it fires. */
  datatype Trigger = Trigger(timeLabel: string, cron: Cron)

  /** The trigger for one report: labelled with the report time, falling
      back to `fallback` when unset, firing at that time or at
      `defaultHour:defaultMin`. */
  function TriggerFor(setting: Option<string>, fallback: string, defaultHour: int, defaultMin: int): (t: Trigger)
    requires fallback != [] && ValidClock(defaultHour, defaultMin)
    ensures t.timeLabel == ReportTime(setting, fallback)
    ensures t.cron == TimeToCron(Some(t.timeLabel), defaultHour, defaultMin)
    ensures ValidClock(t.cron.hour, t.cron.minute) && t.timeLabel != []
  {
    var time := ReportTime(setting, fallback);
    Trigger(time, TimeToCron(Some(time), defaultHour, defaultMin))
  }

  /** The two triggers: the first defaults to 19:00 and the second to 22:00,
      both for an absent setting and for one `timeToCron` cannot read. */
  function Triggers(time1: Option<string>, time2: Option<string>): (ts: seq<Trigger>)
    ensures |ts| == 2
    ensures ts[0] == TriggerFor(time1, "19:00", 19, 0) && ts[1] == TriggerFor(time2, "22:00", 22, 0)
    ensures forall i :: 0 <= i < 2 ==> ValidClock(ts[i].cron.hour, ts[i].cron.minute) && ts[i].timeLabel != []
  {
    var first := TriggerFor(time1, "19:00", 19, 0);
    var second := TriggerFor(time2, "22:00", 22, 0);
    [first, second]
  }

  /** A configured first report time on the clock is both the label and
      the time the first report fires. */
  lemma ConfiguredFirstTrigger(h: nat, m: nat, time2: Option<string>)
    requires ValidClock(h, m)
    ensures Triggers(Some(Pad2(h) + ":" + Pad2(m)), time2)[0] == Trigger(Pad2(h) + ":" + Pad2(m), Daily(m, h))
  {
    TimeToCronReadsClock(h, m, 19, 0);
  }

  /** The same for the second report. */
  lemma ConfiguredSecondTrigger(time1: Option<string>, h: nat, m: nat)
    requires ValidClock(h, m)
    ensures Triggers(time1, Some(Pad2(h) + ":" + Pad2(m)))[1] == Trigger(Pad2(h) + ":" + Pad2(m), Daily(m, h))
  {
    TimeToCronReadsClock(h, m, 22, 0);
  }

  lemma FirstDefaultRead()
    ensures TimeToCron(Some("19:00"), 19, 0) == Daily(0, 19)
  {
    TwoDigitsValue('1', '9');
    TwoDigitsValue('0', '0');
    TimeOfDigits("19", "00", "", 19, 0);
    assert "19" + ":" + "00" + "" == "19:00";
  }

  lemma SecondDefaultRead()
    ensures TimeToCron(Some("22:00"), 22, 0) == Daily(0, 22)
  {
    TwoDigitsValue('2', '2');
    TwoDigitsValue('0', '0');
    TimeOfDigits("22", "00", "", 22, 0);
    assert "22" + ":" + "00" + "" == "22:00";
  }

  /** With nothing configured the reports go out at 19:00 and 22:00. */
  lemma DefaultTriggers()
    ensures Triggers(None, Some("")) == [Trigger("19:00", Daily(0, 19)), Trigger("22:00", Daily(0, 22))]
  {
    FirstDefaultRead();
    SecondDefaultRead();
  }

  /** A time the scheduler cannot read keeps its text as the label but
      fires at the default. */
  lemma UnreadableTimeTrigger()
    ensures Triggers(Some("25:99"), None)[0] == Trigger("25:99", Daily(0, 19))
  {
    TimeOutOfRange();
  }

  // ---------------------------------------------------------------------------
  // Dispatch
  // ---------------------------------------------------------------------------

  /** Whether the bot could be obtained. */
  datatype BotLookup = BotReady | BotMissing(message: string)

  /** Whether reading the day key succeeded, or the message it threw. */
  datatype DayKeyLookup = DayKeyRead | DayKeyThrew(message: string)

  /** What building the report did: its text, or the message it threw. */
  datatype Build = Built(text: string) | BuildThrew(message: string)

  /** What one `sendMessage` call did. */
  datatype SendResult = Delivered | SendRejected(message: string)

  /** One `sendMessage` call: to whom, with which text, and its outcome. */
  datatype Attempt = Attempt(recipient: RecipientId, text: string, result: SendResult)

  /** The lines the dispatch writes to the console. */
  datatype LogLine =
    | NoRecipientsWarning
    | BotUnavailable(message: string)
    | BuildError(message: string)
    | SentTo(timeLabel: string, recipient: RecipientId)
    | SendError(recipient: RecipientId, message: string)

  /** The text sent: the report, or the error notice that replaces it. */
  function ReportText(timeLabel: string, build: Build): (text: string)
    ensures build.Built? ==> text == build.text
    ensures build.BuildThrew? ==> text == "\U{274C} Error generating " + timeLabel + " report: " + build.message
  {
    match build
    case Built(t) => t
    case BuildThrew(m) => "\U{274C} Error generating " + timeLabel + " report: " + m
  }

  function AttemptLine(timeLabel: string, a: Attempt): LogLine {
    match a.result
    case Delivered => SentTo(timeLabel, a.recipient)
    case SendRejected(m) => SendError(a.recipient, m)
  }

  /** `sendScheduledReport(label)`. With no recipients, or without a bot,
      nothing is sent. Reading the day key is not guarded: when it throws,
      nothing is sent or logged and the call rejects with that message
      (`thrown`), which the trigger's callback passes to the console.
      Otherwise one text is fixed (the report, or the error notice when
      building it threw) and every recipient is sent it exactly once, in
      list order; the outcome of each send is its own (`send(i, id)` is
      what the i-th call returns), a failure is logged and the loop goes
      on, and nothing is retried. */
  method SendScheduledReport(timeLabel: string, ids: seq<RecipientId>, bot: BotLookup, day: DayKeyLookup, build: Build,
                             send: (nat, RecipientId) -> SendResult)
    returns (attempts: seq<Attempt>, log: seq<LogLine>, thrown: Option<string>)
    ensures ids == [] ==> attempts == [] && log == [NoRecipientsWarning] && thrown == None
    ensures ids != [] && bot.BotMissing? ==> attempts == [] && log == [BotUnavailable(bot.message)] && thrown == None
    ensures ids != [] && bot.BotReady? && day.DayKeyThrew? ==> attempts == [] && log == [] && thrown == Some(day.message)
    ensures ids != [] && bot.BotReady? && day.DayKeyRead? ==>
      && thrown == None
      && |attempts| == |ids|
      && (forall i :: 0 <= i < |ids| ==>
            attempts[i] == Attempt(ids[i], ReportText(timeLabel, build), send(i, ids[i])))
      && log == (if build.BuildThrew? then [BuildError(build.message)] else [])
                + seq(|ids|, i requires 0 <= i < |ids| => AttemptLine(timeLabel, attempts[i]))
  {
    attempts := [];
    thrown := None;
    if ids == [] {
      log := [NoRecipientsWarning];
      return;
    }
    if bot.BotMissing? {
      log := [BotUnavailable(bot.message)];
      return;
    }
    if day.DayKeyThrew? {
      log := [];
      thrown := Some(day.message);
      return;
    }
    var report: string;
    match build {
      case Built(t) =>
        log := [];
        report := t;
      case BuildThrew(m) =>
        log := [BuildError(m)];
        report := "\U{274C} Error generating " + timeLabel + " report: " + m;
    }
    ghost var head := log;
    var i := 0;
    while i < |ids|
      invariant 0 <= i <= |ids|
      invariant |attempts| == i
      invariant forall j :: 0 <= j < i ==> attempts[j] == Attempt(ids[j], report, send(j, ids[j]))
      invariant log == head + seq(i, j requires 0 <= j < i => AttemptLine(timeLabel, attempts[j]))
    {
      var result := send(i, ids[i]);
      attempts := attempts + [Attempt(ids[i], report, result)];
      log := log + [AttemptLine(timeLabel, attempts[i])];
      i := i + 1;
    }
  }
}
