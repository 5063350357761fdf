/** The decisions the 7-day history page takes for each day card
    (public/history.js): which colour the intake bar gets, how wide it is,
    which per-fluid chips appear, when a day collapses to "No data logged",
    how each wellness cell is shown and which trend arrow it carries, and how
    each day is paired with the day before it. The markup itself is not
    modelled: each decision is a value of a datatype below. */
module History {
  import opened Options

  // ---------------------------------------------------------------------------
  // The day records the history endpoint returns
  // ---------------------------------------------------------------------------

  /** One wellness check: each score is absent (`None`) or a number; 0 is a
      real score. */
  datatype Check = Check(appetite: Option<int>, energy: Option<int>, mood: Option<int>, cyanosis: Option<int>)

  datatype Field = Appetite | Energy | Mood | Cyanosis

  function Score(c: Check, f: Field): Option<int> {
    match f
    case Appetite => c.appetite
    case Energy => c.energy
    case Mood => c.mood
    case Cyanosis => c.cyanosis
  }

  /** The two daily check slots; `None` is a slot with no check (`null`). */
  datatype Wellness = Wellness(afternoon: Option<Check>, evening: Option<Check>)

  /** `byType` is the list of `Object.entries` of the per-fluid totals, in
      the order the object holds them. */
  datatype Intake = Intake(totalMl: int, limitMl: int, percent: int, byType: seq<(string, int)>)

  datatype OutputEntry = OutputEntry(time: string, fluidType: string, amountMl: Option<int>)

  datatype DaySummary = DaySummary(
    dayLabel: string,
    isToday: bool,
    intake: Intake,
    outputs: seq<OutputEntry>,
    gagCount: int,
    wellness: Wellness)

  // ---------------------------------------------------------------------------
  // Intake section
  // ---------------------------------------------------------------------------

  /** The colour class of the intake bar; `Plain` is the empty class. */
  datatype Tier = Plain | Yellow | Red | Over

  /** The tiers in increasing severity. */
  function Rank(t: Tier): nat {
    match t
    case Plain => 0
    case Yellow => 1
    case Red => 2
    case Over => 3
  }

  /** The percentages at which the bar turns red and yellow; they are
      fixed in the page and do not follow the configured thresholds. */
  const RedPercent := 90
  const YellowPercent := 70

  /** The colour of the intake bar: over the limit first, then the red and
      yellow percentages. */
  function IntakeTier(totalMl: int, limitMl: int, percent: int): (t: Tier)
    ensures t == Over <==> totalMl > limitMl
    ensures t == Red <==> totalMl <= limitMl && percent >= RedPercent
    ensures t == Yellow <==> totalMl <= limitMl && YellowPercent <= percent < RedPercent
    ensures t == Plain <==> totalMl <= limitMl && percent < YellowPercent
  {
    if totalMl > limitMl then Over
    else if percent >= RedPercent then Red
    else if percent >= YellowPercent then Yellow
    else Plain
  }

  /** Within the limit, a higher percentage never gives a milder colour. */
  lemma TierMonotone(totalMl: int, limitMl: int, p: int, q: int)
    requires totalMl <= limitMl && p <= q
    ensures Rank(IntakeTier(totalMl, limitMl, p)) <= Rank(IntakeTier(totalMl, limitMl, q))
  {
  }

  /** Over the limit the bar is `over` whatever percentage the server sent,
      even one the red or yellow rule would not reach. */
  lemma OverIgnoresPercent(totalMl: int, limitMl: int, p: int, q: int)
    requires totalMl > limitMl
    ensures IntakeTier(totalMl, limitMl, p) == IntakeTier(totalMl, limitMl, q) == Over
  {
  }

  /** The width of the bar in percent: the percentage, capped at 100. */
  function BarWidth(percent: int): (w: int)
    ensures w <= 100
    ensures percent <= 100 ==> w == percent
    ensures percent > 100 ==> w == 100
  {
    if percent < 100 then percent else 100
  }

  /** The per-fluid chips: the entries with a positive amount, in order. */
  function Chips(byType: seq<(string, int)>): (chips: seq<(string, int)>)
    ensures |chips| <= |byType|
    ensures forall e :: e in chips <==> e in byType && e.1 > 0
  {
    if byType == [] then []
    else if byType[0].1 > 0 then [byType[0]] + Chips(byType[1..])
    else Chips(byType[1..])
  }

  /** The chips keep the order of the entries: the chips of a concatenation
      are the chips of each part, one after the other. */
  lemma {:induction false} ChipsAppend(a: seq<(string, int)>, b: seq<(string, int)>)
    ensures Chips(a + b) == Chips(a) + Chips(b)
  {
    if a == [] {
      assert a + b == b;
    } else {
      assert (a + b)[0] == a[0];
      assert (a + b)[1..] == a[1..] + b;
      ChipsAppend(a[1..], b);
    }
  }

  datatype IntakeView = IntakeView(totalMl: int, limitMl: int, percent: int, barWidth: int, tier: Tier, chips: seq<(string, int)>)

  /** What the intake section shows: the numbers as sent, the capped bar,
      its colour and the chips. */
  function IntakeSection(intake: Intake): (v: IntakeView)
    ensures v.totalMl == intake.totalMl && v.limitMl == intake.limitMl && v.percent == intake.percent
    ensures v.barWidth == BarWidth(intake.percent)
    ensures v.barWidth <= 100
    ensures intake.percent <= 100 ==> v.barWidth == intake.percent
    ensures intake.percent > 100 ==> v.barWidth == 100
    ensures v.tier == Over <==> intake.totalMl > intake.limitMl
    ensures v.tier == IntakeTier(intake.totalMl, intake.limitMl, intake.percent)
    ensures v.chips == Chips(intake.byType)
    ensures forall e :: e in v.chips ==> e.1 > 0
  {
    IntakeView(intake.totalMl, intake.limitMl, intake.percent, BarWidth(intake.percent),
               IntakeTier(intake.totalMl, intake.limitMl, intake.percent), Chips(intake.byType))
  }

  // ---------------------------------------------------------------------------
  // Gag and output sections
  // ---------------------------------------------------------------------------

  datatype GagView = NoGags | Gags(count: int)

  /** The gag section shows the count when it is positive, "None" otherwise. */
  function GagSection(count: int): (g: GagView)
    ensures g.Gags? <==> count > 0
    ensures g.Gags? ==> g.count == count
  {
    if count > 0 then Gags(count) else NoGags
  }

  /** One row of the output list; `amount` is shown only when present and
      non-zero. */
  datatype OutputRow = OutputRow(time: string, fluidType: string, amount: Option<int>)

  function OutputRowOf(o: OutputEntry): OutputRow {
    OutputRow(o.time, o.fluidType,
              if o.amountMl.Some? && o.amountMl.value != 0 then o.amountMl else None)
  }

  /** The outputs are listed one row per entry, in the order received; an
      absent or zero amount is left blank. */
  function OutputsSection(outputs: seq<OutputEntry>): (rows: seq<OutputRow>)
    ensures |rows| == |outputs|
    ensures forall i :: 0 <= i < |outputs| ==>
      rows[i].time == outputs[i].time && rows[i].fluidType == outputs[i].fluidType &&
      (rows[i].amount.Some? <==> outputs[i].amountMl.Some? && outputs[i].amountMl.value != 0) &&
      (rows[i].amount.Some? ==> rows[i].amount == outputs[i].amountMl)
  {
    seq(|outputs|, i requires 0 <= i < |outputs| => OutputRowOf(outputs[i]))
  }

  // ---------------------------------------------------------------------------
  // Wellness section
  // ---------------------------------------------------------------------------

  datatype Trend = Up | Down | Flat

  /** The arrow beside a score: compared with the same score the evening
      before; no arrow when either is missing. */
  function TrendOf(curr: Option<int>, prev: Option<int>): (t: Option<Trend>)
    ensures t == None <==> curr.None? || prev.None?
    ensures t == Some(Up) <==> curr.Some? && prev.Some? && curr.value > prev.value
    ensures t == Some(Down) <==> curr.Some? && prev.Some? && curr.value < prev.value
    ensures t == Some(Flat) <==> curr.Some? && prev.Some? && curr.value == prev.value
  {
    if curr.None? || prev.None? then None
    else if curr.value > prev.value then Some(Up)
    else if curr.value < prev.value then Some(Down)
    else Some(Flat)
  }

  function Flip(t: Option<Trend>): Option<Trend> {
    match t
    case Some(Up) => Some(Down)
    case Some(Down) => Some(Up)
    case _ => t
  }

  /** Swapping today and yesterday swaps up and down and keeps flat and
      "no arrow". */
  lemma TrendSwap(curr: Option<int>, prev: Option<int>)
    ensures TrendOf(prev, curr) == Flip(TrendOf(curr, prev))
  {
  }

  /** A cell of the wellness table: a dash for "no data", otherwise the
      value with an optional arrow. */
  datatype Cell = Dash | Value(v: int, trend: Option<Trend>)

  function SlotScore(slot: Option<Check>, f: Field): Option<int> {
    if slot.None? then None else Score(slot.value, f)
  }

  /** One cell. The arrow, when asked for, always compares this day's
      evening with the previous day's evening. */
  function ValCell(check: Option<Check>, f: Field, showTrend: bool, evening: Option<Check>, prevEvening: Option<Check>): (c: Cell)
    ensures c == Dash <==> SlotScore(check, f).None?
    ensures c.Value? ==> c.v == SlotScore(check, f).value
    ensures c.Value? && !showTrend ==> c.trend == None
  {
    if check.None? then Dash
    else
      match Score(check.value, f)
      case None => Dash
      case Some(v) =>
        Value(v, if showTrend then TrendOf(SlotScore(evening, f), SlotScore(prevEvening, f)) else None)
  }

  /** The rows of the table and whether their evening column carries an
      arrow: only energy and cyanosis do. */
  const Rows: seq<(Field, bool)> := [(Appetite, false), (Energy, true), (Mood, false), (Cyanosis, true)]

  datatype Row = Row(field: Field, afternoon: Cell, evening: Cell)

  datatype WellnessView = NoWellnessLogged | Table(rows: seq<Row>)

  function RowOf(w: Wellness, prevEvening: Option<Check>, r: (Field, bool)): Row {
    Row(r.0, ValCell(w.afternoon, r.0, false, w.evening, prevEvening),
             ValCell(w.evening, r.0, r.1, w.evening, prevEvening))
  }

  /** The wellness section: "No wellness check logged" when neither slot has
      a check, otherwise the four-row table. */
  function WellnessSection(w: Wellness, prev: Option<Wellness>): (v: WellnessView)
    ensures v == NoWellnessLogged <==> w.afternoon.None? && w.evening.None?
    ensures v.Table? ==> |v.rows| == |Rows|
  {
    if w.afternoon.None? && w.evening.None? then NoWellnessLogged
    else
      var prevEvening := if prev.Some? then prev.value.evening else None;
      Table(seq(|Rows|, i requires 0 <= i < |Rows| => RowOf(w, prevEvening, Rows[i])))
  }

  function TrendField(f: Field): bool {
    f == Energy || f == Cyanosis
  }

  /** What every table cell shows: a dash exactly when the check or its
      score is missing (a zero score is shown as 0); the afternoon column
      never has an arrow; the evening column has one only for energy and
      cyanosis, comparing with the previous day's evening score. */
  lemma WellnessCells(w: Wellness, prev: Option<Wellness>, i: int)
    requires WellnessSection(w, prev).Table? && 0 <= i < |Rows|
    ensures var row := WellnessSection(w, prev).rows[i];
      var f := row.field;
      var prevEvening := if prev.Some? then prev.value.evening else None;
      && f == Rows[i].0
      && (row.afternoon == Dash <==> SlotScore(w.afternoon, f).None?)
      && (row.evening == Dash <==> SlotScore(w.evening, f).None?)
      && (row.afternoon.Value? ==> row.afternoon == Value(SlotScore(w.afternoon, f).value, None))
      && (row.evening.Value? ==> row.evening == Value(SlotScore(w.evening, f).value,
            if TrendField(f) then TrendOf(SlotScore(w.evening, f), SlotScore(prevEvening, f)) else None))
  {
  }

  // ---------------------------------------------------------------------------
  // Day cards and the page
  // ---------------------------------------------------------------------------

  /** A day with anything logged: intake above zero, an output, a gag or a
      wellness check in either slot. */
  predicate HasAnyData(day: DaySummary) {
    || day.intake.totalMl > 0
    || |day.outputs| > 0
    || day.gagCount > 0
    || day.wellness.afternoon.Some?
    || day.wellness.evening.Some?
  }

  datatype Card =
    | CollapsedCard(dayLabel: string)
    | FullCard(dayLabel: string, isToday: bool, intake: IntakeView, gags: GagView, outputs: seq<OutputRow>, wellness: WellnessView)

  /** One day card: collapsed to "No data logged for this day" for an empty
      day other than today, otherwise all four sections. */
  function DayCard(day: DaySummary, prev: Option<DaySummary>): (c: Card)
    ensures c.CollapsedCard? <==> !day.isToday && !HasAnyData(day)
    ensures c.dayLabel == day.dayLabel
    ensures c.FullCard? ==>
      && c.isToday == day.isToday
      && c.intake == IntakeSection(day.intake)
      && c.gags == GagSection(day.gagCount)
      && c.outputs == OutputsSection(day.outputs)
      && c.wellness == WellnessSection(day.wellness, if prev.Some? then Some(prev.value.wellness) else None)
  {
    if !HasAnyData(day) && !day.isToday then CollapsedCard(day.dayLabel)
    else FullCard(day.dayLabel, day.isToday, IntakeSection(day.intake), GagSection(day.gagCount),
                  OutputsSection(day.outputs),
                  WellnessSection(day.wellness, if prev.Some? then Some(prev.value.wellness) else None))
  }

  /** Today is always shown in full, and so is a day whose only entry is a
      gag, whose card then shows the count. */
  lemma NeverCollapsed(day: DaySummary, prev: Option<DaySummary>)
    ensures day.isToday ==> DayCard(day, prev).FullCard?
    ensures day.gagCount > 0 ==> DayCard(day, prev).FullCard? && DayCard(day, prev).gags == Gags(day.gagCount)
  {
  }

  datatype HistoryView = NoHistory | Cards(cards: seq<Card>)

  /** The day after `days[i]` in the list (the older one), if any. */
  function Older(days: seq<DaySummary>, i: int): Option<DaySummary>
    requires 0 <= i < |days|
  {
    if i + 1 < |days| then Some(days[i + 1]) else None
  }

  /** The page: "No history found" for no days, otherwise one card per day in
      the order received, each paired with the next (older) day. */
  function RenderHistory(days: seq<DaySummary>): (v: HistoryView)
    ensures v == NoHistory <==> days == []
    ensures v.Cards? ==> |v.cards| == |days|
    ensures v.Cards? ==> forall i :: 0 <= i < |days| ==> v.cards[i] == DayCard(days[i], Older(days, i))
  {
    if days == [] then NoHistory
    else Cards(seq(|days|, i requires 0 <= i < |days| => DayCard(days[i], Older(days, i))))
  }

  function EveningScore(day: DaySummary, f: Field): Option<int> {
    SlotScore(day.wellness.evening, f)
  }

  /** The arrow on a day's evening energy or cyanosis compares that day's
      evening score with the evening score of the next day in the list; the
      last (oldest) day never has an arrow. */
  lemma TrendAgainstOlderDay(days: seq<DaySummary>, i: int, k: int)
    requires 0 <= i < |days| && 0 <= k < |Rows|
    requires RenderHistory(days).Cards?
    requires RenderHistory(days).cards[i].FullCard?
    requires RenderHistory(days).cards[i].wellness.Table?
    ensures var cell := RenderHistory(days).cards[i].wellness.rows[k].evening;
      var f := Rows[k].0;
      cell.Value? ==>
        cell.trend == (if !TrendField(f) || i + 1 == |days| then None
                       else TrendOf(EveningScore(days[i], f), EveningScore(days[i + 1], f)))
  {
    var card := RenderHistory(days).cards[i];
    assert card == DayCard(days[i], Older(days, i));
    var prev := if i + 1 < |days| then Some(days[i + 1].wellness) else None;
    assert card.wellness == WellnessSection(days[i].wellness, prev);
    WellnessCells(days[i].wellness, prev, k);
  }
}
