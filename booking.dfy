/**
 The date and time step of the booking flow. The page offers the next fourteen days
 and three arrival windows; picking a day clears the window picked before; the
 continue button hands the chosen day and window to the booking store and moves on
 to the confirmation page, and is disabled until both are chosen.

 Days are whole calendar days counted from 1970-01-01 (a Thursday) in local time.
 The calendar's day of the month and month are parameters (`dayOfMonth`, `month`);
 the clock is a parameter too (`today` when the page opened, `now` when it is drawn).
 */
module Booking {
  import opened Wrappers

  type Day = int

  // ---------------------------------------------------------------------------
  // The days offered

  const WindowLength := 14

  /** The date cards: today and the thirteen days after it. */
  function Dates(today: Day): seq<Day> {
    seq(WindowLength, i => today + i)
  }

  /** The cards run over fourteen consecutive days starting today, and a day has a
      card exactly when it lies in that window. */
  lemma DatesWindow(today: Day)
    ensures |Dates(today)| == 14 && Dates(today)[0] == today
    ensures forall i :: 0 <= i < |Dates(today)| ==> Dates(today)[i] == today + i
    ensures forall i, j :: 0 <= i < j < |Dates(today)| ==> Dates(today)[i] < Dates(today)[j]
    ensures forall d :: d in Dates(today) <==> today <= d < today + 14
  {
    forall d | today <= d < today + 14 ensures d in Dates(today) {
      assert Dates(today)[d - today] == d;
    }
  }

  // ---------------------------------------------------------------------------
  // The arrival windows offered

  datatype TimeSlot = TimeSlot(time: string, period: string, description: string)

  const TimeSlots := [
    TimeSlot("9:00am - 12:00pm", "Morning", "Start your day fresh"),
    TimeSlot("12:30pm - 3:30pm", "Afternoon", "Midday convenience"),
    TimeSlot("4:00pm - 7:00pm", "Evening", "After work hours")
  ]

  /** The labels of the time slots, in the order they are shown. */
  function TimeLabels(): seq<string> {
    seq(|TimeSlots|, i requires 0 <= i < |TimeSlots| => TimeSlots[i].time)
  }

  /** Exactly three windows are offered, in this order, with distinct non-empty labels. */
  lemma TimeLabelsFixed()
    ensures TimeLabels() == ["9:00am - 12:00pm", "12:30pm - 3:30pm", "4:00pm - 7:00pm"]
    ensures forall i, j :: 0 <= i < j < |TimeLabels()| ==> TimeLabels()[i] != TimeLabels()[j]
    ensures forall t :: t in TimeLabels() ==> t != ""
  {
    var labels := TimeLabels();
    assert labels[0] == "9:00am - 12:00pm";
    assert labels[1] == "12:30pm - 3:30pm";
    assert labels[2] == "4:00pm - 7:00pm";
  }

  // ---------------------------------------------------------------------------
  // How a date card is drawn

  /** The highlight of a date card: the chosen day has the card's day of the month
      and month. The year is not compared. */
  function IsSelected(selected: Option<Day>, date: Day, dayOfMonth: Day -> int, month: Day -> int): bool {
    selected.Some? && dayOfMonth(selected.value) == dayOfMonth(date) && month(selected.value) == month(date)
  }

  /** A property of every calendar: two different days less than 28 days apart fall
      on different days of the month, since no month is shorter than 28 days. */
  ghost predicate MonthsAtLeast28Days(dayOfMonth: Day -> int) {
    forall a: Day, b: Day :: a < b < a + 28 ==> dayOfMonth(a) != dayOfMonth(b)
  }

  /** Within the fourteen-day window, comparing only day of month and month is
      enough: a card is highlighted exactly when it is the chosen day, and no card is
      highlighted before a day is chosen. */
  lemma HighlightIsSelection(
    today: Day, selected: Option<Day>, i: nat, dayOfMonth: Day -> int, month: Day -> int)
    requires MonthsAtLeast28Days(dayOfMonth)
    requires selected.Some? ==> selected.value in Dates(today)
    requires i < WindowLength
    ensures IsSelected(selected, Dates(today)[i], dayOfMonth, month) <==> selected == Some(Dates(today)[i])
  {
    DatesWindow(today);
    if selected.Some? {
      var a, b := selected.value, Dates(today)[i];
      if a < b {
        assert dayOfMonth(a) != dayOfMonth(b);
      } else if b < a {
        assert dayOfMonth(b) != dayOfMonth(a);
      }
    }
  }

  const WeekdayAbbreviations := ["Sun", "Mon", "Tue", "Wed", "Thu", "Fri", "Sat"]

  /** The day of the week, 0 for Sunday: day 0 was a Thursday. */
  function Weekday(d: Day): (w: nat)
    ensures w < 7
  {
    (d + 4) % 7
  }

  /** The small label of a date card, drawn at day `now`: "Today", "Tomorrow", or
      the abbreviated day of the week. */
  function DateLabel(date: Day, now: Day): string {
    if date == now then "Today"
    else if date == now + 1 then "Tomorrow"
    else WeekdayAbbreviations[Weekday(date)]
  }

  /** Drawn on the day the page opened, the first card says "Today", the second
      "Tomorrow", and every later one its day of the week. */
  lemma DateLabels(today: Day, i: nat)
    requires i < WindowLength
    ensures DateLabel(Dates(today)[i], today)
      == if i == 0 then "Today" else if i == 1 then "Tomorrow"
         else WeekdayAbbreviations[Weekday(today + i)]
  {
  }

  /** The cards are made once, when the page opens, but labelled against the clock
      each time they are drawn: drawn a day later, the first card shows its day of
      the week and the second says "Today". */
  lemma DateLabelsNextDay(today: Day)
    ensures DateLabel(Dates(today)[0], today + 1) == WeekdayAbbreviations[Weekday(today)]
    ensures DateLabel(Dates(today)[1], today + 1) == "Today"
    ensures DateLabel(Dates(today)[2], today + 1) == "Tomorrow"
  {
  }

  /** Seven consecutive days fall on seven different days of the week. */
  lemma WeekdaysDiffer(d: Day, k: nat)
    requires 0 < k < 7
    ensures Weekday(d + k) != Weekday(d)
  {
    var q, r := (d + 4) / 7, (d + 4) % 7;
    assert d + 4 == 7 * q + r;
    if r + k < 7 {
      assert d + k + 4 == 7 * q + (r + k);
    } else {
      assert d + k + 4 == 7 * (q + 1) + (r + k - 7);
    }
  }

  /** A week later the day of the week is the same. */
  lemma WeekdayPeriodic(d: Day)
    ensures Weekday(d + 7) == Weekday(d)
  {
    var q, r := (d + 4) / 7, (d + 4) % 7;
    assert d + 7 + 4 == 7 * (q + 1) + r;
  }

  /** The cards from the third on show each weekday name once before repeating:
      two of them carry the same label exactly when they are a week apart. */
  lemma WeekdayLabelsRepeatWeekly(today: Day, i: nat, j: nat)
    requires 2 <= i < j < WindowLength
    ensures DateLabel(Dates(today)[i], today) == DateLabel(Dates(today)[j], today) <==> j == i + 7
  {
    assert forall x, y :: 0 <= x < 7 && 0 <= y < 7 ==>
      (WeekdayAbbreviations[x] == WeekdayAbbreviations[y] <==> x == y);
    WeekdayPeriodic(today + i);
    if j < i + 7 {
      WeekdaysDiffer(today + i, j - i);
    } else if j > i + 7 {
      WeekdaysDiffer(today + i + 7, j - i - 7);
    }
  }

  // ---------------------------------------------------------------------------
  // The page's state and its handlers

  /** What the booking store records when the user continues. */
  datatype ArrivalWindow = ArrivalWindow(date: Day, time: string)

  const ConfirmationRoute := "/book/confirmation"

  /** The two selections, the arrival window held by the booking store, and the
      routes pushed on the router. */
  datatype PageState = PageState(
    selectedDate: Option<Day>, selectedTime: Option<string>,
    arrivalWindow: Option<ArrivalWindow>, pushed: seq<string>)

  /** A chosen time counts as chosen when it is a non-empty string: the empty string
      is falsy in the page's checks. */
  predicate TimeChosen(t: Option<string>) {
    t.Some? && t.value != ""
  }

  /** The continue button's `disabled` attribute. */
  predicate ContinueDisabled(p: PageState) {
    p.selectedDate.None? || !TimeChosen(p.selectedTime)
  }

  /** The condition that draws the continue button as active. */
  predicate ContinueActive(p: PageState) {
    p.selectedDate.Some? && TimeChosen(p.selectedTime)
  }

  /** Picking a day: it becomes the chosen day and any chosen time is cleared. */
  function DateSelected(p: PageState, date: Day): PageState {
    p.(selectedDate := Some(date), selectedTime := None)
  }

  /** Picking a time window. */
  function TimeSelected(p: PageState, time: string): PageState {
    p.(selectedTime := Some(time))
  }

  /** Continuing: with a day and a time chosen, record them in the store and go to
      the confirmation page; otherwise nothing happens. */
  function Submitted(p: PageState): PageState {
    if p.selectedDate.Some? && TimeChosen(p.selectedTime) then
      p.(arrivalWindow := Some(ArrivalWindow(p.selectedDate.value, p.selectedTime.value)),
         pushed := p.pushed + [ConfirmationRoute])
    else
      p
  }

  /** Picking a day puts that day in place and empties the time, whatever was chosen
      before; nothing else changes. */
  lemma DateSelectClearsTime(p: PageState, date: Day)
    ensures DateSelected(p, date).selectedDate == Some(date)
    ensures DateSelected(p, date).selectedTime == None
    ensures ContinueDisabled(DateSelected(p, date))
    ensures DateSelected(p, date).arrivalWindow == p.arrivalWindow && DateSelected(p, date).pushed == p.pushed
  {
  }

  /** Picking a time leaves the chosen day, the store and the router alone. */
  lemma TimeSelectKeepsDate(p: PageState, time: string)
    ensures TimeSelected(p, time).selectedTime == Some(time)
    ensures TimeSelected(p, time).selectedDate == p.selectedDate
    ensures TimeSelected(p, time).arrivalWindow == p.arrivalWindow && TimeSelected(p, time).pushed == p.pushed
  {
  }

  /** Continuing records the pair and navigates exactly when the button is enabled;
      otherwise it changes nothing. The button is drawn active exactly when enabled. */
  lemma SubmitExactlyWhenEnabled(p: PageState)
    ensures ContinueActive(p) <==> !ContinueDisabled(p)
    ensures !ContinueDisabled(p) ==>
      && Submitted(p).arrivalWindow == Some(ArrivalWindow(p.selectedDate.value, p.selectedTime.value))
      && Submitted(p).pushed == p.pushed + [ConfirmationRoute]
      && Submitted(p).selectedDate == p.selectedDate && Submitted(p).selectedTime == p.selectedTime
    ensures ContinueDisabled(p) ==> Submitted(p) == p
    ensures Submitted(p) != p <==> !ContinueDisabled(p)
  {
    if !ContinueDisabled(p) {
      assert |Submitted(p).pushed| == |p.pushed| + 1;
    }
  }

  // ---------------------------------------------------------------------------
  // What the user can do

  /** A click on a date card, on a time slot, or on the continue button. */
  datatype Event = PickDate(card: nat) | PickTime(slot: nat) | Continue

  /** Whether the page offers `e`: the date cards are always shown; the time slots
      and the continue button only once a day is chosen; a disabled button does not
      react to clicks. */
  predicate Offered(p: PageState, e: Event) {
    match e
    case PickDate(card) => card < WindowLength
    case PickTime(slot) => p.selectedDate.Some? && slot < |TimeSlots|
    case Continue => p.selectedDate.Some? && !ContinueDisabled(p)
  }

  /** The handler a click runs. */
  function Step(p: PageState, today: Day, e: Event): PageState
    requires Offered(p, e)
  {
    match e
    case PickDate(card) => DateSelected(p, Dates(today)[card])
    case PickTime(slot) => TimeSelected(p, TimeSlots[slot].time)
    case Continue => Submitted(p)
  }

  /** The state after a sequence of clicks; a click on something the page does not
      show cannot happen and is skipped. */
  function Run(p: PageState, today: Day, events: seq<Event>): PageState
    decreases |events|
  {
    if events == [] then p
    else Run(if Offered(p, events[0]) then Step(p, today, events[0]) else p, today, events[1..])
  }

  const Initial := PageState(None, None, None, [])

  /** What every state the page can reach satisfies: a time is chosen only once a
      day is; the day is one of the cards; the time is one of the three labels. */
  ghost predicate Consistent(p: PageState, today: Day) {
    && (p.selectedTime.Some? ==> p.selectedDate.Some?)
    && (p.selectedDate.Some? ==> p.selectedDate.value in Dates(today))
    && (p.selectedTime.Some? ==> p.selectedTime.value in TimeLabels())
  }

  /** Every click the page offers keeps the state consistent. */
  lemma StepKeepsConsistent(p: PageState, today: Day, e: Event)
    requires Consistent(p, today) && Offered(p, e)
    ensures Consistent(Step(p, today, e), today)
  {
    match e
    case PickDate(card) =>
      assert Dates(today)[card] in Dates(today);
    case PickTime(slot) =>
      assert TimeLabels()[slot] == TimeSlots[slot].time;
    case Continue =>
  }

  /** Whatever the user clicks, in whatever order, the state stays consistent; in
      particular a time is never chosen without a day. */
  lemma {:induction false} RunKeepsConsistent(p: PageState, today: Day, events: seq<Event>)
    requires Consistent(p, today)
    ensures Consistent(Run(p, today, events), today)
    decreases |events|
  {
    if events != [] {
      var next := if Offered(p, events[0]) then Step(p, today, events[0]) else p;
      if Offered(p, events[0]) {
        StepKeepsConsistent(p, today, events[0]);
      }
      RunKeepsConsistent(next, today, events[1..]);
    }
  }

  /** From the page as it opens, every reachable state has a day whenever it has a
      time, and the continue button is enabled exactly when both are chosen. */
  lemma ReachableStates(today: Day, events: seq<Event>)
    ensures var p := Run(Initial, today, events);
      && (p.selectedTime.Some? ==> p.selectedDate.Some?)
      && (ContinueDisabled(p) <==> p.selectedDate.None? || p.selectedTime.None?)
  {
    RunKeepsConsistent(Initial, today, events);
    var p := Run(Initial, today, events);
    TimeLabelsFixed();
    if p.selectedTime.Some? {
      assert p.selectedTime.value in TimeLabels();
    }
  }

  /** The time handler on its own would break the rule: it is the page showing the
      time slots only once a day is chosen that keeps it. */
  lemma TimeHandlerNeedsThePanelGate(today: Day)
    ensures !Offered(Initial, PickTime(0))
    ensures !Consistent(TimeSelected(Initial, TimeSlots[0].time), today)
  {
  }

  /** A state holding the chosen day and time, with the store and the router. */
  class SchedulePage {
    const today: Day
    var selectedDate: Option<Day>
    var selectedTime: Option<string>
    var arrivalWindow: Option<ArrivalWindow>
    var pushed: seq<string>

    function State(): PageState
      reads this
    {
      PageState(selectedDate, selectedTime, arrivalWindow, pushed)
    }

    /** The page as it opens on `today`; the store keeps whatever it held. */
    constructor (today: Day, stored: Option<ArrivalWindow>)
      ensures this.today == today
      ensures State() == PageState(None, None, stored, [])
    {
      this.today := today;
      selectedDate, selectedTime := None, None;
      arrivalWindow := stored;
      pushed := [];
    }

    method HandleDateSelect(date: Day)
      modifies this
      ensures State() == DateSelected(old(State()), date)
    {
      selectedDate := Some(date);
      selectedTime := None;
    }

    method HandleTimeSelect(time: string)
      modifies this
      ensures State() == TimeSelected(old(State()), time)
    {
      selectedTime := Some(time);
    }

    method HandleSubmit()
      modifies this
      ensures State() == Submitted(old(State()))
    {
      if selectedDate.Some? && selectedTime.Some? && selectedTime.value != "" {
        arrivalWindow := Some(ArrivalWindow(selectedDate.value, selectedTime.value));
        pushed := pushed + [ConfirmationRoute];
      }
    }

    /** A click on what the page shows, dispatched to its handler. */
    method Click(e: Event)
      requires Offered(State(), e)
      modifies this
      ensures State() == Step(old(State()), today, e)
      ensures Consistent(old(State()), today) ==> Consistent(State(), today)
    {
      ghost var before := State();
      match e {
        case PickDate(card) => HandleDateSelect(Dates(today)[card]);
        case PickTime(slot) => HandleTimeSelect(TimeSlots[slot].time);
        case Continue => HandleSubmit();
      }
      if Consistent(before, today) {
        StepKeepsConsistent(before, today, e);
      }
    }
  }
}
