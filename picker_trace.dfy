/**
 * Any sequence of calls into the picker: programmatic `setDate`,
 * assignments to its properties, and user selections delivered by the host
 * control. The lemmas here hold for every such sequence.
 */
module PickerTrace {
  import opened Wrappers
  import opened Calendars
  import opened PickerSpec

  datatype Event =
    | SetDateCalled(d: Date)
    | DateAssigned(d: Date)
    | RowSelected(row: int, component: int)
    | CalendarAssigned(cal: Calendar)
    | LocaleAssigned(locale: Option<Locale>)
    | HandlerAssigned(installed: bool)

  function Apply(p: Picker, e: Event): Picker {
    match e
    case SetDateCalled(d) => SetDate(p, d)
    case DateAssigned(d) => AssignDate(p, d)
    case RowSelected(row, component) => DidSelectRow(p, row, component)
    case CalendarAssigned(cal) => AssignCalendar(p, cal)
    case LocaleAssigned(locale) => AssignLocale(p, locale)
    case HandlerAssigned(installed) => AssignHandler(p, installed)
  }

  /** The picker after the events of `events`, in order. */
  function Run(p: Picker, events: seq<Event>): Picker
    decreases |events|
  {
    if events == [] then p else Run(Apply(p, events[0]), events[1..])
  }

  /** Events that never call the handler and never change the stored date. */
  predicate Silent(e: Event) {
    e.SetDateCalled? || e.CalendarAssigned? || e.LocaleAssigned? || e.HandlerAssigned?
  }

  /** Every date in the log is the first of a month at midday. */
  predicate MiddayDates(log: seq<Date>) {
    forall i :: 0 <= i < |log| ==> log[i].day == 1 && log[i].hour == Midday
  }

  /** Each event calls the handler at most once, and never rewrites earlier calls. */
  lemma {:induction false} RunOnlyAppends(p: Picker, events: seq<Event>)
    ensures p.handlerCalls <= Run(p, events).handlerCalls
    ensures |Run(p, events).handlerCalls| <= |p.handlerCalls| + |events|
    decreases |events|
  {
    if events != [] {
      RunOnlyAppends(Apply(p, events[0]), events[1..]);
    }
  }

  /** `setDate` and the `calendar`, `locale` and handler setters never touch the stored date or call the handler. */
  lemma {:induction false} SilentRunKeepsDateAndLog(p: Picker, events: seq<Event>)
    requires forall i :: 0 <= i < |events| ==> Silent(events[i])
    ensures Run(p, events).date == p.date
    ensures Run(p, events).handlerCalls == p.handlerCalls
    decreases |events|
  {
    if events != [] {
      SilentRunKeepsDateAndLog(Apply(p, events[0]), events[1..]);
    }
  }

  /** Without a handler, and with none installed along the way, nothing is ever logged. */
  lemma {:induction false} NoHandlerNoCalls(p: Picker, events: seq<Event>)
    requires !p.hasHandler
    requires forall i :: 0 <= i < |events| ==> events[i] != HandlerAssigned(true)
    ensures Run(p, events).handlerCalls == p.handlerCalls
    ensures !Run(p, events).hasHandler
    decreases |events|
  {
    if events != [] {
      NoHandlerNoCalls(Apply(p, events[0]), events[1..]);
    }
  }

  /** The handler is only ever called with a rebuilt date: the first of a month, at midday. */
  lemma {:induction false} HandlerSeesOnlyMiddayDates(p: Picker, events: seq<Event>)
    requires MiddayDates(p.handlerCalls)
    ensures MiddayDates(Run(p, events).handlerCalls)
    decreases |events|
  {
    if events != [] {
      var q := Apply(p, events[0]);
      assert MiddayDates(q.handlerCalls);
      HandlerSeesOnlyMiddayDates(q, events[1..]);
    }
  }

  /** Running one more event is applying it to the picker the earlier events left. */
  lemma {:induction false} RunSnoc(p: Picker, events: seq<Event>, e: Event)
    ensures Run(p, events + [e]) == Apply(Run(p, events), e)
    decreases |events|
  {
    if events == [] {
      assert [e][1..] == [];
    } else {
      assert (events + [e])[1..] == events[1..] + [e];
      RunSnoc(Apply(p, events[0]), events[1..], e);
    }
  }

  /**
   * Whatever happened before, a user selection of in-range rows leaves the
   * wheels showing the stored date: the one event that restores the
   * agreement `setDate` and a calendar change can break.
   */
  lemma SelectionResynchronises(p: Picker, events: seq<Event>, row: int, component: int)
    requires var q := Run(p, events); RowsInRange(q.calendar, q.monthRow, q.yearRow)
    ensures ShowsDate(Run(p, events + [RowSelected(row, component)]))
  {
    RunSnoc(p, events, RowSelected(row, component));
  }
}
