/**
 * `MonthYearPickerView` as an object whose fields its methods update in
 * place. The host picker control is reduced to the two selected rows, the
 * selection handler to a flag and the log of its calls. Each method is
 * proved to perform the transition of the same name in `PickerSpec`.
 */
module MonthYearPicker {
  import opened Wrappers
  import opened Calendars
  import PickerSpec

  class MonthYearPickerView {
    var date: Date
    var calendar: Calendar
    var locale: Option<Locale>
    var monthDateFormatter: PickerSpec.Formatter
    var yearDateFormatter: PickerSpec.Formatter
    /** `selectedRow(inComponent: 0)` and `selectedRow(inComponent: 1)` of the host control. */
    var selectedMonthRow: int
    var selectedYearRow: int
    var hasDateSelectionHandler: bool
    /** The dates the selection handler has been called with, oldest first. */
    var handlerCalls: seq<Date>

    /** The view's state as a value. */
    function State(): PickerSpec.Picker
      reads this
    {
      PickerSpec.Picker(date, calendar, locale, monthDateFormatter, yearDateFormatter,
                        selectedMonthRow, selectedYearRow, hasDateSelectionHandler, handlerCalls)
    }

    /** `init(frame:)`, with the current time and calendar passed in. */
    constructor (now: Date, current: Calendar)
      ensures State() == PickerSpec.Init(now, current)
    {
      date := now;
      calendar := current;
      locale := None;
      monthDateFormatter := PickerSpec.InitialMonthFormatter;
      yearDateFormatter := PickerSpec.InitialYearFormatter;
      selectedMonthRow, selectedYearRow := 0, 0;
      hasDateSelectionHandler := false;
      handlerCalls := [];
      new;
      SetDate(date);
    }

    /** `setDate(_:animated:)`. */
    method SetDate(d: Date)
      modifies this
      ensures State() == PickerSpec.SetDate(old(State()), d)
    {
      selectedMonthRow := d.month - calendar.monthRange.location;
      selectedYearRow := d.year - calendar.yearRange.location;
    }

    /** The `didSet` observer of `date`. */
    method DateDidSet()
      modifies this
      ensures State() == PickerSpec.DateDidSet(old(State()))
    {
      var components := YearMonthComponents(date);
      components := components.(hour := Some(PickerSpec.Midday));
      var rebuilt := DateFrom(calendar, components);
      if rebuilt.None? {
        return;
      }
      SetDate(rebuilt.value);
      if hasDateSelectionHandler {
        handlerCalls := handlerCalls + [rebuilt.value];
      }
    }

    /** Assigning the `date` property. */
    method AssignDate(d: Date)
      modifies this
      ensures State() == PickerSpec.AssignDate(old(State()), d)
    {
      date := d;
      DateDidSet();
    }

    /** `pickerView(_:didSelectRow:inComponent:)`. */
    method DidSelectRow(row: int, component: int)
      modifies this
      ensures State() == PickerSpec.DidSelectRow(old(State()), row, component)
    {
      var components := DateComponents(
        Some(calendar.yearRange.location + selectedYearRow),
        Some(calendar.monthRange.location + selectedMonthRow),
        Some(PickerSpec.Midday));
      var selected := DateFrom(calendar, components);
      if selected.None? {
        return;
      }
      AssignDate(selected.value);
    }

    /** The `didSet` observer of `calendar`. */
    method CalendarDidSet()
      modifies this
      ensures State() == PickerSpec.CalendarDidSet(old(State()))
    {
      monthDateFormatter := monthDateFormatter.(calendar := Some(calendar));
      yearDateFormatter := yearDateFormatter.(calendar := Some(calendar));
    }

    /** Assigning the `calendar` property. */
    method AssignCalendar(cal: Calendar)
      modifies this
      ensures State() == PickerSpec.AssignCalendar(old(State()), cal)
    {
      calendar := cal;
      CalendarDidSet();
    }

    /** The `didSet` observer of `locale`. */
    method LocaleDidSet()
      modifies this
      ensures State() == PickerSpec.LocaleDidSet(old(State()))
    {
      calendar := calendar.(locale := locale);
      CalendarDidSet();
      monthDateFormatter := monthDateFormatter.(locale := locale);
      yearDateFormatter := yearDateFormatter.(locale := locale);
    }

    /** Assigning the `locale` property. */
    method AssignLocale(l: Option<Locale>)
      modifies this
      ensures State() == PickerSpec.AssignLocale(old(State()), l)
    {
      locale := l;
      LocaleDidSet();
    }

    /** Assigning `dateSelectionHandler`: a closure when `installed`, `nil` otherwise. */
    method AssignDateSelectionHandler(installed: bool)
      modifies this
      ensures State() == PickerSpec.AssignHandler(old(State()), installed)
    {
      hasDateSelectionHandler := installed;
    }
  }

  /**
   * A client in the manner of the example application: a picker on the
   * Gregorian ranges with a handler installed, and a later assignment of
   * January 2020 to `date`, which reaches the handler at midday while the
   * stored date keeps the value assigned. Then a silent `setDate`, a user
   * selection and a locale change.
   */
  method GregorianClient(now: Date)
  {
    var gregorian := Calendar(Range(1, 12), Range(1, 144683), None);
    var picker := new MonthYearPickerView(now, gregorian);
    picker.AssignDateSelectionHandler(true);
    assert picker.handlerCalls == [];

    picker.AssignDate(Date(2020, 1, 1, 0));
    assert picker.date == Date(2020, 1, 1, 0);
    assert picker.selectedMonthRow == 0 && picker.selectedYearRow == 2019;
    assert picker.handlerCalls == [Date(2020, 1, 1, 12)];

    picker.SetDate(Date(2021, 3, 1, 0));
    assert picker.selectedMonthRow == 2 && picker.selectedYearRow == 2020;
    assert picker.handlerCalls == [Date(2020, 1, 1, 12)] && picker.date == Date(2020, 1, 1, 0);

    picker.DidSelectRow(5, 1);
    assert picker.date == Date(2021, 3, 1, 12);
    assert picker.handlerCalls == [Date(2020, 1, 1, 12), Date(2021, 3, 1, 12)];

    picker.AssignLocale(Some(Locale("en_US")));
    assert picker.selectedMonthRow == 2 && picker.selectedYearRow == 2020;
    assert picker.handlerCalls == [Date(2020, 1, 1, 12), Date(2021, 3, 1, 12)];
  }
}
