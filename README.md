# MonthYearPicker in Dafny

A model of `MonthYearPickerView`, a two-wheel picker control for choosing a
month and a year. The view keeps a stored `date` and the selected row of
each wheel in step. It does this through:

- `setDate(_:animated:)`, which moves the wheels silently;
- the `didSet` observers of `date`, `calendar` and `locale`;
- the delegate callback that reports a user's selection.

It also answers the host control's data-source queries: how many wheels,
how many rows per wheel, and the title of each row.

Files:

- `wrappers.dfy`: `Option`.
- `calendars.dfy`: the calendar facilities the view uses, kept abstract.
  - A `Date` is its year, month, day and hour.
  - A `Calendar` is its maximum month and year ranges (`NSRange`: location,
    length) and its locale.
  - `DateFrom` is `Calendar.date(from:)`, a partial constructor. It fails when
    the resolved year or month lies outside its range or the hour is outside
    0..23.
- `picker_spec.dfy` (`PickerSpec`): the view's state as a value (`Picker`), one
  function per transition, the data-source queries, and lemmas relating them.
- `picker_trace.dfy` (`PickerTrace`): any sequence of calls, and lemmas that
  hold for every such sequence.
- `picker_view.dfy` (`MonthYearPicker`): the class `MonthYearPickerView`.
  - Its fields are those of the Swift class, plus the two selected rows of the
    host control and the log of handler calls.
  - Each method is proved to take `State()` to the result of the
    corresponding `PickerSpec` transition.

Two behaviours of the code a reader may not expect; the model follows the
code:

- Assigning `date` does not normalise the stored value. The observer binds
  the rebuilt midday date to a local of the same name. Only the wheels and the
  handler see the rebuilt date; the property keeps the value as assigned
  (`AssignedDateNotNormalised`).
- The wheels and the stored date are not always in agreement.
  - `setDate` moves only the wheels (`SetDateDoesNotUpdateDate`).
  - A calendar change reinterprets the rows.
  - A failed rebuild stores the new date but leaves the wheels where they were.
  - Agreement is restored by a successful assignment of `date` or a user
    selection (`AssignDate`, `SelectionResynchronises`).

## Model

| member | source | states |
|---|---|---|
| Calendars.DateFrom | Sources/MonthYearPickerView.swift:108 | building a date from components fails exactly when a component falls outside the calendar's range; otherwise the given components are kept |
| PickerSpec.MiddayOf | Sources/MonthYearPickerView.swift:32-37 | the rebuilt date exists exactly when the date's year and month are in the calendar; it is that year and month at midday on the 1st, shown by the same rows |
| PickerSpec.DateAtRows | Sources/MonthYearPickerView.swift:104-110 | a date is built from the wheels exactly when both rows are within their wheels, and those rows show it again (rows → date → rows) |
| PickerSpec.RowsOfDateRoundTrip | Sources/MonthYearPickerView.swift:93-95 | a date in the calendar maps to in-range rows, and those rows give back its year and month at midday (date → rows → date) |
| PickerSpec.Init | Sources/MonthYearPickerView.swift:78-83 | construction stores the current date and calendar, shows that date on the wheels, has both formatters with their pattern and no calendar or locale assigned, and has no handler and no handler calls |
| PickerSpec.SetDate | Sources/MonthYearPickerView.swift:92-97 | month row + month lower bound = month, year row + year lower bound = year; nothing else changes, so the stored date stays and the handler is not called |
| PickerSpec.DateDidSet | Sources/MonthYearPickerView.swift:30-41 | when the rebuild fails nothing changes; otherwise the wheels move to the rebuilt midday date and an installed handler is called once with it; nothing else changes |
| PickerSpec.AssignDate | Sources/MonthYearPickerView.swift:29-41 | the assigned value is stored as given. Out of the calendar, only that happens. In it, the wheels show it, an installed handler gets its midday date once, and nothing else changes |
| PickerSpec.DidSelectRow | Sources/MonthYearPickerView.swift:103-112 | ignores the reported row/component. Out-of-range wheels change nothing. In range, the date built from both rows is stored, the rows are unchanged, and an installed handler gets that date once |
| PickerSpec.CalendarDidSet | Sources/MonthYearPickerView.swift:45-48 | both formatters take the calendar; nothing else changes |
| PickerSpec.AssignCalendar | Sources/MonthYearPickerView.swift:44-49 | the calendar is stored and given to both formatters; everything else, including the locale and the formatters' pattern and locale, is unchanged |
| PickerSpec.LocaleDidSet | Sources/MonthYearPickerView.swift:52-56 | the calendar takes the locale, its observer hands it to both formatters, and both formatters take the locale; nothing else changes |
| PickerSpec.AssignLocale | Sources/MonthYearPickerView.swift:51-57 | the locale is stored and set on the calendar; both formatters receive that calendar and the locale, keeping their pattern; nothing else changes |
| PickerSpec.AssignHandler | Sources/MonthYearPickerView.swift:59 | only whether a handler is installed changes |
| PickerSpec.NumberOfComponents | Sources/MonthYearPickerView.swift:118-120 | the component indices that name a wheel are exactly those below the reported count (0 and 1) |
| PickerSpec.NumberOfRows | Sources/MonthYearPickerView.swift:122-132 | the month wheel has the month range's length in rows, the year wheel the year range's length, and an unknown component 0 |
| PickerSpec.TitleForRow | Sources/MonthYearPickerView.swift:134-158 | an unknown component has no title; month row r denotes month lower bound + r, year row r year lower bound + r, each rendered by its own formatter |
| PickerSpec.TitleExactlyOnRows | Sources/MonthYearPickerView.swift:122-158 | on a known wheel of a calendar with non-empty ranges, a row has a title if and only if it is below the wheel's row count |
| PickerSpec.SelectedTitlesMatchHandlerDate | Sources/MonthYearPickerView.swift:103-158 | after a user selection of in-range rows, the selected rows' titles denote the month and year the handler was just called with |
| PickerSpec.SetDateThenSelect | Sources/MonthYearPickerView.swift:92-112 | setDate of an in-range date followed by a user selection keeps the wheels on that date and reports its midday date to an installed handler |
| PickerSpec.SelectThenSetDate | Sources/MonthYearPickerView.swift:92-112 | setDate of the date a user selection produced leaves the picker as it is: the rows round-trip |
| PickerSpec.SetDateDoesNotUpdateDate | Sources/MonthYearPickerView.swift:92-97 | after setDate of a different month or year, the stored date is unchanged and the wheels no longer show it |
| PickerSpec.AssignedDateNotNormalised | Sources/MonthYearPickerView.swift:29-41 | assigning a date that is not the 1st at midday stores it as given, while the handler receives a different (rebuilt) date |
| PickerSpec.LocaleChangesOnlyRendering | Sources/MonthYearPickerView.swift:51-57 | a locale change keeps rows, stored date, handler calls, row counts and the values titles denote; titles are then rendered with the new locale |
| PickerTrace.RunOnlyAppends | Sources/MonthYearPickerView.swift:29-112 | over any sequence of calls, earlier handler calls are never rewritten and each call adds at most one |
| PickerTrace.SilentRunKeepsDateAndLog | Sources/MonthYearPickerView.swift:44-97 | a sequence of setDate, calendar, locale and handler assignments never changes the stored date and never calls the handler |
| PickerTrace.NoHandlerNoCalls | Sources/MonthYearPickerView.swift:40 | with no handler installed along the way, no sequence of calls logs anything |
| PickerTrace.HandlerSeesOnlyMiddayDates | Sources/MonthYearPickerView.swift:33-40 | over any sequence of calls, the handler only ever receives dates on the 1st of a month at hour 12 |
| PickerTrace.RunSnoc | Sources/MonthYearPickerView.swift:29-112 | a sequence of calls followed by one more call leaves the picker as that call applied to the state the sequence left |
| PickerTrace.SelectionResynchronises | Sources/MonthYearPickerView.swift:103-112 | after any history, a user selection of in-range rows leaves the wheels showing the stored date |
| MonthYearPicker.MonthYearPickerView.constructor | Sources/MonthYearPickerView.swift:78-83 | the new view's state is PickerSpec.Init of the current date and calendar |
| MonthYearPicker.MonthYearPickerView.SetDate | Sources/MonthYearPickerView.swift:92-97 | updates the two selected rows in place, as PickerSpec.SetDate |
| MonthYearPicker.MonthYearPickerView.DateDidSet | Sources/MonthYearPickerView.swift:30-41 | updates the view in place, as PickerSpec.DateDidSet |
| MonthYearPicker.MonthYearPickerView.AssignDate | Sources/MonthYearPickerView.swift:29-41 | stores the date, then runs the observer, as PickerSpec.AssignDate |
| MonthYearPicker.MonthYearPickerView.DidSelectRow | Sources/MonthYearPickerView.swift:103-112 | reads both selected rows and assigns the built date, as PickerSpec.DidSelectRow |
| MonthYearPicker.MonthYearPickerView.CalendarDidSet | Sources/MonthYearPickerView.swift:45-48 | reconfigures both formatters in place, as PickerSpec.CalendarDidSet |
| MonthYearPicker.MonthYearPickerView.AssignCalendar | Sources/MonthYearPickerView.swift:44-49 | stores the calendar, then runs its observer, as PickerSpec.AssignCalendar |
| MonthYearPicker.MonthYearPickerView.LocaleDidSet | Sources/MonthYearPickerView.swift:52-56 | sets the calendar's locale, runs the calendar observer and sets both formatters' locale, as PickerSpec.LocaleDidSet |
| MonthYearPicker.MonthYearPickerView.AssignLocale | Sources/MonthYearPickerView.swift:51-57 | stores the locale, then runs its observer, as PickerSpec.AssignLocale |
| MonthYearPicker.MonthYearPickerView.AssignDateSelectionHandler | Sources/MonthYearPickerView.swift:59 | installs or removes the handler, as PickerSpec.AssignHandler |

## Left out

- The UIKit plumbing is not modelled: `UIPickerView` subclassing, `init(coder:)`, and assigning `dataSource` and `delegate`. The `animated` flag is dropped too; it only affects how the host control draws the move.
- The host control is reduced to its two selected rows. `selectRow` stores whatever row it is given; UIKit's handling of out-of-range rows is not modelled.
- `DateFormatter` output is not modelled. A title is the month or year number the formatter would render, together with the formatter (pattern, calendar, locale) that renders it; month names and locale-specific digits are absent.
- The formatters are created lazily in the source. Here they exist from construction, with their pattern and no calendar or locale assigned. This has no observable difference.
- Real `Calendar` behaviour is not modelled: actual maximum ranges, time zones, daylight saving, eras, and normalisation of out-of-range components. `DateFrom` stands in for `Calendar.date(from:)` and rejects what is outside the ranges. A `Date` is kept already decomposed, so a change of calendar does not re-decompose the stored date.
- The current time (`Date()`) and the current calendar (`Calendar.current`) become constructor parameters.
- The selection handler's effect is not modelled. The model records that the handler is installed and logs the dates it is called with.
- Swift's 64-bit `Int` overflow trap on `location + row` is not modelled; integers are unbounded.
- `Example/MonthYearPicker/ViewController.swift` is not part of this model. It is a demo screen built from view layout, a delayed dispatch and console output. `MonthYearPicker.GregorianClient` plays a comparable client role.
