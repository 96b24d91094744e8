/**
 * A day cell of the month view: a tile pinned to the month view and to
 * day-granularity bounds, carrying the day's class modifiers and label.
 */
module MonthView {
  import opened Wrappers
  import opened Tile

  type Formatter = (Option<string>, Instant) -> string

  /**
   * The date helpers a day cell relies on, left uninterpreted: the start and
   * end of a date's day, the weekend test for a calendar type, the month of
   * a date, and the default formatters.
   */
  datatype DateLib = DateLib(
    getDayStart: Instant -> Instant,
    getDayEnd: Instant -> Instant,
    isWeekend: (Instant, Option<string>) -> bool,
    getMonth: Instant -> int,
    defaultFormatDay: Formatter,
    defaultFormatLongDate: Formatter)

  /** The day cell's own props; `otherProps` are the rest, handed to the tile. */
  datatype DayProps<C> = DayProps(
    calendarType: Option<string>,
    classes: Option<seq<Option<string>>>,
    currentMonthIndex: int,
    formatDay: Option<Formatter>,
    formatLongDate: Option<Formatter>,
    otherProps: TileProps<C>)

  /** The tile a day cell renders: its props and its child, the day label. */
  datatype DayTile<C> = DayTile(props: TileProps<C>, children: string)

  const BaseClass: string := "react-calendar__month-view__days__day"
  const WeekendClass: string := BaseClass + "--weekend"
  const NeighboringMonthClass: string := BaseClass + "--neighboringMonth"

  /**
   * The tile for one day: the caller's props with the class list, the
   * abbreviation formatter, the day-granularity bound transforms and the
   * month view set on top, labelled with the formatted day.
   */
  function Day<C>(lib: DateLib, p: DayProps<C>): (r: DayTile<C>)
    requires p.classes.Some?
    ensures var n := |p.classes.value|;
      && r.props.classes.Some?
      && |r.props.classes.value| == n + 3
      && r.props.classes.value[..n] == p.classes.value
      && r.props.classes.value[n] == Some(BaseClass)
      && (r.props.classes.value[n + 1] == Some(WeekendClass) <==>
            lib.isWeekend(p.otherProps.date, p.calendarType))
      && (r.props.classes.value[n + 1] == None <==>
            !lib.isWeekend(p.otherProps.date, p.calendarType))
      && (r.props.classes.value[n + 2] == Some(NeighboringMonthClass) <==>
            lib.getMonth(p.otherProps.date) != p.currentMonthIndex)
      && (r.props.classes.value[n + 2] == None <==>
            lib.getMonth(p.otherProps.date) == p.currentMonthIndex)
    ensures r.props.view == "month"
    ensures r.props.minDateTransform == lib.getDayStart && r.props.maxDateTransform == lib.getDayEnd
    ensures r.props.formatAbbr == Some(p.formatLongDate.GetOr(lib.defaultFormatLongDate))
    ensures r.children == p.formatDay.GetOr(lib.defaultFormatDay)(p.otherProps.locale, p.otherProps.date)
  {
    var date := p.otherProps.date;
    var classes := p.classes.value + [
      Some(BaseClass),
      if lib.isWeekend(date, p.calendarType) then Some(WeekendClass) else None,
      if lib.getMonth(date) != p.currentMonthIndex then Some(NeighboringMonthClass) else None];
    var formatDay := p.formatDay.GetOr(lib.defaultFormatDay);
    var props := p.otherProps.(
      classes := Some(classes),
      formatAbbr := Some(p.formatLongDate.GetOr(lib.defaultFormatLongDate)),
      maxDateTransform := lib.getDayEnd,
      minDateTransform := lib.getDayStart,
      view := "month");
    DayTile(props, formatDay(p.otherProps.locale, date))
  }

  /**
   * Every prop the day cell does not set reaches the tile unchanged, so the
   * tile's cache sees the caller's sources and dates.
   */
  lemma DayPassesOtherProps<C>(lib: DateLib, p: DayProps<C>)
    requires p.classes.Some?
    ensures var t := Day(lib, p).props;
      && t.activeStartDate == p.otherProps.activeStartDate
      && t.date == p.otherProps.date
      && t.locale == p.otherProps.locale
      && t.minDate == p.otherProps.minDate
      && t.maxDate == p.otherProps.maxDate
      && t.tileClassName == p.otherProps.tileClassName
      && t.tileContent == p.otherProps.tileContent
      && t.tileDisabled == p.otherProps.tileDisabled
  {
  }

  /**
   * A day cell is disabled exactly when the minimum date's day starts after
   * it, the maximum date's day ends before it, or the caller's predicate
   * holds for it in the month view.
   */
  lemma DayDisabledUsesDayBounds<C>(lib: DateLib, p: DayProps<C>)
    requires p.classes.Some?
    ensures var o := p.otherProps;
      EvalDisabled(Day(lib, p).props).disabled <==>
        (o.minDate.Some? && o.date < lib.getDayStart(o.minDate.value)) ||
        (o.maxDate.Some? && o.date > lib.getDayEnd(o.maxDate.value)) ||
        (o.tileDisabled.Some? && o.tileDisabled.value(Args(o.activeStartDate, o.date, "month")))
  {
  }
}
