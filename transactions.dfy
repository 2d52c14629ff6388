/** The transactions screen's view model: the weekly window arithmetic
    (`calculateNextWeek`, `updateDateRange`) and the handlers that turn request outcomes
    into its published state. */
module Transactions {
  import opened Wrappers
  import opened Calendar
  import opened Reactive
  import opened Sections

  /** The window length, in calendar days. */
  const WeekLength: nat := 7

  /** `calculateNextWeek(startDate:)`: the wire timestamp one week after `startDate`, or None
      when `startDate` is not a wire timestamp. */
  function CalculateNextWeek(startDate: string): (r: Option<string>)
    ensures r.Some? <==> ParseTimestamp(startDate).Some?
  {
    match ParseTimestamp(startDate)
    case None => None
    case Some(t) => Some(FormatTimestamp(AddDays(t, WeekLength)))
  }

  /** The text `updateDateRange(dateTime:)` emits: `dd/MM` of the start and of the start plus
      one week, joined by " - "; None (nothing emitted) when `dateTime` does not parse. */
  function DateRangeText(dateTime: string): (r: Option<string>)
    ensures r.Some? <==> ParseTimestamp(dateTime).Some?
  {
    match ParseTimestamp(dateTime)
    case None => None
    case Some(t) => Some(Format(DayMonthPattern, t) + " - " + Format(DayMonthPattern, AddDays(t, WeekLength)))
  }

  /** On a parsable start whose end date still has a 4-digit year, the result parses back to a timestamp
      exactly seven day numbers later at the same time of day: month and year roll over and
      leap years count. */
  lemma NextWeekIsSevenDaysLater(startDate: string)
    requires ParseTimestamp(startDate).Some?
    requires AddDays(ParseTimestamp(startDate).value, WeekLength).year < 10000
    ensures CalculateNextWeek(startDate).Some?
    ensures var t := ParseTimestamp(startDate).value;
            var e := ParseTimestamp(CalculateNextWeek(startDate).value);
            && e.Some?
            && DayNumber(e.value) == DayNumber(t) + 7
            && SameTimeOfDay(e.value, t)
  {
    var t := ParseTimestamp(startDate).value;
    var u := AddDays(t, WeekLength);
    AddDaysNumber(t, WeekLength);
    ParseOfFormatTimestamp(u);
  }

  /** For every start, the result is the rendering of the one timestamp that lies seven
      calendar days later at the same time of day. */
  lemma NextWeekIsUnique(startDate: string, u: Timestamp)
    requires ParseTimestamp(startDate).Some?
    requires Valid(u) && SameTimeOfDay(u, ParseTimestamp(startDate).value)
    requires DayNumber(u) == DayNumber(ParseTimestamp(startDate).value) + 7
    ensures CalculateNextWeek(startDate) == Some(FormatTimestamp(u))
  {
    var t := ParseTimestamp(startDate).value;
    AddDaysNumber(t, WeekLength);
    DayNumberInjective(AddDays(t, WeekLength), u);
  }

  /** The range text is "dd/MM - dd/MM": its first five characters read back as the start's
      day and month, and its last five as the day and month `calculateNextWeek` yields. */
  lemma DateRangeMatchesWindow(dateTime: string)
    requires ParseTimestamp(dateTime).Some?
    requires AddDays(ParseTimestamp(dateTime).value, WeekLength).year < 10000
    ensures DateRangeText(dateTime).Some? && CalculateNextWeek(dateTime).Some?
    ensures ParseTimestamp(CalculateNextWeek(dateTime).value).Some?
    ensures var r := DateRangeText(dateTime).value;
            var t := ParseTimestamp(dateTime).value;
            var e := ParseTimestamp(CalculateNextWeek(dateTime).value).value;
            && |r| == 13 && r[5..8] == " - "
            && ParseFields(DayMonthPattern, r[..5]) == Some([t.day, t.month])
            && ParseFields(DayMonthPattern, r[8..]) == Some([e.day, e.month])
  {
    var t := ParseTimestamp(dateTime).value;
    NextWeekIsSevenDaysLater(dateTime);
    var u := AddDays(t, WeekLength);
    AddDaysNumber(t, WeekLength);
    ParseOfFormatTimestamp(u);
    DayMonthRoundTrip(t);
    DayMonthRoundTrip(u);
    var a, b := Format(DayMonthPattern, t), Format(DayMonthPattern, u);
    var r := a + " - " + b;
    assert r[..5] == a && r[5..8] == " - " && r[8..] == b;
  }

  lemma DayMonthRoundTrip(t: Timestamp)
    requires ValidDate(t)
    ensures |Format(DayMonthPattern, t)| == 5
    ensures ParseFields(DayMonthPattern, Format(DayMonthPattern, t)) == Some([t.day, t.month])
  {
    var month := Field(Month, 2, End);
    var slash := Literal('/', month);
    assert Pow10(2) == 100;
    assert FitsPattern(month, t) && FitsPattern(slash, t) && FitsPattern(DayMonthPattern, t);
    assert WellFormedPattern(month) && WellFormedPattern(slash) && WellFormedPattern(DayMonthPattern);
    PaddedFixedWidth(t.day, 2);
    PaddedFixedWidth(t.month, 2);
    assert Format(month, t) == Padded(t.month, 2) + "";
    assert Format(slash, t) == "/" + Format(month, t);
    assert Format(DayMonthPattern, t) == Padded(t.day, 2) + Format(slash, t);
    assert FieldValues(DayMonthPattern, t) == [t.day] + FieldValues(slash, t);
    assert FieldValues(slash, t) == [t.month];
    assert [t.day] + [t.month] == [t.day, t.month];
    ParseOfFormat(DayMonthPattern, t);
  }

  /** Round trip through the wire format: the week after a rendered valid timestamp is the
      rendering of the timestamp seven days later. */
  lemma NextWeekOfRendered(t: Timestamp)
    requires Valid(t) && t.year < 10000
    ensures CalculateNextWeek(FormatTimestamp(t)) == Some(FormatTimestamp(AddDays(t, WeekLength)))
    ensures DateRangeText(FormatTimestamp(t))
            == Some(Format(DayMonthPattern, t) + " - " + Format(DayMonthPattern, AddDays(t, WeekLength)))
  {
    ParseOfFormatTimestamp(t);
  }

  /** Renderings of the year used by the examples below. */
  lemma ExampleYear()
    ensures Padded(2020, 4) == "2020"
  {
    assert Padded(20, 2) == "20";
    assert Padded(202, 3) == "202";
  }

  /** Renderings of the milliseconds used by the examples below. */
  lemma ExampleMilliseconds()
    ensures Padded(123, 3) == "123" && Padded(0, 3) == "000"
  {
    assert Padded(12, 2) == "12";
  }

  /** Renderings of the two-digit fields used by the examples below. */
  lemma ExampleTwoDigits()
    ensures Padded(0, 2) == "00" && Padded(1, 2) == "01" && Padded(2, 2) == "02"
    ensures Padded(3, 2) == "03" && Padded(4, 2) == "04" && Padded(8, 2) == "08"
    ensures Padded(10, 2) == "10" && Padded(15, 2) == "15" && Padded(26, 2) == "26"
    ensures Padded(30, 2) == "30"
  {
  }

  lemma RenderLeapFebruaryStart(t: Timestamp)
    requires t == Timestamp(2020, 2, 26, 10, 15, 30, 123)
    ensures FormatTimestamp(t) == "2020-02-26T10:15:30.123Z"
  {
    assert "2020" + ("-" + ("02" + ("-" + ("26" + ("T" + ("10" + (":" + ("15" + (":" + ("30" + ("." + ("123" + "Z"))))))))))))
           == "2020-02-26T10:15:30.123Z";
    FormatTimestampFields(t);
    ExampleYear();
    ExampleMilliseconds();
    ExampleTwoDigits();
  }

  lemma RenderLeapFebruaryEnd(t: Timestamp)
    requires t == Timestamp(2020, 3, 4, 10, 15, 30, 123)
    ensures FormatTimestamp(t) == "2020-03-04T10:15:30.123Z"
  {
    assert "2020" + ("-" + ("03" + ("-" + ("04" + ("T" + ("10" + (":" + ("15" + (":" + ("30" + ("." + ("123" + "Z"))))))))))))
           == "2020-03-04T10:15:30.123Z";
    FormatTimestampFields(t);
    ExampleYear();
    ExampleMilliseconds();
    ExampleTwoDigits();
  }

  lemma RenderFirstOfMarchStart(t: Timestamp)
    requires t == Timestamp(2020, 3, 1, 0, 0, 0, 0)
    ensures FormatTimestamp(t) == "2020-03-01T00:00:00.000Z"
  {
    assert "2020" + ("-" + ("03" + ("-" + ("01" + ("T" + ("00" + (":" + ("00" + (":" + ("00" + ("." + ("000" + "Z"))))))))))))
           == "2020-03-01T00:00:00.000Z";
    FormatTimestampFields(t);
    ExampleYear();
    ExampleMilliseconds();
    ExampleTwoDigits();
  }

  lemma RenderFirstOfMarchEnd(t: Timestamp)
    requires t == Timestamp(2020, 3, 8, 0, 0, 0, 0)
    ensures FormatTimestamp(t) == "2020-03-08T00:00:00.000Z"
  {
    assert "2020" + ("-" + ("03" + ("-" + ("08" + ("T" + ("00" + (":" + ("00" + (":" + ("00" + ("." + ("000" + "Z"))))))))))))
           == "2020-03-08T00:00:00.000Z";
    FormatTimestampFields(t);
    ExampleYear();
    ExampleMilliseconds();
    ExampleTwoDigits();
  }

  lemma ExampleDayMonth(t: Timestamp, s: string)
    requires || (t == Timestamp(2020, 3, 1, 0, 0, 0, 0) && s == "01/03")
             || (t == Timestamp(2020, 3, 8, 0, 0, 0, 0) && s == "08/03")
    ensures Format(DayMonthPattern, t) == s
  {
    ExampleYear();
    ExampleMilliseconds();
    ExampleTwoDigits();
    assert Format(DayMonthPattern, t) == Padded(t.day, 2) + ("/" + (Padded(t.month, 2) + ""));
  }

  lemma ExampleWeeks()
    ensures AddDays(Timestamp(2020, 2, 26, 10, 15, 30, 123), WeekLength) == Timestamp(2020, 3, 4, 10, 15, 30, 123)
    ensures AddDays(Timestamp(2020, 3, 1, 0, 0, 0, 0), WeekLength) == Timestamp(2020, 3, 8, 0, 0, 0, 0)
  {
  }

  /** A leap-year February rolls over into March. */
  lemma NextWeekLeapFebruary()
    ensures CalculateNextWeek("2020-02-26T10:15:30.123Z") == Some("2020-03-04T10:15:30.123Z")
  {
    RenderLeapFebruaryStart(Timestamp(2020, 2, 26, 10, 15, 30, 123));
    RenderLeapFebruaryEnd(Timestamp(2020, 3, 4, 10, 15, 30, 123));
    ExampleWeeks();
    NextWeekOfRendered(Timestamp(2020, 2, 26, 10, 15, 30, 123));
  }

  /** The window that starts on 1 March 2020 ends on 8 March. */
  lemma NextWeekFirstOfMarch()
    ensures CalculateNextWeek("2020-03-01T00:00:00.000Z") == Some("2020-03-08T00:00:00.000Z")
  {
    RenderFirstOfMarchStart(Timestamp(2020, 3, 1, 0, 0, 0, 0));
    RenderFirstOfMarchEnd(Timestamp(2020, 3, 8, 0, 0, 0, 0));
    ExampleWeeks();
    NextWeekOfRendered(Timestamp(2020, 3, 1, 0, 0, 0, 0));
  }

  /** The window that starts on 1 March 2020 is shown as "01/03 - 08/03". */
  lemma DateRangeFirstOfMarch()
    ensures DateRangeText("2020-03-01T00:00:00.000Z") == Some("01/03 - 08/03")
  {
    assert "01/03" + " - " + "08/03" == "01/03 - 08/03";
    RenderFirstOfMarchStart(Timestamp(2020, 3, 1, 0, 0, 0, 0));
    ExampleDayMonth(Timestamp(2020, 3, 1, 0, 0, 0, 0), "01/03");
    ExampleDayMonth(Timestamp(2020, 3, 8, 0, 0, 0, 0), "08/03");
    ExampleWeeks();
    NextWeekOfRendered(Timestamp(2020, 3, 1, 0, 0, 0, 0));
  }

  /** The weekly feed request mapped through `makeTransactionSectionData`. */
  function Classified(feed: Result<seq<FeedItem>>): Result<seq<TransactionSectionData>> {
    match feed
    case Ok(items) => Ok(MakeTransactionSectionData(items))
    case Err(e) => Err(e)
  }

  /** `TransactionsViewModel`. Its request provider, the hard-coded category and the session's
      account id only shape requests, whose outcomes are parameters here. */
  class TransactionsViewModel {
    var dataSource: seq<TransactionSectionData>
    /** Every value emitted on `isLoading`, oldest first. */
    var isLoading: seq<bool>
    /** Every error emitted on `errorPublisher`, oldest first. */
    var errorPublisher: seq<Error>
    /** Every string emitted on `dateRange`, oldest first. */
    var dateRange: seq<string>
    /** Every emission on any of the outputs above, oldest first: the order across them. */
    var emissions: seq<Emission<seq<TransactionSectionData>>>

    /** `init(provider:accountId:)`: an empty data source and nothing emitted yet. */
    constructor ()
      ensures dataSource == [] && isLoading == [] && errorPublisher == [] && dateRange == []
      ensures emissions == []
    {
      dataSource := [];
      isLoading := [];
      errorPublisher := [];
      dateRange := [];
      emissions := [];
    }

    function Signals(): Signals<seq<TransactionSectionData>>
      reads this
    {
      Reactive.Signals(dataSource, isLoading, errorPublisher)
    }

    /** The `subscribe` handler of `updateDataSource`. */
    method HandleFeedEvent(event: Event<seq<TransactionSectionData>>)
      modifies this
      ensures Signals() == OnEvent(old(Signals()), event)
      ensures emissions == old(emissions) + [EventEmission(event)]
      ensures dateRange == old(dateRange)
    {
      emissions := emissions + [EventEmission(event)];
      match event
      case Next(sections) => dataSource := sections;
      case Failed(e) => errorPublisher := errorPublisher + [e];
      case Completed => isLoading := isLoading + [false];
    }

    /** `updateDataSource(startDate:endDate:)` given the outcome of the weekly feed request:
        `true` on subscription, then the classified feed delivered as an observable to the
        handler. On success the sections replace the data source and completion emits
        `false`; on failure the error is published, the data source is kept and `isLoading`
        is left at `true`. */
    method UpdateDataSource(feed: Result<seq<FeedItem>>)
      modifies this
      ensures Signals() == Run(old(Signals()).(loading := old(isLoading) + [true]),
                               ObservableOf(Classified(feed)))
      ensures isLoading == old(isLoading) + [true] + (if feed.Ok? then [false] else [])
      ensures dataSource == (if feed.Ok? then MakeTransactionSectionData(feed.value) else old(dataSource))
      ensures errorPublisher == old(errorPublisher) + (if feed.Err? then [feed.error] else [])
      ensures emissions == old(emissions) + [Loading(true)]
                           + StreamEmissions(ObservableOf(Classified(feed)))
      ensures dateRange == old(dateRange)
    {
      isLoading := isLoading + [true];
      emissions := emissions + [Loading(true)];
      RunSingle(Signals(), Classified(feed));
      match feed
      case Ok(items) =>
        HandleFeedEvent(Next(MakeTransactionSectionData(items)));
        HandleFeedEvent(Completed);
      case Err(e) =>
        HandleFeedEvent(Failed(e));
    }

    /** `updateDateRange(dateTime:)`: emits the range text once, or nothing when the start
        does not parse. */
    method UpdateDateRange(dateTime: string)
      modifies this
      ensures dateRange == old(dateRange)
                           + (if DateRangeText(dateTime).Some? then [DateRangeText(dateTime).value] else [])
      ensures emissions == old(emissions)
                           + (if DateRangeText(dateTime).Some? then [RangeText(DateRangeText(dateTime).value)] else [])
      ensures Signals() == old(Signals())
    {
      match DateRangeText(dateTime)
      case Some(text) =>
        dateRange := dateRange + [text];
        emissions := emissions + [RangeText(text)];
      case None =>
    }

    /** `refreshData(with:)`: the start must parse (the end date is force-unwrapped); the range
        text is emitted before the feed for the window [dateTime, endDate] is requested, so
        before its `true` on `isLoading`. */
    method RefreshDataWith(dateTime: string, feed: Result<seq<FeedItem>>) returns (endDate: string)
      requires CalculateNextWeek(dateTime).Some?
      modifies this
      ensures endDate == CalculateNextWeek(dateTime).value
      ensures dateRange == old(dateRange) + [DateRangeText(dateTime).value]
      ensures isLoading == old(isLoading) + [true] + (if feed.Ok? then [false] else [])
      ensures dataSource == (if feed.Ok? then MakeTransactionSectionData(feed.value) else old(dataSource))
      ensures errorPublisher == old(errorPublisher) + (if feed.Err? then [feed.error] else [])
      ensures emissions == old(emissions) + [RangeText(DateRangeText(dateTime).value), Loading(true)]
                           + StreamEmissions(ObservableOf(Classified(feed)))
    {
      endDate := CalculateNextWeek(dateTime).value;
      UpdateDateRange(dateTime);
      UpdateDataSource(feed);
    }

    /** The `subscribe` handler of `refreshData()`. */
    method HandleRefreshEvent(outcome: Result<seq<TransactionSectionData>>)
      modifies this
      ensures Signals() == OnSingleEvent(old(Signals()), outcome)
      ensures emissions == old(emissions) + SingleEmissions(outcome)
      ensures dateRange == old(dateRange)
    {
      emissions := emissions + SingleEmissions(outcome);
      match outcome
      case Ok(sections) =>
        dataSource := sections;
        isLoading := isLoading + [false];
      case Err(e) =>
        errorPublisher := errorPublisher + [e];
        isLoading := isLoading + [false];
    }

    /** `refreshData()` given the outcome of the whole-feed request: `true` before the request,
        then exactly one `false` whatever the outcome; failure keeps the data source. */
    method RefreshData(feed: Result<seq<FeedItem>>)
      modifies this
      ensures isLoading == old(isLoading) + [true, false]
      ensures dataSource == (if feed.Ok? then MakeTransactionSectionData(feed.value) else old(dataSource))
      ensures errorPublisher == old(errorPublisher) + (if feed.Err? then [feed.error] else [])
      ensures emissions == old(emissions) + [Loading(true)] + SingleEmissions(Classified(feed))
      ensures dateRange == old(dateRange)
    {
      isLoading := isLoading + [true];
      emissions := emissions + [Loading(true)];
      HandleRefreshEvent(Classified(feed));
    }
  }
}
