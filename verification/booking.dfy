/** The table-booking form: the availability index built from bookings and
    events, the per-table booked flags, single-table selection and the
    reservation payload (components/Booking.js).
    Dates are day numbers; hours are half-hour indices (14:30 is 29), and a
    duration is a number of half-hour slots. */
module Bookings {
  import opened Wrappers
  import opened AmountWidgets

  /** A table number as parseInt leaves it; None is NaN. */
  type TableNum = Option<int>
  /** booked[date][hour]: the tables listed at each half-hour slot of a day. */
  type DaySlots = map<int, seq<TableNum>>
  type Index = map<int, DaySlots>

  /** A table element's id attribute: a number, or text that is not one. */
  datatype TableAttr = Numeric(n: int) | NonNumeric

  /** A booking or a one-off event. */
  datatype Entry = Entry(date: int, hour: int, slots: int, table: TableNum)
  /** An event with a repeat frequency; its own date plays no part. */
  datatype RepeatEvent = RepeatEvent(repeat: string, hour: int, slots: int, table: TableNum)

  /** The list at booked[date][hour], or the empty list when either key is missing. */
  function Slot(b: Index, date: int, hour: int): seq<TableNum>
  {
    if date in b && hour in b[date] then b[date][hour] else []
  }

  /** Table number n is booked at (date, hour). */
  predicate IsBooked(b: Index, date: int, hour: int, n: int)
  {
    date in b && hour in b[date] && Some(n) in b[date][hour]
  }

  /** Appends table to every slot of day from lo up to, not including, hi. */
  function AppendSlots(day: DaySlots, lo: int, hi: int, table: TableNum): DaySlots
    decreases hi - lo
  {
    if lo >= hi then day
    else AppendSlots(day[lo := (if lo in day then day[lo] else []) + [table]], lo + 1, hi, table)
  }

  /** Slot h exists afterwards exactly when it existed or lies in lo..hi-1,
      and it gains table exactly when it lies there. */
  lemma {:induction false} AppendSlotsAt(day: DaySlots, lo: int, hi: int, table: TableNum, h: int)
    ensures var r := AppendSlots(day, lo, hi, table);
      (h in r <==> h in day || lo <= h < hi)
      && (h in r ==> r[h] == (if h in day then day[h] else []) + (if lo <= h < hi then [table] else []))
    decreases hi - lo
  {
    if lo < hi {
      AppendSlotsAt(day[lo := (if lo in day then day[lo] else []) + [table]], lo + 1, hi, table, h);
    }
  }

  /** makeBooked's effect: the date gets an entry, and table is appended to
      each slot from hour for `slots` half-hours; nothing else changes. */
  function MarkOccupied(b: Index, date: int, hour: int, slots: int, table: TableNum): (r: Index)
    ensures date in r
    ensures forall d :: d != date ==> (d in r <==> d in b) && (d in b ==> r[d] == b[d])
    ensures forall h :: h in r[date] <==> (date in b && h in b[date]) || hour <= h < hour + slots
    ensures forall d, h :: Slot(r, d, h) == Slot(b, d, h) + (if d == date && hour <= h < hour + slots then [table] else [])
  {
    var day := if date in b then b[date] else map[];
    var r := b[date := AppendSlots(day, hour, hour + slots, table)];
    assert forall h ::
             && (h in r[date] <==> h in day || hour <= h < hour + slots)
             && (h in r[date] ==> r[date][h] == (if h in day then day[h] else []) + (if hour <= h < hour + slots then [table] else [])) by {
      forall h
        ensures && (h in r[date] <==> h in day || hour <= h < hour + slots)
                && (h in r[date] ==> r[date][h] == (if h in day then day[h] else []) + (if hour <= h < hour + slots then [table] else []))
      {
        AppendSlotsAt(day, hour, hour + slots, table, h);
      }
    }
    r
  }

  /** A table is booked after makeBooked exactly when it was booked before or
      is the table just booked, on that date, within its slots. */
  lemma MarkOccupiedBooked(b: Index, date: int, hour: int, slots: int, table: TableNum, d: int, h: int, n: int)
    ensures IsBooked(MarkOccupied(b, date, hour, slots, table), d, h, n) <==>
      IsBooked(b, d, h, n) || (d == date && hour <= h < hour + slots && table == Some(n))
  {
    var r := MarkOccupied(b, date, hour, slots, table);
    assert IsBooked(r, d, h, n) <==> Some(n) in Slot(r, d, h);
    assert IsBooked(b, d, h, n) <==> Some(n) in Slot(b, d, h);
  }

  /** makeBooked never removes a table: every slot keeps its earlier list as a prefix. */
  lemma MarkOccupiedKeepsEarlier(b: Index, date: int, hour: int, slots: int, table: TableNum, d: int, h: int)
    ensures Slot(b, d, h) <= Slot(MarkOccupied(b, date, hour, slots, table), d, h)
  {
  }

  /** Booking the same table twice lists it twice in each of its slots. */
  lemma BookedTwiceListedTwice(b: Index, date: int, hour: int, slots: int, table: TableNum, h: int)
    requires hour <= h < hour + slots
    ensures var twice := MarkOccupied(MarkOccupied(b, date, hour, slots, table), date, hour, slots, table);
      Slot(twice, date, h) == Slot(b, date, h) + [table, table]
  {
    var once := MarkOccupied(b, date, hour, slots, table);
    assert Slot(once, date, h) == Slot(b, date, h) + [table];
  }

  /** A non-positive duration lists nothing, though the date may gain an empty entry. */
  lemma NoSlotsNoChange(b: Index, date: int, hour: int, slots: int, table: TableNum)
    requires slots <= 0
    ensures var r := MarkOccupied(b, date, hour, slots, table);
      (forall d, h :: Slot(r, d, h) == Slot(b, d, h))
      && r == b[date := if date in b then b[date] else map[]]
  {
    var r := MarkOccupied(b, date, hour, slots, table);
    var day := if date in b then b[date] else map[];
    assert r[date] == day;
  }

  /** A booking sent without a chosen table (table NaN) makes no numbered table booked. */
  lemma NaNTableBooksNothing(b: Index, date: int, hour: int, slots: int, d: int, h: int, n: int)
    ensures IsBooked(MarkOccupied(b, date, hour, slots, None), d, h, n) <==> IsBooked(b, d, h, n)
  {
    MarkOccupiedBooked(b, date, hour, slots, None, d, h, n);
  }

  // parseData's replay, as functions over the index.

  /** Every entry replayed through makeBooked, in order. */
  function Replay(b: Index, es: seq<Entry>): Index
  {
    if |es| == 0 then b
    else
      var e := es[|es| - 1];
      MarkOccupied(Replay(b, es[..|es| - 1]), e.date, e.hour, e.slots, e.table)
  }

  /** A repeated event booked on every date from lo up to, not including, hi. */
  function Daily(b: Index, e: RepeatEvent, lo: int, hi: int): Index
    decreases hi - lo
  {
    if hi <= lo then b
    else MarkOccupied(Daily(b, e, lo, hi - 1), hi - 1, e.hour, e.slots, e.table)
  }

  /** The repeated events: only those repeating 'daily' are expanded, over minDate..maxDate inclusive. */
  function ReplayRepeats(b: Index, rs: seq<RepeatEvent>, minDate: int, maxDate: int): Index
  {
    if |rs| == 0 then b
    else
      var earlier := ReplayRepeats(b, rs[..|rs| - 1], minDate, maxDate);
      var r := rs[|rs| - 1];
      if r.repeat == "daily" then Daily(earlier, r, minDate, maxDate + 1) else earlier
  }

  /** The index parseData builds from an empty one. */
  function BuildIndex(bookings: seq<Entry>, eventsCurrent: seq<Entry>, eventsRepeat: seq<RepeatEvent>,
                      minDate: int, maxDate: int): Index
  {
    ReplayRepeats(Replay(Replay(map[], bookings), eventsCurrent), eventsRepeat, minDate, maxDate)
  }

  predicate EntryCovers(e: Entry, d: int, h: int, n: int)
  {
    e.date == d && e.hour <= h < e.hour + e.slots && e.table == Some(n)
  }

  predicate RepeatCovers(r: RepeatEvent, h: int, n: int)
  {
    r.hour <= h < r.hour + r.slots && r.table == Some(n)
  }

  /** Some event repeating 'daily' covers hour h with table n. */
  predicate DailyCovers(rs: seq<RepeatEvent>, h: int, n: int)
  {
    exists i :: 0 <= i < |rs| && rs[i].repeat == "daily" && RepeatCovers(rs[i], h, n)
  }

  lemma {:induction false} ReplayBooked(b: Index, es: seq<Entry>, d: int, h: int, n: int)
    ensures IsBooked(Replay(b, es), d, h, n) <==>
      IsBooked(b, d, h, n) || exists i :: 0 <= i < |es| && EntryCovers(es[i], d, h, n)
    decreases |es|
  {
    if |es| > 0 {
      var init, e := es[..|es| - 1], es[|es| - 1];
      ReplayBooked(b, init, d, h, n);
      MarkOccupiedBooked(Replay(b, init), e.date, e.hour, e.slots, e.table, d, h, n);
      if exists i :: 0 <= i < |es| && EntryCovers(es[i], d, h, n) {
        var i :| 0 <= i < |es| && EntryCovers(es[i], d, h, n);
        if i < |init| {
          assert EntryCovers(init[i], d, h, n);
        }
      }
      if exists i :: 0 <= i < |init| && EntryCovers(init[i], d, h, n) {
        var i :| 0 <= i < |init| && EntryCovers(init[i], d, h, n);
        assert EntryCovers(es[i], d, h, n);
      }
    }
  }

  lemma {:induction false} DailyBooked(b: Index, e: RepeatEvent, lo: int, hi: int, d: int, h: int, n: int)
    ensures IsBooked(Daily(b, e, lo, hi), d, h, n) <==> IsBooked(b, d, h, n) || (lo <= d < hi && RepeatCovers(e, h, n))
    decreases hi - lo
  {
    if lo < hi {
      DailyBooked(b, e, lo, hi - 1, d, h, n);
      MarkOccupiedBooked(Daily(b, e, lo, hi - 1), hi - 1, e.hour, e.slots, e.table, d, h, n);
    }
  }

  lemma {:induction false} ReplayRepeatsBooked(b: Index, rs: seq<RepeatEvent>, minDate: int, maxDate: int, d: int, h: int, n: int)
    ensures IsBooked(ReplayRepeats(b, rs, minDate, maxDate), d, h, n) <==>
      IsBooked(b, d, h, n) || (minDate <= d <= maxDate && DailyCovers(rs, h, n))
    decreases |rs|
  {
    if |rs| > 0 {
      var init, r := rs[..|rs| - 1], rs[|rs| - 1];
      ReplayRepeatsBooked(b, init, minDate, maxDate, d, h, n);
      if r.repeat == "daily" {
        DailyBooked(ReplayRepeats(b, init, minDate, maxDate), r, minDate, maxDate + 1, d, h, n);
      }
      if exists i :: 0 <= i < |rs| && rs[i].repeat == "daily" && RepeatCovers(rs[i], h, n) {
        var i :| 0 <= i < |rs| && rs[i].repeat == "daily" && RepeatCovers(rs[i], h, n);
        if i < |init| {
          assert init[i] == rs[i];
        }
      }
      if exists i :: 0 <= i < |init| && init[i].repeat == "daily" && RepeatCovers(init[i], h, n) {
        var i :| 0 <= i < |init| && init[i].repeat == "daily" && RepeatCovers(init[i], h, n);
        assert rs[i] == init[i];
      }
    }
  }

  /** After parseData, a table is booked at (d, h) exactly when a booking or a
      one-off event covers it there, or a daily event covers hour h and d lies
      within minDate..maxDate. */
  lemma BuildIndexBooked(bookings: seq<Entry>, eventsCurrent: seq<Entry>, eventsRepeat: seq<RepeatEvent>,
                         minDate: int, maxDate: int, d: int, h: int, n: int)
    ensures IsBooked(BuildIndex(bookings, eventsCurrent, eventsRepeat, minDate, maxDate), d, h, n) <==>
      (exists i :: 0 <= i < |bookings| && EntryCovers(bookings[i], d, h, n))
      || (exists i :: 0 <= i < |eventsCurrent| && EntryCovers(eventsCurrent[i], d, h, n))
      || (minDate <= d <= maxDate && DailyCovers(eventsRepeat, h, n))
  {
    ReplayBooked(map[], bookings, d, h, n);
    ReplayBooked(Replay(map[], bookings), eventsCurrent, d, h, n);
    ReplayRepeatsBooked(Replay(Replay(map[], bookings), eventsCurrent), eventsRepeat, minDate, maxDate, d, h, n);
  }

  /** A booking at 14:00 for an hour and a half at table 5 occupies table 5 in
      the half-hour slots 14:00, 14:30 and 15:00 of its date, and nowhere else. */
  lemma ThreeSlotBookingExample(date: int, d: int, h: int, n: int)
    ensures IsBooked(BuildIndex([Entry(date, 28, 3, Some(5))], [], [], date, date), d, h, n) <==>
      d == date && h in {28, 29, 30} && n == 5
  {
    var bookings := [Entry(date, 28, 3, Some(5))];
    BuildIndexBooked(bookings, [], [], date, date, d, h, n);
    if d == date && 28 <= h <= 30 && n == 5 {
      assert EntryCovers(bookings[0], d, h, n);
    }
  }

  /** An hour-long event at 18:00 repeating daily at table 2, with dates 1..3
      visible, occupies table 2 at 18:00 and 18:30 on each of the three dates. */
  lemma DailyEventExample(d: int, h: int, n: int)
    ensures IsBooked(BuildIndex([], [], [RepeatEvent("daily", 36, 2, Some(2))], 1, 3), d, h, n) <==>
      1 <= d <= 3 && h in {36, 37} && n == 2
  {
    var repeats := [RepeatEvent("daily", 36, 2, Some(2))];
    BuildIndexBooked([], [], repeats, 1, 3, d, h, n);
    if 36 <= h <= 37 && n == 2 {
      assert repeats[0].repeat == "daily" && RepeatCovers(repeats[0], h, n);
    }
  }

  /** updateDOM's test for one table element: the slot list exists and holds
      the table's number; a non-numeric id matches nothing. */
  function ShownBooked(b: Index, date: int, hour: int, t: TableAttr): (r: bool)
    ensures r <==> t.Numeric? && IsBooked(b, date, hour, t.n)
  {
    var allAvailable := date !in b || hour !in b[date];
    match t
    case Numeric(n) => !allAvailable && Some(n) in b[date][hour]
    case NonNumeric => false
  }

  /** parseInt(choosedTableId): NaN when nothing is chosen or the id is not a number. */
  function ParseTableId(chosen: Option<TableAttr>): TableNum
  {
    match chosen
    case Some(Numeric(n)) => Some(n)
    case _ => None
  }

  datatype Checkbox = Checkbox(checked: bool, value: string)

  /** Some checked checkbox carries value v. */
  predicate IsCheckedValue(cs: seq<Checkbox>, v: string)
  {
    exists i :: 0 <= i < |cs| && cs[i].checked && cs[i].value == v
  }

  /** The values of the checked checkboxes, in document order. */
  function CheckedValues(cs: seq<Checkbox>): (r: seq<string>)
    ensures |r| <= |cs|
    ensures forall v :: v in r <==> IsCheckedValue(cs, v)
  {
    if |cs| == 0 then []
    else
      var init, c := cs[..|cs| - 1], cs[|cs| - 1];
      assert forall v :: IsCheckedValue(cs, v) <==> IsCheckedValue(init, v) || (c.checked && c.value == v) by {
        forall v ensures IsCheckedValue(cs, v) <==> IsCheckedValue(init, v) || (c.checked && c.value == v) {
          if IsCheckedValue(init, v) {
            var i :| 0 <= i < |init| && init[i].checked && init[i].value == v;
            assert cs[i] == init[i];
          }
          if IsCheckedValue(cs, v) {
            var i :| 0 <= i < |cs| && cs[i].checked && cs[i].value == v;
            if i < |init| {
              assert init[i] == cs[i];
            }
          }
        }
      }
      CheckedValues(init) + (if c.checked then [c.value] else [])
  }

  /** The checked values of a form split in two are those of the first part
      followed by those of the second: the document order is kept. */
  lemma {:induction false} CheckedValuesConcat(a: seq<Checkbox>, b: seq<Checkbox>)
    ensures CheckedValues(a + b) == CheckedValues(a) + CheckedValues(b)
    decreases |b|
  {
    if |b| == 0 {
      assert a + b == a;
    } else {
      var init := b[..|b| - 1];
      assert (a + b)[..|a + b| - 1] == a + init;
      assert (a + b)[|a + b| - 1] == b[|b| - 1];
      CheckedValuesConcat(a, init);
    }
  }

  datatype BookingPayload = BookingPayload(
    date: int, hour: int, table: TableNum, duration: int, ppl: int,
    starters: seq<string>, phone: string, address: string)

  class Booking {
    /** The table elements' id attributes, in document order. */
    const tables: seq<TableAttr>
    /** The date picker's range. */
    const minDate: int
    const maxDate: int
    const hoursWidget: AmountWidget
    const peopleWidget: AmountWidget
    var booked: Index
    var date: int
    var hour: int
    /** Which table elements carry the booked class and the chosen class. */
    var tableBooked: seq<bool>
    var tableChosen: seq<bool>
    var choosedTableId: Option<TableAttr>

    /** The flags line up with the tables, and at most one table is chosen:
        the one whose id choosedTableId holds. */
    ghost predicate Valid()
      reads this, hoursWidget, peopleWidget
    {
      hoursWidget.Valid() && peopleWidget.Valid()
      && |tableBooked| == |tables| && |tableChosen| == |tables|
      && (forall i, j :: 0 <= i < |tables| && 0 <= j < |tables| && tableChosen[i] && tableChosen[j] ==> i == j)
      && (forall i :: 0 <= i < |tables| && tableChosen[i] ==> choosedTableId == Some(tables[i]))
      && (choosedTableId.Some? ==> exists i :: 0 <= i < |tables| && tableChosen[i])
    }

    /** Renders the form with its widgets and no table chosen. The index
        starts empty; the fetched data arrive through ParseData. */
    constructor (tables: seq<TableAttr>, minDate: int, maxDate: int,
                 hoursInput: Option<int>, peopleInput: Option<int>, pickerDate: int, pickerHour: int)
      ensures Valid() && fresh(hoursWidget) && fresh(peopleWidget)
      ensures this.tables == tables && this.minDate == minDate && this.maxDate == maxDate
      ensures booked == map[] && date == pickerDate && hour == pickerHour
      ensures choosedTableId == None
      ensures forall i :: 0 <= i < |tables| ==> !tableBooked[i] && !tableChosen[i]
    {
      this.tables := tables;
      this.minDate := minDate;
      this.maxDate := maxDate;
      choosedTableId := None;
      hoursWidget := new AmountWidget(hoursInput);
      peopleWidget := new AmountWidget(peopleInput);
      booked := map[];
      date, hour := pickerDate, pickerHour;
      tableBooked := seq(|tables|, _ => false);
      tableChosen := seq(|tables|, _ => false);
    }

    /** Creates the date's entry if missing, then appends table to each
        half-hour slot from hour while the slot is before hour + slots. */
    method MakeBooked(date: int, hour: int, slots: int, table: TableNum)
      modifies this`booked
      ensures booked == MarkOccupied(old(booked), date, hour, slots, table)
    {
      ghost var day0: DaySlots := if date in booked then booked[date] else map[];
      if date !in booked {
        booked := booked[date := map[]];
      }
      var startHour := hour;
      var hourBlock := startHour;
      while hourBlock < startHour + slots
        invariant date in booked
        invariant booked == old(booked)[date := booked[date]]
        invariant AppendSlots(booked[date], hourBlock, startHour + slots, table)
               == AppendSlots(day0, startHour, startHour + slots, table)
        decreases startHour + slots - hourBlock
      {
        ghost var day := booked[date];
        if hourBlock !in booked[date] {
          booked := booked[date := booked[date][hourBlock := []]];
        }
        booked := booked[date := booked[date][hourBlock := booked[date][hourBlock] + [table]]];
        assert booked[date] == day[hourBlock := (if hourBlock in day then day[hourBlock] else []) + [table]];
        hourBlock := hourBlock + 1;
      }
    }

    /** Rebuilds the index from the three fetched lists, then refreshes the table flags. */
    method ParseData(bookings: seq<Entry>, eventsCurrent: seq<Entry>, eventsRepeat: seq<RepeatEvent>,
                     pickerDate: int, pickerHour: int)
      requires Valid()
      modifies this`booked, this`date, this`hour, this`tableBooked
      ensures Valid()
      ensures booked == BuildIndex(bookings, eventsCurrent, eventsRepeat, minDate, maxDate)
      ensures date == pickerDate && hour == pickerHour
      ensures forall i :: 0 <= i < |tables| ==> (tableBooked[i] <==> ShownBooked(booked, date, hour, tables[i]))
    {
      booked := map[];
      BookEntries(bookings);
      BookEntries(eventsCurrent);
      BookRepeats(eventsRepeat);
      UpdateDOM(pickerDate, pickerHour);
    }

    /** parseData's loop over the bookings or the one-off events. */
    method BookEntries(es: seq<Entry>)
      modifies this`booked
      ensures booked == Replay(old(booked), es)
    {
      var i := 0;
      while i < |es|
        invariant 0 <= i <= |es|
        invariant booked == Replay(old(booked), es[..i])
      {
        var item := es[i];
        MakeBooked(item.date, item.hour, item.slots, item.table);
        assert es[..i + 1][..i] == es[..i];
        i := i + 1;
      }
      assert es[..i] == es;
    }

    /** parseData's loop over the repeated events: the daily ones are booked
        on every date from minDate to maxDate. */
    method BookRepeats(rs: seq<RepeatEvent>)
      modifies this`booked
      ensures booked == ReplayRepeats(old(booked), rs, minDate, maxDate)
    {
      var i := 0;
      while i < |rs|
        invariant 0 <= i <= |rs|
        invariant booked == ReplayRepeats(old(booked), rs[..i], minDate, maxDate)
      {
        var item := rs[i];
        assert rs[..i + 1][..i] == rs[..i];
        if item.repeat == "daily" {
          BookDaily(item);
        }
        i := i + 1;
      }
      assert rs[..i] == rs;
    }

    /** The date loop for one daily event. */
    method BookDaily(item: RepeatEvent)
      modifies this`booked
      ensures booked == Daily(old(booked), item, minDate, maxDate + 1)
    {
      var loopDate := minDate;
      while loopDate <= maxDate
        invariant minDate <= loopDate && (loopDate <= maxDate + 1 || loopDate == minDate)
        invariant booked == Daily(old(booked), item, minDate, loopDate)
        decreases maxDate - loopDate
      {
        MakeBooked(loopDate, item.hour, item.slots, item.table);
        loopDate := loopDate + 1;
      }
    }

    /** Reads the pickers, then sets each table's booked flag by whether the
        slot list for that date and hour exists and holds the table's number. */
    method UpdateDOM(pickerDate: int, pickerHour: int)
      requires Valid()
      modifies this`date, this`hour, this`tableBooked
      ensures Valid()
      ensures date == pickerDate && hour == pickerHour
      ensures forall i :: 0 <= i < |tables| ==> (tableBooked[i] <==> ShownBooked(booked, date, hour, tables[i]))
    {
      date := pickerDate;
      hour := pickerHour;
      var allAvailable := false;
      if date !in booked || hour !in booked[date] {
        allAvailable := true;
      }
      var i := 0;
      while i < |tables|
        invariant 0 <= i <= |tables| && |tableBooked| == |tables|
        modifies this`tableBooked
        invariant allAvailable == (date !in booked || hour !in booked[date])
        invariant forall k :: 0 <= k < i ==> (tableBooked[k] <==> ShownBooked(booked, date, hour, tables[k]))
      {
        var isBooked := match tables[i]
          case Numeric(n) => !allAvailable && Some(n) in booked[date][hour]
          case NonNumeric => false;
        tableBooked := tableBooked[i := isBooked];
        i := i + 1;
      }
    }

    /** Clears every chosen flag and the chosen id. */
    method TableChooseReset()
      requires Valid()
      modifies this`tableChosen, this`choosedTableId
      ensures Valid()
      ensures choosedTableId == None
      ensures forall i :: 0 <= i < |tables| ==> !tableChosen[i]
    {
      var i := 0;
      while i < |tables|
        invariant 0 <= i <= |tables| && |tableChosen| == |tables|
        invariant forall k :: 0 <= k < i ==> !tableChosen[k]
        modifies this`tableChosen
      {
        tableChosen := tableChosen[i := false];
        i := i + 1;
      }
      choosedTableId := None;
    }

    /** A click on table i: reset the selection, then choose the table if it
        is free. Clicking the chosen table again keeps it chosen. */
    method ClickTable(i: nat)
      requires Valid() && i < |tables|
      modifies this`tableChosen, this`choosedTableId
      ensures Valid()
      ensures choosedTableId == if tableBooked[i] then None else Some(tables[i])
      ensures forall j :: 0 <= j < |tables| ==> (tableChosen[j] <==> j == i && !tableBooked[i])
    {
      TableChooseReset();
      if !tableBooked[i] {
        tableChosen := tableChosen[i := true];
        choosedTableId := Some(tables[i]);
        assert tableChosen[i];
      } else if tableChosen[i] {
        // Unreachable: the reset above cleared every chosen flag.
        assert false;
      }
    }

    /** The wrapper's 'updated' listener: refresh the flags, then reset the selection. */
    method OnUpdated(pickerDate: int, pickerHour: int)
      requires Valid()
      modifies this`date, this`hour, this`tableBooked, this`tableChosen, this`choosedTableId
      ensures Valid()
      ensures date == pickerDate && hour == pickerHour
      ensures forall i :: 0 <= i < |tables| ==> (tableBooked[i] <==> ShownBooked(booked, date, hour, tables[i]))
      ensures choosedTableId == None && forall i :: 0 <= i < |tables| ==> !tableChosen[i]
    {
      UpdateDOM(pickerDate, pickerHour);
      TableChooseReset();
    }

    /** The reservation payload: the date of the last refresh, the hour
        picker's value, parseInt of the chosen id, both widgets' values, the
        checked starters in order and the contact fields. */
    method SendBooking(hourValue: int, checkboxes: seq<Checkbox>, phone: string, address: string)
      returns (payload: BookingPayload)
      requires Valid()
      ensures payload.date == date && payload.hour == hourValue
      ensures payload.table == ParseTableId(choosedTableId)
      ensures payload.duration == hoursWidget.value && payload.ppl == peopleWidget.value
      ensures payload.starters == CheckedValues(checkboxes)
      ensures payload.phone == phone && payload.address == address
    {
      payload := BookingPayload(date, hourValue, ParseTableId(choosedTableId),
                                hoursWidget.input.value, peopleWidget.input.value, [], phone, address);
      var i := 0;
      while i < |checkboxes|
        invariant 0 <= i <= |checkboxes|
        invariant payload.date == date && payload.hour == hourValue
        invariant payload.table == ParseTableId(choosedTableId)
        invariant payload.duration == hoursWidget.value && payload.ppl == peopleWidget.value
        invariant payload.phone == phone && payload.address == address
        invariant payload.starters == CheckedValues(checkboxes[..i])
      {
        var check := checkboxes[i];
        if check.checked {
          payload := payload.(starters := payload.starters + [check.value]);
        }
        assert checkboxes[..i + 1][..i] == checkboxes[..i];
        i := i + 1;
      }
      assert checkboxes[..i] == checkboxes;
    }

    /** After the server accepts the reservation: book the payload's table
        over its duration (in hours, so twice as many half-hour slots), then
        refresh the flags. */
    method OnBookingSent(payload: BookingPayload, pickerDate: int, pickerHour: int)
      requires Valid()
      modifies this`booked, this`date, this`hour, this`tableBooked
      ensures Valid()
      ensures booked == MarkOccupied(old(booked), payload.date, payload.hour, 2 * payload.duration, payload.table)
      ensures date == pickerDate && hour == pickerHour
      ensures forall i :: 0 <= i < |tables| ==> (tableBooked[i] <==> ShownBooked(booked, date, hour, tables[i]))
    {
      MakeBooked(payload.date, payload.hour, 2 * payload.duration, payload.table);
      UpdateDOM(pickerDate, pickerHour);
    }
  }

  /** chooseTable registers its click listener again on every 'updated' event,
      so one click may run the handler several times, and a second click on the
      chosen table runs it again: either way the selection is that of one run. */
  method ClickTwice(booking: Booking, i: nat)
    requires booking.Valid() && i < |booking.tables|
    modifies booking`tableChosen, booking`choosedTableId
    ensures booking.Valid()
    ensures booking.tableBooked == old(booking.tableBooked)
    ensures booking.choosedTableId == if booking.tableBooked[i] then None else Some(booking.tables[i])
    ensures forall j :: 0 <= j < |booking.tables| ==> (booking.tableChosen[j] <==> j == i && !booking.tableBooked[i])
  {
    booking.ClickTable(i);
    booking.ClickTable(i);
  }

  /** A submit with no table chosen sends table NaN, and once the server
      accepts it the optimistic update books no table anywhere. */
  method SubmitWithoutTable(booking: Booking, hourValue: int, checkboxes: seq<Checkbox>, phone: string, address: string,
                            pickerDate: int, pickerHour: int)
    returns (payload: BookingPayload)
    requires booking.Valid() && booking.choosedTableId == None
    modifies booking`booked, booking`date, booking`hour, booking`tableBooked
    ensures payload.table == None
    ensures forall d, h, n :: IsBooked(booking.booked, d, h, n) <==> IsBooked(old(booking.booked), d, h, n)
  {
    payload := booking.SendBooking(hourValue, checkboxes, phone, address);
    booking.OnBookingSent(payload, pickerDate, pickerHour);
    forall d, h, n
      ensures IsBooked(booking.booked, d, h, n) <==> IsBooked(old(booking.booked), d, h, n)
    {
      NaNTableBooksNothing(old(booking.booked), payload.date, payload.hour, 2 * payload.duration, d, h, n);
    }
  }
}
