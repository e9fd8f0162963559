/** The pickup-time picker (app/components/time-picker.tsx): the next five weekdays, the
    15-minute slot labels of a day, and the parse of a chosen label back to a 24-hour time.
    A date is a day number counted from 1970-01-01 (a Thursday); a chosen pickup time is the
    triple (day, hour, minute) in local time. */
module TimePicker {
  import opened Util

  // ---------------------------------------------------------------------------
  // Calendar
  // ---------------------------------------------------------------------------

  /** `Date.getDay()`: 0 is Sunday, 6 is Saturday. */
  function DayOfWeek(day: int): (w: int)
    ensures 0 <= w < 7
  {
    (day + 4) % 7
  }

  predicate IsWeekday(day: int) { DayOfWeek(day) != 0 && DayOfWeek(day) != 6 }

  predicate IsFriday(day: int) { DayOfWeek(day) == 5 }

  /** Weekend days still to come from `day` on, counting it: 2 on Saturday, 1 on Sunday. */
  function WeekendLeft(day: int): nat
  {
    if DayOfWeek(day) == 6 then 2 else if DayOfWeek(day) == 0 then 1 else 0
  }

  lemma NextDayOfWeek(day: int)
    ensures DayOfWeek(day + 1) == (DayOfWeek(day) + 1) % 7
  {
  }

  /** What the day effect promises: five weekdays from `today` on, ascending, with no weekday
      between `today` and the last one left out. */
  ghost predicate IsBusinessDayList(today: int, days: seq<int>)
  {
    && |days| == 5
    && (forall i :: 0 <= i < |days| ==> IsWeekday(days[i]) && today <= days[i])
    && (forall i, j :: 0 <= i < j < |days| ==> days[i] < days[j])
    && (forall d :: today <= d <= days[4] && IsWeekday(d) ==> d in days)
  }

  /** The loop of the day effect: walk forward from `today`, keeping the weekdays, until five
      are collected. */
  method BusinessDays(today: int) returns (days: seq<int>)
    ensures |days| == 5
    ensures forall i :: 0 <= i < |days| ==> IsWeekday(days[i]) && today <= days[i]
    ensures forall i, j :: 0 <= i < j < |days| ==> days[i] < days[j]
    ensures forall d :: today <= d <= days[4] && IsWeekday(d) ==> d in days
  {
    days := [];
    var daysToAdd := 0;
    while |days| < 5
      invariant |days| <= 5 && daysToAdd >= 0
      invariant forall i :: 0 <= i < |days| ==> IsWeekday(days[i]) && today <= days[i] < today + daysToAdd
      invariant forall i, j :: 0 <= i < j < |days| ==> days[i] < days[j]
      invariant forall d :: today <= d < today + daysToAdd && IsWeekday(d) ==> d in days
      decreases 5 - |days|, WeekendLeft(today + daysToAdd)
    {
      var nextDate := today + daysToAdd;
      var dayOfWeek := DayOfWeek(nextDate);
      NextDayOfWeek(nextDate);
      if dayOfWeek != 0 && dayOfWeek != 6 {
        days := days + [nextDate];
      }
      daysToAdd := daysToAdd + 1;
    }
  }

  /** Consecutive entries of the list are one day apart, or three across a weekend. */
  lemma {:induction false} BusinessDaysAreConsecutive(today: int, days: seq<int>, i: int)
    requires IsBusinessDayList(today, days)
    requires 0 <= i < 4
    ensures days[i + 1] - days[i] == 1 || (days[i + 1] - days[i] == 3 && DayOfWeek(days[i]) == 5)
  {
    var d := days[i];
    NextDayOfWeek(d);
    NextDayOfWeek(d + 1);
    NextDayOfWeek(d + 2);
    if DayOfWeek(d) != 5 {
      assert IsWeekday(d + 1);
      assert d + 1 in days;
      var j :| 0 <= j < 5 && days[j] == d + 1;
      assert i < j;
      assert days[i + 1] <= days[j];
    } else {
      assert !IsWeekday(d + 1) && !IsWeekday(d + 2) && IsWeekday(d + 3);
      assert days[i + 1] > d && IsWeekday(days[i + 1]);
      assert days[i + 1] >= d + 3;
      assert d + 3 in days;
      var j :| 0 <= j < 5 && days[j] == d + 3;
      assert i < j;
      assert days[i + 1] <= days[j];
    }
  }

  // ---------------------------------------------------------------------------
  // Time slots
  // ---------------------------------------------------------------------------

  /** 5 PM for the night menu, 8 AM otherwise. */
  function ScheduleStart(isNightMenu: bool): nat { if isNightMenu then 17 else 8 }

  /** The hour of the last slot: 7 PM at night, 11 AM on a Friday morning, 12 PM otherwise. */
  function ScheduleEnd(isNightMenu: bool, isFriday: bool): nat
  {
    if isNightMenu then 19 else if isFriday then 11 else 12
  }

  /** The minute of the last slot: :30 at night and on a Friday morning, :45 otherwise. */
  function ScheduleEndMinutes(isNightMenu: bool, isFriday: bool): nat
  {
    if isNightMenu then 30 else if isFriday then 30 else 45
  }

  /** The label of a slot: the hour on the 12-hour clock (12 for 0 and 12), the minute on two
      digits, then `AM` before noon and `PM` from noon on. */
  function Label(hour: nat, minute: nat): string
  {
    var displayHour := if hour % 12 == 0 then 12 else hour % 12;
    NatToString(displayHour) + ":" + PadTwo(NatToString(minute)) + " " + (if hour >= 12 then "PM" else "AM")
  }

  /** A label ends with a space and its meridiem: `AM` exactly before noon. */
  lemma LabelMeridiem(hour: nat, minute: nat)
    ensures |Label(hour, minute)| >= 6 && Label(hour, minute)[|Label(hour, minute)| - 3] == ' '
    ensures Label(hour, minute)[|Label(hour, minute)| - 2..] == (if hour < 12 then "AM" else "PM")
  {
  }

  /** How many slots a day offers: none for the night menu on a Friday, else one every quarter
      hour from the start to the last slot, both included. */
  function SlotCount(isNightMenu: bool, isFriday: bool): nat
  {
    if isFriday && isNightMenu then 0
    else (ScheduleEnd(isNightMenu, isFriday) - ScheduleStart(isNightMenu)) * 4
         + ScheduleEndMinutes(isNightMenu, isFriday) / 15 + 1
  }

  function SlotHour(isNightMenu: bool, k: nat): nat { ScheduleStart(isNightMenu) + k / 4 }

  function SlotMinute(k: nat): nat { (k % 4) * 15 }

  /** Slot `k` lies `15 * k` minutes after the start of the schedule. */
  lemma SlotIsQuarterSteps(isNightMenu: bool, k: nat)
    ensures SlotHour(isNightMenu, k) * 60 + SlotMinute(k) == ScheduleStart(isNightMenu) * 60 + 15 * k
  {
  }

  /** The slot list of a day: `SlotCount` labels, the `k`-th at slot `k`. */
  ghost predicate IsSlotList(times: seq<string>, isNightMenu: bool, isFriday: bool)
  {
    && |times| == SlotCount(isNightMenu, isFriday)
    && forall k :: 0 <= k < |times| ==> times[k] == Label(SlotHour(isNightMenu, k), SlotMinute(k))
  }

  /** The labels in `times` are the first `|times|` slots. */
  ghost predicate SlotsSoFar(times: seq<string>, isNightMenu: bool)
  {
    forall k :: 0 <= k < |times| ==> times[k] == Label(SlotHour(isNightMenu, k), SlotMinute(k))
  }

  /** The slot at `minute` past `hour` is number `(hour - start) * 4 + minute / 15`. */
  lemma SlotIndex(isNightMenu: bool, hour: nat, minute: nat)
    requires ScheduleStart(isNightMenu) <= hour && minute % 15 == 0 && minute < 60
    ensures SlotHour(isNightMenu, (hour - ScheduleStart(isNightMenu)) * 4 + minute / 15) == hour
    ensures SlotMinute((hour - ScheduleStart(isNightMenu)) * 4 + minute / 15) == minute
  {
  }

  /** Appending the label of the next slot keeps the list a prefix of the slots. */
  lemma SlotsSoFarSnoc(times: seq<string>, isNightMenu: bool, hour: nat, minute: nat)
    requires SlotsSoFar(times, isNightMenu)
    requires ScheduleStart(isNightMenu) <= hour && minute % 15 == 0 && minute < 60
    requires |times| == (hour - ScheduleStart(isNightMenu)) * 4 + minute / 15
    ensures SlotsSoFar(times + [Label(hour, minute)], isNightMenu)
  {
    var n := |times|;
    SlotIndex(isNightMenu, hour, minute);
    assert SlotHour(isNightMenu, n) == hour && SlotMinute(n) == minute;
    var t := times + [Label(hour, minute)];
    forall k | 0 <= k < |t| ensures t[k] == Label(SlotHour(isNightMenu, k), SlotMinute(k)) {
      if k < n {
        assert t[k] == times[k];
      } else {
        assert k == n;
      }
    }
  }

  /** The number of slots of each kind of day. */
  lemma SlotCountValues(isNightMenu: bool, isFriday: bool)
    ensures isFriday && isNightMenu ==> SlotCount(isNightMenu, isFriday) == 0
    ensures !isNightMenu && !isFriday ==> SlotCount(isNightMenu, isFriday) == 20
    ensures !isNightMenu && isFriday ==> SlotCount(isNightMenu, isFriday) == 15
    ensures isNightMenu && !isFriday ==> SlotCount(isNightMenu, isFriday) == 11
    ensures SlotCount(isNightMenu, isFriday) == 0 <==> isFriday && isNightMenu
  {
  }

  /** The loops of the time effect: hours from the start to the end hour, and in each hour the
      quarters up to :59, or up to the end minute in the last hour. */
  method TimeSlots(isNightMenu: bool, isFriday: bool) returns (times: seq<string>)
    ensures |times| == SlotCount(isNightMenu, isFriday)
    ensures forall k :: 0 <= k < |times| ==> times[k] == Label(SlotHour(isNightMenu, k), SlotMinute(k))
    ensures isFriday && isNightMenu ==> times == []
    ensures !isNightMenu && !isFriday ==> |times| == 20
    ensures !isNightMenu && isFriday ==> |times| == 15
    ensures isNightMenu && !isFriday ==> |times| == 11
  {
    times := [];
    var scheduleStart := ScheduleStart(isNightMenu);
    var scheduleEnd := ScheduleEnd(isNightMenu, isFriday);
    var scheduleEndMinutes := ScheduleEndMinutes(isNightMenu, isFriday);
    SlotCountValues(isNightMenu, isFriday);

    if isFriday && isNightMenu {
      return;
    }

    var hour := scheduleStart;
    while hour <= scheduleEnd
      invariant scheduleStart <= hour <= scheduleEnd + 1
      invariant hour <= scheduleEnd ==> |times| == (hour - scheduleStart) * 4
      invariant hour == scheduleEnd + 1 ==> |times| == SlotCount(isNightMenu, isFriday)
      invariant SlotsSoFar(times, isNightMenu)
    {
      var minuteEnd := if hour == scheduleEnd then scheduleEndMinutes else 59;
      var minute := 0;
      ghost var quarters := 0;
      while minute <= minuteEnd
        invariant minute == 15 * quarters && 0 <= quarters <= minuteEnd / 15 + 1
        invariant |times| == (hour - scheduleStart) * 4 + quarters
        invariant SlotsSoFar(times, isNightMenu)
      {
        assert minute / 15 == quarters;
        SlotsSoFarSnoc(times, isNightMenu, hour, minute);
        times := times + [Label(hour, minute)];
        minute := minute + 15;
        quarters := quarters + 1;
      }
      assert quarters == minuteEnd / 15 + 1;
      assert hour < scheduleEnd ==> quarters == 4;
      hour := hour + 1;
    }
  }

  /** The first slot is at the start of the schedule and the last at its end. */
  lemma SlotBounds(isNightMenu: bool, isFriday: bool)
    requires SlotCount(isNightMenu, isFriday) > 0
    ensures SlotHour(isNightMenu, 0) == ScheduleStart(isNightMenu) && SlotMinute(0) == 0
    ensures SlotHour(isNightMenu, SlotCount(isNightMenu, isFriday) - 1) == ScheduleEnd(isNightMenu, isFriday)
    ensures SlotMinute(SlotCount(isNightMenu, isFriday) - 1) == ScheduleEndMinutes(isNightMenu, isFriday)
  {
  }

  // ---------------------------------------------------------------------------
  // Parsing a chosen label
  // ---------------------------------------------------------------------------

  /** `handleTimeSelect`'s reading of a label as a 24-hour hour and a minute: split at the space
      and at the colon, `parseInt` both numbers, add 12 to a PM hour other than 12 and turn
      12 AM into 0. `None` stands for the NaN `parseInt` gives when a number is missing. */
  function ParseTime(time: string): Option<(int, int)>
  {
    var parts := Split(time, ' ');
    var meridiem := if |parts| > 1 then Some(parts[1]) else None;
    var hm := Split(parts[0], ':');
    var hours := ParseInt(hm[0]);
    var minutes := if |hm| > 1 then ParseInt(hm[1]) else None;
    if hours.None? || minutes.None? then None
    else
      var hour := if meridiem == Some("PM") && hours.value != 12 then hours.value + 12 else hours.value;
      var hour' := if meridiem == Some("AM") && hour == 12 then 0 else hour;
      Some((hour', minutes.value))
  }

  /** The NaN path of `handleTimeSelect`: the parse fails exactly when the hour or the minute
      piece has no leading digits or the minute is missing, so a string that does not start with
      a digit, or has no colon, always fails; a successful parse gives non-negative numbers. */
  lemma ParseTimeFails(time: string)
    ensures ParseTime(time).None? <==>
              ParseInt(Split(Split(time, ' ')[0], ':')[0]).None? ||
              |Split(Split(time, ' ')[0], ':')| < 2 ||
              ParseInt(Split(Split(time, ' ')[0], ':')[1]).None?
    ensures time == [] || !IsDigit(time[0]) ==> ParseTime(time).None?
    ensures ':' !in time ==> ParseTime(time).None?
    ensures ParseTime(time).Some? ==> ParseTime(time).value.0 >= 0 && ParseTime(time).value.1 >= 0
  {
    var front := Split(time, ' ')[0];
    SplitFirst(time, ' ');
    SplitFirst(front, ':');
    var hour := Split(front, ':')[0];
    if hour != [] {
      assert hour[0] == time[0];
    }
    if ':' !in time {
      assert ':' !in front by {
        forall i | 0 <= i < |front| ensures front[i] != ':' {
          assert front[i] == time[i];
        }
      }
      SplitNone(front, ':');
    }
  }

  lemma NoNonDigitInDigits(s: string, c: char)
    requires AllDigits(s) && !IsDigit(c)
    ensures c !in s
  {
  }

  /** The two-digit minute reads back as the minute. */
  lemma ParseMinute(minute: nat)
    requires minute < 60
    ensures AllDigits(PadTwo(NatToString(minute)))
    ensures ParseInt(PadTwo(NatToString(minute))) == Some(minute)
  {
    var s := NatToString(minute);
    if minute >= 10 {
      ParseIntOfNatToString(minute, []);
      assert s + [] == s;
    } else {
      var p := PadTwo(s);
      assert p == ['0', DigitChar(minute)];
      LeadingDigitsOfDigitsThen(p, []);
      assert p + [] == p;
      assert p[..1] == ['0'];
      assert DigitsValue(p) == DigitsValue(p[..1]) * 10 + minute;
    }
  }

  /** A label made of digits, a colon, digits, a space and a meridiem splits into those parts. */
  lemma SplitLabel(h: string, m: string, ampm: string)
    requires AllDigits(h) && AllDigits(m) && (ampm == "AM" || ampm == "PM")
    ensures Split(h + ":" + m + " " + ampm, ' ') == [h + ":" + m, ampm]
    ensures Split(h + ":" + m, ':') == [h, m]
  {
    NoNonDigitInDigits(h, ' ');
    NoNonDigitInDigits(h, ':');
    NoNonDigitInDigits(m, ' ');
    NoNonDigitInDigits(m, ':');
    var timePart := h + ":" + m;
    assert timePart == h + [':'] + m;
    assert ' ' !in timePart;
    assert h + ":" + m + " " + ampm == timePart + [' '] + ampm;
    SplitAt(timePart, ' ', ampm);
    SplitNone(ampm, ' ');
    SplitAt(h, ':', m);
    SplitNone(m, ':');
  }

  /** What `ParseTime` makes of such a label, in terms of its two numbers. */
  lemma ParseLabelParts(h: string, m: string, ampm: string, hours: nat, minutes: nat)
    requires AllDigits(h) && AllDigits(m) && (ampm == "AM" || ampm == "PM")
    requires ParseInt(h) == Some(hours) && ParseInt(m) == Some(minutes)
    ensures ParseTime(h + ":" + m + " " + ampm) ==
              Some((if ampm == "PM" && hours != 12 then hours + 12
                    else if ampm == "AM" && hours == 12 then 0
                    else hours, minutes))
  {
    SplitLabel(h, m, ampm);
  }

  /** Parsing the label of any clock time gives that time back. */
  lemma ParseLabel(hour: nat, minute: nat)
    requires hour < 24 && minute < 60
    ensures ParseTime(Label(hour, minute)) == Some((hour, minute))
  {
    var displayHour := if hour % 12 == 0 then 12 else hour % 12;
    var h := NatToString(displayHour);
    var m := PadTwo(NatToString(minute));
    var ampm := if hour >= 12 then "PM" else "AM";
    assert AllDigits(m) && ParseInt(m) == Some(minute) by {
      ParseMinute(minute);
    }
    assert AllDigits(h) && ParseInt(h) == Some(displayHour) by {
      ParseIntOfNatToString(displayHour, []);
      assert h + [] == h;
    }
    var t := h + ":" + m + " " + ampm;
    assert Label(hour, minute) == t;
    assert ParseTime(t) == Some((hour, minute)) by {
      ParseLabelParts(h, m, ampm, displayHour, minute);
      MeridiemRestoresHour(hour);
    }
  }

  /** The meridiem adjustment of `handleTimeSelect` undoes the 12-hour display of `Label`. */
  lemma MeridiemRestoresHour(hour: nat)
    requires hour < 24
    ensures var displayHour := if hour % 12 == 0 then 12 else hour % 12;
            var ampm := if hour >= 12 then "PM" else "AM";
            (if ampm == "PM" && displayHour != 12 then displayHour + 12
             else if ampm == "AM" && displayHour == 12 then 0
             else displayHour) == hour
  {
  }

  /** The slots come in strictly increasing time order. */
  lemma SlotsAscending(isNightMenu: bool, i: nat, j: nat)
    requires i < j
    ensures SlotHour(isNightMenu, i) * 60 + SlotMinute(i) < SlotHour(isNightMenu, j) * 60 + SlotMinute(j)
  {
    SlotIsQuarterSteps(isNightMenu, i);
    SlotIsQuarterSteps(isNightMenu, j);
  }

  // ---------------------------------------------------------------------------
  // The component
  // ---------------------------------------------------------------------------

  /** What `onChange` receives: the empty string, or a date with hour and minute set. */
  datatype PickupValue = Cleared | At(day: int, hour: int, minute: int)

  /** The outcome of choosing a time: no call without a selected day, a call with the chosen
      time, or the exception `toISOString` throws on the invalid date a missing number gives. */
  datatype TimeSelection = Ignored | Emitted(value: PickupValue) | Throws

  /** `setHours(hour)` then `setMinutes(minute)` on a date: overflowing hours and minutes carry
      into the following days and hours. */
  function SetTime(day: int, hour: nat, minute: nat): (v: PickupValue)
    ensures hour < 24 && minute < 60 ==> v == At(day, hour, minute)
  {
    var total := hour * 60 + minute;
    At(day + total / 1440, (total % 1440) / 60, total % 60)
  }

  /** Choosing the label of a slot picks exactly that slot on the selected day. */
  lemma ChoosingSlotPicksIt(day: int, isNightMenu: bool, isFriday: bool, k: nat)
    requires k < SlotCount(isNightMenu, isFriday)
    ensures ParseTime(Label(SlotHour(isNightMenu, k), SlotMinute(k))) == Some((SlotHour(isNightMenu, k), SlotMinute(k)))
    ensures SetTime(day, SlotHour(isNightMenu, k), SlotMinute(k)) == At(day, SlotHour(isNightMenu, k), SlotMinute(k))
  {
    assert SlotHour(isNightMenu, k) <= ScheduleEnd(isNightMenu, isFriday);
    ParseLabel(SlotHour(isNightMenu, k), SlotMinute(k));
  }

  /** The picker's state: the offered days, the selected day and the offered times. The chosen
      time itself belongs to the parent, which hears of it through `onChange`. */
  class TimePickerState {
    var availableDays: seq<int>
    var selectedDay: Option<int>
    var availableTimes: seq<string>

    constructor ()
      ensures availableDays == [] && selectedDay == None && availableTimes == []
    {
      availableDays := [];
      selectedDay := None;
      availableTimes := [];
    }

    /** The day effect: offer the next five weekdays and select the first when none is. */
    method LoadDays(today: int)
      modifies this`availableDays, this`selectedDay
      ensures IsBusinessDayList(today, availableDays)
      ensures selectedDay == if old(selectedDay).None? then Some(availableDays[0]) else old(selectedDay)
    {
      var days := BusinessDays(today);
      availableDays := days;
      if |days| > 0 && selectedDay.None? {
        selectedDay := Some(days[0]);
      }
    }

    /** The time effect: without a selected day nothing changes; otherwise offer that day's slots. */
    method LoadTimes(isNightMenu: bool)
      modifies this`availableTimes
      ensures selectedDay.None? ==> availableTimes == old(availableTimes)
      ensures selectedDay.Some? ==> IsSlotList(availableTimes, isNightMenu, IsFriday(selectedDay.value))
    {
      if selectedDay.None? {
        return;
      }
      var times := TimeSlots(isNightMenu, IsFriday(selectedDay.value));
      availableTimes := times;
    }

    /** `handleDaySelect`: select the offered day with that date (none if it is not offered) and
      always reset the parent's time to the empty string. */
    method HandleDaySelect(day: int) returns (emitted: PickupValue)
      modifies this`selectedDay
      ensures selectedDay == (if day in availableDays then Some(day) else None)
      ensures emitted == Cleared
    {
      selectedDay := if day in availableDays then Some(day) else None;
      emitted := Cleared;
    }

    /** `handleTimeSelect`: nothing without a selected day; else the selected day at the parsed
      time. */
    method HandleTimeSelect(time: string) returns (r: TimeSelection)
      ensures selectedDay.None? ==> r == Ignored
      ensures selectedDay.Some? && ParseTime(time).None? ==> r == Throws
      ensures selectedDay.Some? && ParseTime(time).Some? ==>
                r.Emitted? && r.value.At? && r.value.day >= selectedDay.value
      ensures selectedDay.Some? && ParseTime(time).Some? && 0 <= ParseTime(time).value.0 < 24 &&
              0 <= ParseTime(time).value.1 < 60 ==>
                r == Emitted(At(selectedDay.value, ParseTime(time).value.0, ParseTime(time).value.1))
    {
      if selectedDay.None? {
        return Ignored;
      }
      var parsed := ParseTime(time);
      if parsed.None? {
        return Throws;
      }
      var (hour, minute) := parsed.value;
      assert hour >= 0 && minute >= 0;
      r := Emitted(SetTime(selectedDay.value, hour, minute));
    }
  }
}
