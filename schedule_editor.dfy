/**
 * The form that schedules a scraping job
 * (RezGuruAI/client/src/components/scraping/ScrapingScheduleEditor.tsx):
 * the week-day toggle, the one-line description of the chosen schedule and
 * the schedule sent to the server.
 */
module ScheduleEditor {
  import opened Core
  import opened Text

  datatype ScheduleType = OneTime | Daily | Weekly | Monthly | Custom

  /** The seven ids the check boxes offer. */
  predicate KnownDay(day: string) {
    day in ["mon", "tue", "wed", "thu", "fri", "sat", "sun"]
  }

  /** `handleDayToggle`: drop the day if selected, otherwise append it. */
  function Toggled(days: seq<string>, day: string): (r: seq<string>)
    ensures forall d :: d in r <==> if d == day then day !in days else d in days
  {
    if day in days then Filter(days, d => d != day) else days + [day]
  }

  lemma {:induction false} FilterKeepsAll<T>(s: seq<T>, keep: T -> bool)
    requires forall x :: x in s ==> keep(x)
    ensures Filter(s, keep) == s
    decreases |s|
  {
    if s != [] {
      FilterKeepsAll(s[1..], keep);
    }
  }

  lemma {:induction false} FilterDistinct<T>(s: seq<T>, keep: T -> bool)
    requires Distinct(s)
    ensures Distinct(Filter(s, keep))
    decreases |s|
  {
    if s != [] {
      assert Distinct(s[1..]) by {
        forall i, j | 0 <= i < j < |s[1..]|
          ensures s[1..][i] != s[1..][j]
        {
          assert s[i + 1] != s[j + 1];
        }
      }
      FilterDistinct(s[1..], keep);
      var rest := Filter(s[1..], keep);
      assert s[0] !in s[1..] by {
        forall k | 0 <= k < |s[1..]|
          ensures s[1..][k] != s[0]
        {
          assert s[0] != s[k + 1];
        }
      }
    }
  }

  /** Toggling keeps the selection free of repeats. */
  lemma {:induction false} ToggleDistinct(days: seq<string>, day: string)
    requires Distinct(days)
    ensures Distinct(Toggled(days, day))
  {
    if day in days {
      FilterDistinct(days, d => d != day);
    }
  }

  /** Toggling a day that was not selected, twice, gives back the same list. */
  lemma {:induction false} ToggleTwiceAbsent(days: seq<string>, day: string)
    requires day !in days
    ensures Toggled(Toggled(days, day), day) == days
  {
    var keep := (d: string) => d != day;
    FilterAppend(days, [day], keep);
    FilterKeepsAll(days, keep);
    assert Filter([day], keep) == [];
  }

  /**
   * Toggling a selected day twice keeps the same days but moves that one to
   * the end.
   */
  lemma {:induction false} ToggleTwicePresent(days: seq<string>, day: string)
    requires day in days
    ensures Toggled(Toggled(days, day), day) == Filter(days, d => d != day) + [day]
    ensures forall d :: d in Toggled(Toggled(days, day), day) <==> d in days
  {
  }

  /**
   * The label the `daysOfWeek` table gives a day id
   * (`daysOfWeek.find(d => d.id === day)?.label || day`), falling back to the
   * id itself.
   */
  function DayLabel(day: string): (r: string)
    ensures KnownDay(day) ==> |r| == 3 && ',' !in r
    ensures !KnownDay(day) ==> r == day
  {
    match day
    case "mon" => "Mon" case "tue" => "Tue" case "wed" => "Wed" case "thu" => "Thu"
    case "fri" => "Fri" case "sat" => "Sat" case "sun" => "Sun"
    case _ => day
  }

  /** The inverse lookup, from a label back to its id. */
  function DayId(text: string): string {
    match text
    case "Mon" => "mon" case "Tue" => "tue" case "Wed" => "wed" case "Thu" => "thu"
    case "Fri" => "fri" case "Sat" => "sat" case "Sun" => "sun"
    case _ => text
  }

  lemma {:induction false} DayIdLabel(day: string)
    requires KnownDay(day)
    ensures DayId(DayLabel(day)) == day
  {
  }

  function Labels(days: seq<string>): (r: seq<string>)
    ensures |r| == |days| && forall i :: 0 <= i < |days| ==> r[i] == DayLabel(days[i])
  {
    seq(|days|, i requires 0 <= i < |days| => DayLabel(days[i]))
  }

  /** The day list of the weekly description, in selection order. */
  function DayNames(days: seq<string>): string {
    Join(Labels(days), ", ")
  }

  /** Each piece without its first character. */
  function Unspaced(xs: seq<string>): (r: seq<string>)
    ensures |r| == |xs| && forall i :: 0 <= i < |xs| ==> r[i] == if xs[i] == [] then [] else xs[i][1..]
  {
    seq(|xs|, i requires 0 <= i < |xs| => if xs[i] == [] then [] else xs[i][1..])
  }

  function Ids(names: seq<string>): (r: seq<string>)
    ensures |r| == |names| && forall i :: 0 <= i < |names| ==> r[i] == DayId(names[i])
  {
    seq(|names|, i requires 0 <= i < |names| => DayId(names[i]))
  }

  /** Reads a day list written as `DayNames` back into ids. */
  function ReadDays(s: string): seq<string> {
    if s == "" then [] else Ids(Unspaced(Split(" " + s, ',')))
  }

  /** The weekly description names the selected days so that they can be read back, in order. */
  lemma {:induction false} DayNamesRoundTrip(days: seq<string>)
    requires forall d :: d in days ==> KnownDay(d)
    ensures ReadDays(DayNames(days)) == days
  {
    var names := Labels(days);
    if days != [] {
      JoinEdges(names, ", ");
      JoinCommaSpace(names);
      assert forall i :: 0 <= i < |Spaced(names)| ==> ',' !in Spaced(names)[i] by {
        forall i | 0 <= i < |Spaced(names)|
          ensures ',' !in Spaced(names)[i]
        {
          assert days[i] in days;
          assert Spaced(names)[i] == " " + names[i];
        }
      }
      SplitJoin(Spaced(names), ',');
      var back := Ids(Unspaced(Spaced(names)));
      forall i | 0 <= i < |days|
        ensures back[i] == days[i]
      {
        assert days[i] in days;
        assert (" " + names[i])[1..] == names[i];
        DayIdLabel(days[i]);
      }
    }
  }

  predicate EndsWith(s: string, p: string) {
    |p| <= |s| && s[|s| - |p|..] == p
  }

  /** `getScheduleDescription`. */
  function Description(kind: ScheduleType, time: string, days: seq<string>, dayOfMonth: string, cron: string): (r: string)
    ensures kind != Custom ==> EndsWith(r, " at " + time)
    ensures kind == Custom ==> EndsWith(r, cron) && StartsWith(r, "Custom schedule: ")
  {
    match kind
    case OneTime => "Once on today at " + time
    case Daily => "Every day at " + time
    case Weekly => "Every " + DayNames(days) + " at " + time
    case Monthly => "Monthly on day " + dayOfMonth + " at " + time
    case Custom => "Custom schedule: " + cron
  }

  /** The days named by a weekly description, given its time. */
  function WeeklyDays(desc: string, time: string): Option<seq<string>> {
    var tail := " at " + time;
    if StartsWith(desc, "Every ") && |desc| >= 6 + |tail| && EndsWith(desc, tail)
    then Some(ReadDays(desc[6..|desc| - |tail|]))
    else None
  }

  /** The weekly description determines the selected days and their order. */
  lemma {:induction false} WeeklyDescriptionRoundTrip(time: string, days: seq<string>, dayOfMonth: string, cron: string)
    requires forall d :: d in days ==> KnownDay(d)
    ensures WeeklyDays(Description(Weekly, time, days, dayOfMonth, cron), time) == Some(days)
  {
    var names := DayNames(days);
    var desc := Description(Weekly, time, days, dayOfMonth, cron);
    assert desc == "Every " + names + " at " + time;
    assert desc[..6] == "Every ";
    assert desc[6..|desc| - |" at " + time|] == names;
    DayNamesRoundTrip(days);
  }

  /** The schedule sent to the server. */
  datatype ScheduleData = ScheduleData(kind: ScheduleType, time: string, days: seq<string>, dates: seq<string>,
                                       dayOfMonth: string, customCron: Option<string>)

  /** `handleSubmit`'s payload: the cron only for a custom schedule, and never any dates. */
  function Payload(kind: ScheduleType, time: string, days: seq<string>, dayOfMonth: string, cron: string): (r: ScheduleData)
    ensures r.customCron.Some? <==> kind == Custom
    ensures r.customCron.Some? ==> r.customCron.value == cron
    ensures r.dates == [] && r.kind == kind && r.time == time && r.days == days && r.dayOfMonth == dayOfMonth
  {
    ScheduleData(kind, time, days, [], dayOfMonth, if kind == Custom then Some(cron) else None)
  }

  /** The form's state. */
  class Editor {
    var scheduleType: ScheduleType
    var scheduleTime: string
    var selectedDays: seq<string>
    var dayOfMonth: string
    var customCron: string

    /** The selected days never repeat. */
    predicate Valid()
      reads this
    {
      Distinct(selectedDays)
    }

    constructor()
      ensures Valid()
      ensures scheduleType == Daily && scheduleTime == "09:00" && selectedDays == ["mon", "wed", "fri"]
      ensures dayOfMonth == "1" && customCron == "0 9 * * 1-5"
    {
      scheduleType := Daily;
      scheduleTime := "09:00";
      selectedDays := ["mon", "wed", "fri"];
      dayOfMonth := "1";
      customCron := "0 9 * * 1-5";
    }

    method ToggleDay(day: string)
      requires Valid()
      modifies this`selectedDays
      ensures Valid()
      ensures selectedDays == Toggled(old(selectedDays), day)
    {
      ToggleDistinct(selectedDays, day);
      selectedDays := Toggled(selectedDays, day);
    }

    method SetType(kind: ScheduleType)
      modifies this`scheduleType
      ensures scheduleType == kind
    {
      scheduleType := kind;
    }

    method SetTime(time: string)
      modifies this`scheduleTime
      ensures scheduleTime == time
    {
      scheduleTime := time;
    }

    method SetDayOfMonth(day: string)
      modifies this`dayOfMonth
      ensures dayOfMonth == day
    {
      dayOfMonth := day;
    }

    method SetCron(cron: string)
      modifies this`customCron
      ensures customCron == cron
    {
      customCron := cron;
    }

    function Summary(): string
      reads this
    {
      Description(scheduleType, scheduleTime, selectedDays, dayOfMonth, customCron)
    }

    function Submitted(): ScheduleData
      reads this
    {
      Payload(scheduleType, scheduleTime, selectedDays, dayOfMonth, customCron)
    }
  }
}
