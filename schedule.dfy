/** The timetable page: which weekday tab opens first, the periods shown for
    a day, the endpoint chosen by role and the short tab labels. The weekday
    index (`getDay()`, 0 for Sunday) is an input. */
module Schedule {
  import opened Wrappers
  import opened Types
  import Text
  import Seqs

  /** A `Date.getDay()` result. */
  type Weekday = d: int | 0 <= d < 7

  /** Weekday names indexed by `getDay()`. */
  const Weekdays: seq<string> :=
    ["Domingo", "Segunda-feira", "Terça-feira", "Quarta-feira", "Quinta-feira", "Sexta-feira", "Sábado"]

  /** The five tabs, Monday to Friday. */
  const Tabs: seq<string> :=
    ["Segunda-feira", "Terça-feira", "Quarta-feira", "Quinta-feira", "Sexta-feira"]

  /** The initial `activeDay`: today, except that the weekend opens Monday. */
  function InitialActiveDay(today: Weekday): (r: string)
    ensures r in Tabs
    ensures 1 <= today <= 5 ==> r == Weekdays[today]
    ensures today == 0 || today == 6 ==> r == "Segunda-feira"
  {
    var name := Weekdays[today];
    if name == "Domingo" || name == "Sábado" then "Segunda-feira" else name
  }

  /** `data?.find(d => d.day === day)?.periods || []`: the periods of the
      first entry for `day`, or none when there is no data or no entry. */
  function PeriodsOn(data: Option<seq<ScheduleDay>>, day: string): (r: seq<SchedulePeriod>)
    ensures data.None? ==> r == []
    ensures data.Some? && (forall i :: 0 <= i < |data.value| ==> data.value[i].day != day) ==> r == []
    ensures data.Some? ==>
              forall i :: 0 <= i < |data.value| && data.value[i].day == day &&
                          (forall j :: 0 <= j < i ==> data.value[j].day != day) ==>
                r == data.value[i].periods
  {
    if data.None? then []
    else
      match Seqs.Find(data.value, (d: ScheduleDay) => d.day == day)
      case None => []
      case Some(d) => d.periods
  }

  /** Teachers read their own timetable; everyone else, and a missing user,
      reads the student one. */
  function ScheduleEndpoint(user: Option<User>): (r: string)
    ensures r == "/teacher/schedule" <==> user.Some? && user.value.role == Teacher
    ensures r != "/teacher/schedule" ==> r == "/student/schedule"
  {
    if user.Some? && user.value.role == Teacher then "/teacher/schedule" else "/student/schedule"
  }

  /** A tab shows the day name up to its first "-". */
  function TabLabel(day: string): (r: string)
    ensures r <= day && '-' !in r
  {
    Text.BeforeFirst(day, '-')
  }

  lemma FeiraLabel(name: string)
    requires '-' !in name
    ensures TabLabel(name + "-feira") == name
  {
    assert name + "-feira" == name + ['-'] + "feira";
    Text.BeforeFirstSplit(name, '-', "feira");
  }

  /** The short names of the five tabs. */
  const TabNames: seq<string> := ["Segunda", "Terça", "Quarta", "Quinta", "Sexta"]

  lemma TabsAreFeiras(k: nat)
    requires k < |Tabs|
    ensures k < |TabNames| && Tabs[k] == TabNames[k] + "-feira" && '-' !in TabNames[k]
  {
  }

  /** The tabs read Segunda, Terça, Quarta, Quinta and Sexta. */
  lemma TabLabels(k: nat)
    requires k < |Tabs|
    ensures TabLabel(Tabs[k]) == TabNames[k]
  {
    TabsAreFeiras(k);
    FeiraLabel(TabNames[k]);
  }
}
