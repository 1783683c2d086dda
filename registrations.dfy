/** The secretary's registrations: a filter by search, status tab and
    academic year, and counts scoped to the selected year. */
module Registrations {
  import opened Wrappers
  import Seqs
  import Text

  datatype RegistrationStatus = Pending | Approved | Rejected | Completed

  datatype Registration = Registration(
    id: string, studentName: string, studentId: string, className: string,
    academicYear: string, status: RegistrationStatus, submissionDate: string)

  /** The page opens on the 2023/2024 year and the "all" tab. */
  const InitialYear: string := "2023/2024"
  const InitialTab: string := "all"

  function StatusName(s: RegistrationStatus): (r: string)
    ensures r != InitialTab
  {
    match s
    case Pending => "pending"
    case Approved => "approved"
    case Rejected => "rejected"
    case Completed => "completed"
  }

  predicate MatchesSearch(term: string, r: Registration) {
    var t := Text.ToLower(term);
    Text.Contains(Text.ToLower(r.studentName), t) || Text.Contains(Text.ToLower(r.id), t)
  }

  predicate MatchesTab(tab: string, r: Registration) {
    tab == "all" || StatusName(r.status) == tab
  }

  function InYear(year: string): Registration -> bool {
    (r: Registration) => r.academicYear == year
  }

  function Keep(term: string, tab: string, year: string): Registration -> bool {
    (r: Registration) => MatchesSearch(term, r) && MatchesTab(tab, r) && r.academicYear == year
  }

  /** `filteredRegistrations`: undefined until the data is there; then the
      registrations of the selected year that match search and tab. */
  function Filtered(data: Option<seq<Registration>>, term: string, tab: string, year: string)
    : (r: Option<seq<Registration>>)
    ensures r.None? <==> data.None?
    ensures r.Some? ==> Seqs.IsSubsequence(r.value, data.value)
    ensures r.Some? ==>
              forall i :: 0 <= i < |r.value| ==>
                r.value[i].academicYear == year && MatchesSearch(term, r.value[i]) && MatchesTab(tab, r.value[i])
    ensures r.Some? ==>
              forall i :: 0 <= i < |data.value| && Keep(term, tab, year)(data.value[i]) ==> data.value[i] in r.value
  {
    if data.None? then None
    else
      Seqs.FilterIsSubsequence(data.value, Keep(term, tab, year));
      Some(Seqs.Filter(data.value, Keep(term, tab, year)))
  }

  datatype Counts = Counts(all: nat, pending: nat, approved: nat, rejected: nat, completed: nat)

  function HasStatus(s: RegistrationStatus): Registration -> bool {
    (r: Registration) => r.status == s
  }

  /** `getCounts`: the selected year's registrations only, whatever the
      search and the tab; the four statuses split the total. */
  function GetCounts(data: Option<seq<Registration>>, year: string): (c: Counts)
    ensures data.None? ==> c == Counts(0, 0, 0, 0, 0)
    ensures data.Some? ==> c.all == Seqs.Count(data.value, InYear(year))
    ensures data.Some? ==> c.pending == Seqs.Count(Seqs.Filter(data.value, InYear(year)), HasStatus(Pending))
    ensures data.Some? ==> c.approved == Seqs.Count(Seqs.Filter(data.value, InYear(year)), HasStatus(Approved))
    ensures data.Some? ==> c.rejected == Seqs.Count(Seqs.Filter(data.value, InYear(year)), HasStatus(Rejected))
    ensures data.Some? ==> c.completed == Seqs.Count(Seqs.Filter(data.value, InYear(year)), HasStatus(Completed))
    ensures c.pending + c.approved + c.rejected + c.completed == c.all
  {
    if data.None? then Counts(0, 0, 0, 0, 0)
    else
      var s := Seqs.Filter(data.value, InYear(year));
      Seqs.CountPartition4(s, HasStatus(Pending), HasStatus(Approved), HasStatus(Rejected), HasStatus(Completed));
      Counts(|s|, Seqs.Count(s, HasStatus(Pending)), Seqs.Count(s, HasStatus(Approved)),
             Seqs.Count(s, HasStatus(Rejected)), Seqs.Count(s, HasStatus(Completed)))
  }

  /** The list never holds more entries than the year's "all" count. */
  lemma FilteredWithinYear(regs: seq<Registration>, term: string, tab: string, year: string)
    ensures |Filtered(Some(regs), term, tab, year).value| <= GetCounts(Some(regs), year).all
  {
    Seqs.CountMonotone(regs, Keep(term, tab, year), InYear(year));
  }
}
