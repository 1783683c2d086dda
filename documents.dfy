/** The secretary's document requests: the search-and-tab filter, the
    counts per status and the actions offered for each status. */
module Documents {
  import opened Wrappers
  import Seqs
  import Text

  datatype DocumentType = Enrollment | Transcript | Certificate | Transfer | OtherType
  datatype DocumentStatus = Pending | Processing | Completed | Rejected
  datatype Urgency = Normal | Urgent

  datatype DocumentRequest = DocumentRequest(
    id: string, kind: DocumentType, typeName: string, studentName: string, studentId: string,
    requestDate: string, status: DocumentStatus, urgency: Urgency)

  /** The status as the tabs name it. */
  function StatusName(s: DocumentStatus): (r: string)
    ensures r != "all"
  {
    match s
    case Pending => "pending"
    case Processing => "processing"
    case Completed => "completed"
    case Rejected => "rejected"
  }

  /** Each tab other than "all" selects exactly one status. */
  lemma StatusNameInjective(s: DocumentStatus, t: DocumentStatus)
    ensures StatusName(s) == StatusName(t) ==> s == t
  {
  }

  /** The lower-cased term occurs in the student name, the request id or the
      type name. An empty term matches every request. */
  predicate MatchesSearch(term: string, d: DocumentRequest) {
    var t := Text.ToLower(term);
    Text.Contains(Text.ToLower(d.studentName), t) ||
    Text.Contains(Text.ToLower(d.id), t) ||
    Text.Contains(Text.ToLower(d.typeName), t)
  }

  /** The "all" tab keeps every status; any other tab keeps its own. */
  predicate MatchesTab(tab: string, d: DocumentRequest) {
    tab == "all" || StatusName(d.status) == tab
  }

  function Keep(term: string, tab: string): DocumentRequest -> bool {
    (d: DocumentRequest) => MatchesSearch(term, d) && MatchesTab(tab, d)
  }

  /** `filteredDocuments`: undefined until the data is there; then the
      requests that match both the search and the tab, in their order. */
  function Filtered(data: Option<seq<DocumentRequest>>, term: string, tab: string): (r: Option<seq<DocumentRequest>>)
    ensures r.None? <==> data.None?
    ensures r.Some? ==> Seqs.IsSubsequence(r.value, data.value)
    ensures r.Some? ==>
              forall i :: 0 <= i < |r.value| ==> MatchesSearch(term, r.value[i]) && MatchesTab(tab, r.value[i])
    ensures r.Some? ==>
              forall i :: 0 <= i < |data.value| && MatchesSearch(term, data.value[i]) && MatchesTab(tab, data.value[i]) ==>
                data.value[i] in r.value
  {
    if data.None? then None
    else
      Seqs.FilterIsSubsequence(data.value, Keep(term, tab));
      Some(Seqs.Filter(data.value, Keep(term, tab)))
  }

  /** The empty search on the "all" tab keeps every request. */
  lemma EmptySearchKeepsAll(docs: seq<DocumentRequest>)
    ensures Filtered(Some(docs), "", "all") == Some(docs)
  {
    assert Text.ToLower("") == "";
    forall i | 0 <= i < |docs|
      ensures Keep("", "all")(docs[i])
    {
      Text.EmptyIsEverywhere(Text.ToLower(docs[i].studentName));
    }
    Seqs.FilterAll(docs, Keep("", "all"));
  }

  datatype Counts = Counts(all: nat, pending: nat, processing: nat, completed: nat, rejected: nat)

  function HasStatus(s: DocumentStatus): DocumentRequest -> bool {
    (d: DocumentRequest) => d.status == s
  }

  /** `getCounts`: computed from the data alone, so neither the search nor
      the tab affects it; the four statuses split the total. */
  function GetCounts(data: Option<seq<DocumentRequest>>): (c: Counts)
    ensures data.None? ==> c == Counts(0, 0, 0, 0, 0)
    ensures data.Some? ==> c.all == |data.value|
    ensures c.pending + c.processing + c.completed + c.rejected == c.all
    ensures data.Some? ==> c.pending == Seqs.Count(data.value, HasStatus(Pending))
    ensures data.Some? ==> c.processing == Seqs.Count(data.value, HasStatus(Processing))
    ensures data.Some? ==> c.completed == Seqs.Count(data.value, HasStatus(Completed))
    ensures data.Some? ==> c.rejected == Seqs.Count(data.value, HasStatus(Rejected))
  {
    if data.None? then Counts(0, 0, 0, 0, 0)
    else
      var s := data.value;
      Seqs.CountPartition4(s, HasStatus(Pending), HasStatus(Processing), HasStatus(Completed), HasStatus(Rejected));
      Counts(|s|, Seqs.Count(s, HasStatus(Pending)), Seqs.Count(s, HasStatus(Processing)),
             Seqs.Count(s, HasStatus(Completed)), Seqs.Count(s, HasStatus(Rejected)))
  }

  datatype Action = Process | Reject | Conclude | Download | Details

  /** The buttons of a request card. */
  function Actions(status: DocumentStatus): (r: seq<Action>)
    ensures |r| > 0 && r[|r| - 1] == Details
    ensures Process in r <==> status == Pending
    ensures Reject in r <==> status == Pending
    ensures Conclude in r <==> status == Processing
    ensures Download in r <==> status == Completed
  {
    (if status == Pending then [Process, Reject] else []) +
    (if status == Processing then [Conclude] else []) +
    (if status == Completed then [Download] else []) +
    [Details]
  }
}
