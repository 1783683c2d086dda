/** The guardian's finance page: the child chosen first, the amounts
    summed by status, the records grouped by the month of their due date,
    and when the child selector and the payment-slip button appear. The
    month name of a due date comes from a locale formatter and is an
    input. Amounts are whole numbers. */
module Finance {
  import opened Wrappers
  import opened Types
  import Seqs

  datatype FinancialRecord = FinancialRecord(
    id: string, description: string, amount: int, dueDate: string, status: string,
    paymentDate: Option<string>)

  /** The initial `selectedChild`: the first child's id, or null. */
  function InitialSelectedChild(user: Option<User>): (r: Option<string>)
    ensures r.None? <==> user.None? || user.value.children == []
    ensures r.Some? ==> r.value == user.value.children[0].id
  {
    if user.Some? && |user.value.children| > 0 then Some(user.value.children[0].id) else None
  }

  /** The selector is shown only to a user with more than one child. */
  predicate ShowsChildSelector(user: Option<User>) {
    user.Some? && |user.value.children| > 1
  }

  /** "Gerar Boleto" is offered for pending and overdue records only. */
  predicate OffersBoleto(record: FinancialRecord) {
    record.status == "pending" || record.status == "overdue"
  }

  /** Whenever the selector is shown a child is already selected, the
      first one; a guardian with a single child gets that child without a
      selector. */
  lemma SelectorHasSelection(user: Option<User>)
    ensures ShowsChildSelector(user) ==>
              InitialSelectedChild(user) == Some(user.value.children[0].id)
    ensures user.Some? && |user.value.children| == 1 ==>
              !ShowsChildSelector(user) && InitialSelectedChild(user) == Some(user.value.children[0].id)
    ensures user.None? || user.value.children == [] ==>
              !ShowsChildSelector(user) && InitialSelectedChild(user).None?
  {
  }

  /** The button appears exactly for the unpaid records of a known status:
      never for a paid one. */
  lemma BoletoForUnpaidOnly(record: FinancialRecord)
    ensures OffersBoleto(record) <==> KnownStatus(record) && record.status != "paid"
    ensures HasStatus("paid")(record) ==> !OffersBoleto(record)
    ensures HasStatus("pending")(record) || HasStatus("overdue")(record) ==> OffersBoleto(record)
  {
  }

  /** `reduce((sum, item) => sum + item.amount, 0)` */
  function SumAmounts(s: seq<FinancialRecord>): int {
    if s == [] then 0 else s[0].amount + SumAmounts(s[1..])
  }

  function HasStatus(status: string): FinancialRecord -> bool {
    (r: FinancialRecord) => r.status == status
  }

  datatype Summary = Summary(paid: int, pending: int, overdue: int, total: int)

  /** `calculateSummary`: the amounts of each status summed; the total is
      their sum; zeros without data. */
  function CalculateSummary(data: Option<seq<FinancialRecord>>): (r: Summary)
    ensures data.None? ==> r == Summary(0, 0, 0, 0)
    ensures r.total == r.paid + r.pending + r.overdue
    ensures data.Some? ==>
              r.paid == SumAmounts(Seqs.Filter(data.value, HasStatus("paid"))) &&
              r.pending == SumAmounts(Seqs.Filter(data.value, HasStatus("pending"))) &&
              r.overdue == SumAmounts(Seqs.Filter(data.value, HasStatus("overdue")))
  {
    if data.None? then Summary(0, 0, 0, 0)
    else
      var paid := SumAmounts(Seqs.Filter(data.value, HasStatus("paid")));
      var pending := SumAmounts(Seqs.Filter(data.value, HasStatus("pending")));
      var overdue := SumAmounts(Seqs.Filter(data.value, HasStatus("overdue")));
      Summary(paid, pending, overdue, paid + pending + overdue)
  }

  predicate KnownStatus(r: FinancialRecord) {
    r.status == "paid" || r.status == "pending" || r.status == "overdue"
  }

  lemma {:induction false} SumByStatus(s: seq<FinancialRecord>)
    requires forall i :: 0 <= i < |s| ==> KnownStatus(s[i])
    ensures SumAmounts(Seqs.Filter(s, HasStatus("paid"))) +
            SumAmounts(Seqs.Filter(s, HasStatus("pending"))) +
            SumAmounts(Seqs.Filter(s, HasStatus("overdue"))) == SumAmounts(s)
  {
    if s != [] {
      SumByStatus(s[1..]);
    }
  }

  /** When every record is paid, pending or overdue, the total is the sum of
      all amounts; a record with any other status counts nowhere. */
  lemma TotalIsSumOfAmounts(records: seq<FinancialRecord>)
    requires forall i :: 0 <= i < |records| ==> KnownStatus(records[i])
    ensures CalculateSummary(Some(records)).total == SumAmounts(records)
  {
    SumByStatus(records);
  }

  function InMonth(monthOf: string -> string, month: string): FinancialRecord -> bool {
    (r: FinancialRecord) => monthOf(r.dueDate) == month
  }

  /** `grouped` holds, for every month some record is due in, the records
      due that month in their original order, and no other key. */
  ghost predicate GroupedBy(records: seq<FinancialRecord>, monthOf: string -> string,
                            grouped: map<string, seq<FinancialRecord>>)
  {
    (forall m :: m in grouped <==> Seqs.Filter(records, InMonth(monthOf, m)) != []) &&
    (forall m :: m in grouped ==> grouped[m] == Seqs.Filter(records, InMonth(monthOf, m)))
  }

  /** The records of month `m` after one more record: one more when the
      record is due in `m`, the same otherwise. */
  lemma MonthAppend(records: seq<FinancialRecord>, record: FinancialRecord, monthOf: string -> string, m: string)
    ensures Seqs.Filter(records + [record], InMonth(monthOf, m)) ==
            if monthOf(record.dueDate) == m then Seqs.Filter(records, InMonth(monthOf, m)) + [record]
            else Seqs.Filter(records, InMonth(monthOf, m))
  {
    Seqs.FilterAppend(records, record, InMonth(monthOf, m));
    if monthOf(record.dueDate) == m {
      assert InMonth(monthOf, m)(record);
    } else {
      assert !InMonth(monthOf, m)(record);
    }
  }

  /** Appending a record to the group of its month, created if missing,
      keeps the grouping exact. */
  lemma GroupAppend(records: seq<FinancialRecord>, record: FinancialRecord, monthOf: string -> string,
                    grouped: map<string, seq<FinancialRecord>>)
    requires GroupedBy(records, monthOf, grouped)
    ensures var month := monthOf(record.dueDate);
            var group := if month in grouped then grouped[month] else [];
            GroupedBy(records + [record], monthOf, grouped[month := group + [record]])
  {
    var month := monthOf(record.dueDate);
    var updated := grouped[month := (if month in grouped then grouped[month] else []) + [record]];
    forall m
      ensures (m in updated <==> Seqs.Filter(records + [record], InMonth(monthOf, m)) != []) &&
              (m in updated ==> updated[m] == Seqs.Filter(records + [record], InMonth(monthOf, m)))
    {
      MonthAppend(records, record, monthOf, m);
    }
  }

  /** One round of the `forEach`. */
  lemma GroupStep(records: seq<FinancialRecord>, i: nat, monthOf: string -> string,
                  grouped: map<string, seq<FinancialRecord>>)
    requires i < |records|
    requires GroupedBy(records[..i], monthOf, grouped)
    ensures var month := monthOf(records[i].dueDate);
            var group := if month in grouped then grouped[month] else [];
            GroupedBy(records[..i + 1], monthOf, grouped[month := group + [records[i]]])
  {
    assert records[..i + 1] == records[..i] + [records[i]];
    GroupAppend(records[..i], records[i], monthOf, grouped);
  }

  /** `groupByMonth`: a dictionary from month to the records due that month,
      in their original order. */
  method GroupByMonth(data: Option<seq<FinancialRecord>>, monthOf: string -> string)
    returns (grouped: map<string, seq<FinancialRecord>>)
    ensures data.None? ==> grouped == map[]
    ensures data.Some? ==>
              forall m :: m in grouped <==> exists j :: 0 <= j < |data.value| && monthOf(data.value[j].dueDate) == m
    ensures data.Some? ==>
              forall m :: m in grouped ==> grouped[m] == Seqs.Filter(data.value, InMonth(monthOf, m))
  {
    if data.None? {
      return map[];
    }
    var records := data.value;
    grouped := map[];
    var i := 0;
    while i < |records|
      invariant i <= |records|
      invariant GroupedBy(records[..i], monthOf, grouped)
    {
      var month := monthOf(records[i].dueDate);
      GroupStep(records, i, monthOf, grouped);
      // `if (!grouped[month]) grouped[month] = []; grouped[month].push(record)`
      var group := if month in grouped then grouped[month] else [];
      grouped := grouped[month := group + [records[i]]];
      i := i + 1;
    }
    assert records[..i] == records;
    GroupKeys(records, monthOf, grouped);
  }

  /** The keys of a grouping are exactly the months records are due in. */
  lemma GroupKeys(records: seq<FinancialRecord>, monthOf: string -> string,
                  grouped: map<string, seq<FinancialRecord>>)
    requires GroupedBy(records, monthOf, grouped)
    ensures forall m :: m in grouped <==> exists j :: 0 <= j < |records| && monthOf(records[j].dueDate) == m
  {
    forall m
      ensures m in grouped <==> exists j :: 0 <= j < |records| && monthOf(records[j].dueDate) == m
    {
      Seqs.FilterNonEmpty(records, InMonth(monthOf, m));
    }
  }

  /** A record is among the records of its own month. */
  lemma InOwnMonth(records: seq<FinancialRecord>, monthOf: string -> string, j: nat)
    requires j < |records|
    ensures records[j] in Seqs.Filter(records, InMonth(monthOf, monthOf(records[j].dueDate)))
  {
    assert InMonth(monthOf, monthOf(records[j].dueDate))(records[j]);
  }

  /** Each record is in the group of its month. */
  lemma GroupsCover(records: seq<FinancialRecord>, monthOf: string -> string,
                    grouped: map<string, seq<FinancialRecord>>, j: nat)
    requires forall m :: m in grouped <==> exists i :: 0 <= i < |records| && monthOf(records[i].dueDate) == m
    requires forall m :: m in grouped ==> grouped[m] == Seqs.Filter(records, InMonth(monthOf, m))
    requires j < |records|
    ensures monthOf(records[j].dueDate) in grouped && records[j] in grouped[monthOf(records[j].dueDate)]
  {
    InOwnMonth(records, monthOf, j);
  }

  /** A group holds only records of its month. */
  lemma GroupsHomogeneous(records: seq<FinancialRecord>, monthOf: string -> string,
                          grouped: map<string, seq<FinancialRecord>>)
    requires forall m :: m in grouped ==> grouped[m] == Seqs.Filter(records, InMonth(monthOf, m))
    ensures forall m :: m in grouped ==>
              forall k :: 0 <= k < |grouped[m]| ==> monthOf(grouped[m][k].dueDate) == m
  {
    forall m | m in grouped
      ensures forall k :: 0 <= k < |grouped[m]| ==> monthOf(grouped[m][k].dueDate) == m
    {
      assert forall k :: 0 <= k < |grouped[m]| ==> InMonth(monthOf, m)(grouped[m][k]);
    }
  }
}
