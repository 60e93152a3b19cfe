/**
 * Fault extraction from the printer's status reports. Each report holds
 * sub-statuses; those whose status is "error" are mapped through the
 * (uninterpreted) error mapper, report by report, and the per-report lists
 * are concatenated in report order.
 */
module Status {
  /** One entry of a report's `statuses` list. */
  datatype SubStatus = SubStatus(bit: int, description: string, status: string)

  /** One status report, as its JSON form presents it. */
  datatype StatusReport = StatusReport(className: string, statuses: seq<SubStatus>)

  predicate IsError(s: SubStatus) {
    s.status == "error"
  }

  /** The sub-statuses flagged "error", in their order. */
  function Errors(ss: seq<SubStatus>): (r: seq<SubStatus>)
    ensures |r| <= |ss|
    ensures forall i :: 0 <= i < |r| ==> IsError(r[i]) && r[i] in ss
    ensures forall x :: x in ss && IsError(x) ==> x in r
  {
    if ss == [] then []
    else (if IsError(ss[0]) then [ss[0]] else []) + Errors(ss[1..])
  }

  function MapAll<E>(ss: seq<SubStatus>, mapper: SubStatus -> E): (r: seq<E>)
    ensures |r| == |ss|
    ensures forall i :: 0 <= i < |ss| ==> r[i] == mapper(ss[i])
  {
    if ss == [] then [] else [mapper(ss[0])] + MapAll(ss[1..], mapper)
  }

  /** What one report contributes: its error entries, each mapped. */
  function ReportFaults<E>(report: StatusReport, mapper: SubStatus -> E): (r: seq<E>)
    ensures |r| <= |report.statuses|
    ensures r == [] <==> forall j :: 0 <= j < |report.statuses| ==> !IsError(report.statuses[j])
  {
    MapAll(Errors(report.statuses), mapper)
  }

  /** The mapped error entries of all reports, flattened in report order. */
  function Faults<E>(reports: seq<StatusReport>, mapper: SubStatus -> E): (r: seq<E>)
    ensures |r| <= |AllSubStatuses(reports)|
  {
    if reports == [] then []
    else ReportFaults(reports[0], mapper) + Faults(reports[1..], mapper)
  }

  /** Every sub-status of every report, in report order: the reference view. */
  function AllSubStatuses(reports: seq<StatusReport>): seq<SubStatus> {
    if reports == [] then [] else reports[0].statuses + AllSubStatuses(reports[1..])
  }

  lemma AppendAssoc<T>(x: seq<T>, y: seq<T>, z: seq<T>)
    ensures x + (y + z) == (x + y) + z
  {
  }

  lemma {:induction false} ErrorsAppend(a: seq<SubStatus>, b: seq<SubStatus>)
    ensures Errors(a + b) == Errors(a) + Errors(b)
    decreases |a|
  {
    if a != [] {
      var ab := a + b;
      var head := if IsError(a[0]) then [a[0]] else [];
      assert ab[0] == a[0];
      assert ab[1..] == a[1..] + b;
      assert Errors(ab) == head + Errors(a[1..] + b);
      ErrorsAppend(a[1..], b);
      assert Errors(a) == head + Errors(a[1..]);
      AppendAssoc(head, Errors(a[1..]), Errors(b));
    } else {
      assert a + b == b;
    }
  }

  /** Errors keeps each error entry as often as it occurs, and nothing else. */
  lemma {:induction false} ErrorsCount(ss: seq<SubStatus>)
    ensures forall x :: multiset(Errors(ss))[x] == if IsError(x) then multiset(ss)[x] else 0
    decreases |ss|
  {
    if ss == [] {
      assert Errors(ss) == [];
    } else {
      var head := if IsError(ss[0]) then [ss[0]] else [];
      ErrorsCount(ss[1..]);
      assert ss == [ss[0]] + ss[1..];
      assert multiset(ss) == multiset{ss[0]} + multiset(ss[1..]);
      assert Errors(ss) == head + Errors(ss[1..]);
      assert multiset(Errors(ss)) == multiset(head) + multiset(Errors(ss[1..]));
    }
  }

  lemma MapAllAppend<E>(a: seq<SubStatus>, b: seq<SubStatus>, mapper: SubStatus -> E)
    ensures MapAll(a + b, mapper) == MapAll(a, mapper) + MapAll(b, mapper)
  {
  }

  /**
   * Mapping per report and flattening is the same as flattening first,
   * keeping the error entries and mapping them in order.
   */
  lemma {:induction false} FaultsAsFilterMap<E>(reports: seq<StatusReport>, mapper: SubStatus -> E)
    ensures Faults(reports, mapper) == MapAll(Errors(AllSubStatuses(reports)), mapper)
    decreases |reports|
  {
    if reports != [] {
      FaultsAsFilterMap(reports[1..], mapper);
      ErrorsAppend(reports[0].statuses, AllSubStatuses(reports[1..]));
      MapAllAppend(Errors(reports[0].statuses), Errors(AllSubStatuses(reports[1..])), mapper);
    }
  }

  /** There is one fault per error entry, over all reports. */
  lemma FaultsLength<E>(reports: seq<StatusReport>, mapper: SubStatus -> E)
    ensures |Faults(reports, mapper)| == |Errors(AllSubStatuses(reports))|
  {
    FaultsAsFilterMap(reports, mapper);
  }

  /** Flattening is report by report: the faults of a concatenation concatenate. */
  lemma {:induction false} FaultsAppend<E>(a: seq<StatusReport>, b: seq<StatusReport>, mapper: SubStatus -> E)
    ensures Faults(a + b, mapper) == Faults(a, mapper) + Faults(b, mapper)
    decreases |a|
  {
    if a == [] {
      assert a + b == b;
    } else {
      var ab := a + b;
      assert ab[0] == a[0];
      assert ab[1..] == a[1..] + b;
      assert Faults(ab, mapper) == ReportFaults(a[0], mapper) + Faults(a[1..] + b, mapper);
      FaultsAppend(a[1..], b, mapper);
      assert Faults(a, mapper) == ReportFaults(a[0], mapper) + Faults(a[1..], mapper);
      AppendAssoc(ReportFaults(a[0], mapper), Faults(a[1..], mapper), Faults(b, mapper));
    }
  }

  lemma {:induction false} ErrorsEmpty(ss: seq<SubStatus>)
    ensures Errors(ss) == [] <==> forall i :: 0 <= i < |ss| ==> !IsError(ss[i])
    decreases |ss|
  {
    if ss != [] {
      ErrorsEmpty(ss[1..]);
      assert forall i :: 1 <= i < |ss| ==> ss[i] == ss[1..][i - 1];
    }
  }

  /** A report without error entries contributes nothing, wherever it stands. */
  lemma CleanReportContributesNothing<E>(
    before: seq<StatusReport>, report: StatusReport, after: seq<StatusReport>, mapper: SubStatus -> E)
    requires forall j :: 0 <= j < |report.statuses| ==> !IsError(report.statuses[j])
    ensures Faults(before + [report] + after, mapper) == Faults(before + after, mapper)
  {
    ErrorsEmpty(report.statuses);
    assert ReportFaults(report, mapper) == [];
    assert [report][1..] == [];
    var alone := Faults([report], mapper);
    assert alone == ReportFaults(report, mapper) + Faults([report][1..], mapper);
    assert alone == [];
    FaultsAppend(before + [report], after, mapper);
    FaultsAppend(before, [report], mapper);
    FaultsAppend(before, after, mapper);
    assert Faults(before + [report], mapper) == Faults(before, mapper);
  }

  /** The status is clean (no faults) exactly when no sub-status of any report is an error. */
  lemma {:induction false} FaultsEmpty<E>(reports: seq<StatusReport>, mapper: SubStatus -> E)
    ensures Faults(reports, mapper) == [] <==>
              forall i, j :: 0 <= i < |reports| && 0 <= j < |reports[i].statuses| ==>
                !IsError(reports[i].statuses[j])
    decreases |reports|
  {
    if reports != [] {
      var rest := reports[1..];
      FaultsEmpty(rest, mapper);
      var head := ReportFaults(reports[0], mapper);
      assert Faults(reports, mapper) == head + Faults(rest, mapper);
      assert Faults(reports, mapper) == [] <==> head == [] && Faults(rest, mapper) == [];
      assert forall i :: 1 <= i < |reports| ==> reports[i] == rest[i - 1];
    }
  }

  /** The first entry of Errors is the first error entry of the sequence. */
  lemma {:induction false} FirstError(ss: seq<SubStatus>)
    requires Errors(ss) != []
    ensures exists k :: 0 <= k < |ss| && Errors(ss)[0] == ss[k] && IsError(ss[k]) &&
                        forall m :: 0 <= m < k ==> !IsError(ss[m])
    decreases |ss|
  {
    if !IsError(ss[0]) {
      FirstError(ss[1..]);
      var k :| 0 <= k < |ss[1..]| && Errors(ss[1..])[0] == ss[1..][k] && IsError(ss[1..][k]) &&
               forall m :: 0 <= m < k ==> !IsError(ss[1..][m]);
      assert forall m :: 1 <= m < k + 1 ==> ss[m] == ss[1..][m - 1];
      assert Errors(ss)[0] == ss[k + 1];
    } else {
      assert Errors(ss)[0] == ss[0];
    }
  }

  /**
   * First-seen wins: when there are faults, the first one is the mapped
   * value of the first error entry in report order.
   */
  lemma FirstFault<E>(reports: seq<StatusReport>, mapper: SubStatus -> E)
    requires Faults(reports, mapper) != []
    ensures exists k :: 0 <= k < |AllSubStatuses(reports)| &&
              IsError(AllSubStatuses(reports)[k]) &&
              Faults(reports, mapper)[0] == mapper(AllSubStatuses(reports)[k]) &&
              forall m :: 0 <= m < k ==> !IsError(AllSubStatuses(reports)[m])
  {
    FaultsAsFilterMap(reports, mapper);
    FirstError(AllSubStatuses(reports));
  }
}
