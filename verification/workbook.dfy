/**
 The two passes over a workbook's rows: every non-empty row is a summary row, an accepted snapshot or a
 rejected row, and a repeated SPU rejects all of its copies. Cells are already trimmed text; a row's
 position stands for its source row.
 */
module Workbook {

  datatype Row = Row(empty: bool, summary: bool, spu: string, name: string, store: string, platform: string,
                     operator: string, degraded: nat)

  datatype Severity = RejectedRow | DegradedField

  datatype Code = IdentityMissing | DuplicateSpu | FieldUnusable

  datatype Issue = Issue(row: nat, code: Code, severity: Severity)

  // ----- what each row is -----

  /** The row describes a product: it is neither empty nor a total. */
  predicate Product(row: Row) {
    !row.empty && !row.summary
  }

  predicate Identified(row: Row) {
    row.spu != "" && row.name != "" && row.store != "" && row.platform != "" && row.operator != ""
  }

  /** Another product row carries the same SPU. */
  predicate Repeated(rows: seq<Row>, i: nat)
    requires i < |rows|
  {
    rows[i].spu != "" && exists j :: 0 <= j < |rows| && j != i && Product(rows[j]) && rows[j].spu == rows[i].spu
  }

  predicate Acceptable(rows: seq<Row>, i: nat)
    requires i < |rows|
  {
    Product(rows[i]) && Identified(rows[i]) && !Repeated(rows, i)
  }

  /** The accepted ones among the first n rows, in sheet order. */
  function AcceptedRows(rows: seq<Row>, n: nat): (accepted: seq<nat>)
    requires n <= |rows|
    ensures forall i: nat :: i in accepted <==> i < n && Acceptable(rows, i)
    ensures forall a, b :: 0 <= a < b < |accepted| ==> accepted[a] < accepted[b]
  {
    if n == 0 then []
    else
      var rest := AcceptedRows(rows, n - 1);
      if Acceptable(rows, n - 1) then
        assert forall a :: 0 <= a < |rest| ==> rest[a] in rest;
        rest + [n - 1]
      else rest
  }

  /** The rejected ones among the first n rows. */
  function RejectedRows(rows: seq<Row>, n: nat): set<nat>
    requires n <= |rows|
  {
    set i: nat | i < n && Product(rows[i]) && !Acceptable(rows, i)
  }

  function SummaryRows(rows: seq<Row>, n: nat): nat
    requires n <= |rows|
  {
    if n == 0 then 0
    else SummaryRows(rows, n - 1) + (if !rows[n - 1].empty && rows[n - 1].summary then 1 else 0)
  }

  function FilledRows(rows: seq<Row>, n: nat): nat
    requires n <= |rows|
  {
    if n == 0 then 0 else FilledRows(rows, n - 1) + (if rows[n - 1].empty then 0 else 1)
  }

  /** No row is lost and none is counted twice. */
  lemma {:induction false} RowsAreConserved(rows: seq<Row>, n: nat)
    requires n <= |rows|
    ensures |AcceptedRows(rows, n)| + |RejectedRows(rows, n)| + SummaryRows(rows, n) == FilledRows(rows, n)
  {
    if n > 0 {
      RowsAreConserved(rows, n - 1);
      var before := RejectedRows(rows, n - 1);
      if Product(rows[n - 1]) && !Acceptable(rows, n - 1) {
        assert RejectedRows(rows, n) == before + {n - 1};
      } else {
        assert RejectedRows(rows, n) == before;
      }
    } else {
      assert RejectedRows(rows, 0) == {};
    }
  }

  /** Accepted products are fully identified, and no two of them share an SPU. */
  lemma AcceptedAreDistinct(rows: seq<Row>, i: nat, j: nat)
    requires i in AcceptedRows(rows, |rows|) && j in AcceptedRows(rows, |rows|) && i != j
    ensures Identified(rows[i]) && Identified(rows[j]) && rows[i].spu != rows[j].spu
  {
  }

  /** A row is accepted exactly when it is neither empty nor a total, has all five identity fields, and no other such
      row carries its SPU; and rejected exactly when it is neither empty nor a total and lacks one or shares it. */
  lemma RowsAreJudgedExactly(rows: seq<Row>, i: nat)
    requires i < |rows|
    ensures var row := rows[i];
            var whole := row.spu != "" && row.name != "" && row.store != "" && row.platform != "" && row.operator != "";
            var shared := exists j :: 0 <= j < |rows| && j != i && !rows[j].empty && !rows[j].summary
                                      && rows[j].spu == row.spu;
            && (i in AcceptedRows(rows, |rows|) <==> !row.empty && !row.summary && whole && !shared)
            && (i in RejectedRows(rows, |rows|) <==> !row.empty && !row.summary && (!whole || shared))
  {
  }

  // ----- counting copies -----

  function Copies(rows: seq<Row>, spu: string, n: nat): nat
    requires n <= |rows|
  {
    if n == 0 then 0
    else Copies(rows, spu, n - 1) + (if Product(rows[n - 1]) && rows[n - 1].spu == spu then 1 else 0)
  }

  lemma {:induction false} CopiesFound(rows: seq<Row>, spu: string, n: nat)
    requires n <= |rows|
    ensures Copies(rows, spu, n) >= 1 <==> exists j :: 0 <= j < n && Product(rows[j]) && rows[j].spu == spu
    ensures Copies(rows, spu, n) >= 2 <==>
      exists i, j :: 0 <= i < j < n && Product(rows[i]) && rows[i].spu == spu && Product(rows[j]) && rows[j].spu == spu
  {
    if n > 0 {
      CopiesFound(rows, spu, n - 1);
    }
  }

  lemma RepeatedIsCounted(rows: seq<Row>, i: nat)
    requires i < |rows| && Product(rows[i]) && rows[i].spu != ""
    ensures Repeated(rows, i) <==> Copies(rows, rows[i].spu, |rows|) > 1
  {
    CopiesFound(rows, rows[i].spu, |rows|);
  }

  // ----- the two passes -----

  datatype Candidate = Candidate(row: nat, spu: string, issues: seq<Issue>, rejected: bool)

  /** The first pass's verdict on one product row. */
  function CandidateOf(rows: seq<Row>, i: nat): Candidate
    requires i < |rows|
  {
    Candidate(i, rows[i].spu,
              Missing(rows[i], i) + seq(rows[i].degraded, _ => Issue(i, FieldUnusable, DegradedField)),
              !Identified(rows[i]))
  }

  function Missing(row: Row, i: nat): (issues: seq<Issue>)
    ensures forall x :: x in issues ==> x == Issue(i, IdentityMissing, RejectedRow)
    ensures issues == [] <==> Identified(row)
  {
    var issue := [Issue(i, IdentityMissing, RejectedRow)];
    (if row.spu == "" then issue else []) + (if row.name == "" then issue else [])
    + (if row.store == "" then issue else []) + (if row.platform == "" then issue else [])
    + (if row.operator == "" then issue else [])
  }

  function Candidates(rows: seq<Row>, n: nat): seq<Candidate>
    requires n <= |rows|
  {
    if n == 0 then []
    else Candidates(rows, n - 1) + (if Product(rows[n - 1]) then [CandidateOf(rows, n - 1)] else [])
  }

  ghost predicate Counts(counts: map<string, nat>, rows: seq<Row>, n: nat)
    requires n <= |rows|
  {
    && (forall spu :: spu in counts ==> spu != "" && counts[spu] == Copies(rows, spu, n))
    && (forall i :: 0 <= i < n && Product(rows[i]) && rows[i].spu != "" ==> rows[i].spu in counts)
  }

  /** First pass: collect the candidates, count summary rows and the copies of each SPU. */
  method Collect(rows: seq<Row>) returns (candidates: seq<Candidate>, counts: map<string, nat>, summaries: nat)
    ensures candidates == Candidates(rows, |rows|)
    ensures Counts(counts, rows, |rows|)
    ensures summaries == SummaryRows(rows, |rows|)
  {
    candidates, counts, summaries := [], map[], 0;
    for index := 0 to |rows|
      invariant candidates == Candidates(rows, index)
      invariant Counts(counts, rows, index)
      invariant summaries == SummaryRows(rows, index)
    {
      var row := rows[index];
      if row.empty {
        continue;
      }
      if row.summary {
        summaries := summaries + 1;
        continue;
      }
      if row.spu != "" {
        if row.spu in counts {
          counts := counts[row.spu := counts[row.spu] + 1];
        } else {
          FirstCopy(rows, index);
          counts := counts[row.spu := 1];
        }
      }
      candidates := candidates + [CandidateOf(rows, index)];
    }
  }

  lemma FirstCopy(rows: seq<Row>, index: nat)
    requires index < |rows|
    ensures (forall j :: 0 <= j < index && Product(rows[j]) ==> rows[j].spu != rows[index].spu)
            ==> Copies(rows, rows[index].spu, index) == 0
  {
    CopiesFound(rows, rows[index].spu, index);
  }

  /** The candidates are exactly the product rows, in order. */
  lemma {:induction false} CandidatesAreProducts(rows: seq<Row>, n: nat)
    requires n <= |rows|
    ensures forall c :: c in Candidates(rows, n) ==> c.row < n && Product(rows[c.row]) && c == CandidateOf(rows, c.row)
    ensures forall i :: 0 <= i < n && Product(rows[i]) ==> CandidateOf(rows, i) in Candidates(rows, n)
  {
    if n > 0 {
      CandidatesAreProducts(rows, n - 1);
    }
  }

  /** The rows a rejecting issue names: the distinct rows the batch counts as rejected. */
  function RejectedBy(issues: seq<Issue>): set<nat> {
    set x | x in issues && x.severity.RejectedRow? :: x.row
  }

  /** The rows the second pass accepts among the candidates of the first n rows. */
  ghost predicate PassDone(rows: seq<Row>, n: nat, accepted: seq<nat>, issues: seq<Issue>)
    requires n <= |rows|
  {
    accepted == AcceptedRows(rows, n) && RejectedBy(issues) == RejectedRows(rows, n)
  }

  lemma IssuesOfCandidate(rows: seq<Row>, i: nat)
    requires i < |rows|
    ensures RejectedBy(CandidateOf(rows, i).issues) == if Identified(rows[i]) then {} else {i}
  {
  }

  lemma RejectedByConcat(a: seq<Issue>, b: seq<Issue>)
    ensures RejectedBy(a + b) == RejectedBy(a) + RejectedBy(b)
  {
  }

  lemma RejectedRowsGrow(rows: seq<Row>, n: nat)
    requires n < |rows|
    ensures RejectedRows(rows, n + 1) ==
            RejectedRows(rows, n) + (if Product(rows[n]) && !Acceptable(rows, n) then {n} else {})
  {
  }

  lemma CountedIsRepeated(rows: seq<Row>, i: nat, counts: map<string, nat>)
    requires i < |rows| && Product(rows[i]) && Counts(counts, rows, |rows|)
    ensures rows[i].spu in counts && counts[rows[i].spu] > 1 <==> Repeated(rows, i)
  {
    if rows[i].spu != "" {
      RepeatedIsCounted(rows, i);
    }
  }

  lemma PassStarts(rows: seq<Row>)
    ensures PassDone(rows, 0, [], [])
  {
    assert RejectedRows(rows, 0) == {};
  }

  lemma PassStep(rows: seq<Row>, n: nat, accepted: seq<nat>, issues: seq<Issue>, item: Candidate)
    requires n < |rows| && Product(rows[n]) && PassDone(rows, n, accepted, issues) && Verdict(rows, n, item)
    ensures PassDone(rows, n + 1, accepted + (if item.rejected then [] else [item.row]), issues + item.issues)
  {
    RejectedByConcat(issues, item.issues);
    RejectedRowsGrow(rows, n);
  }

  /** The second pass's verdict on row n. */
  ghost predicate Verdict(rows: seq<Row>, n: nat, item: Candidate) {
    n < |rows| && item.row == n && item.rejected == !Acceptable(rows, n)
    && RejectedBy(item.issues) == if Acceptable(rows, n) then {} else {n}
  }

  /** One candidate of the second pass: a repeated SPU rejects it. */
  method JudgeCandidate(rows: seq<Row>, ghost n: nat, candidate: Candidate, counts: map<string, nat>)
    returns (item: Candidate)
    requires n < |rows| && Product(rows[n]) && candidate == CandidateOf(rows, n) && Counts(counts, rows, |rows|)
    ensures Verdict(rows, n, item)
  {
    IssuesOfCandidate(rows, n);
    CountedIsRepeated(rows, n, counts);
    item := candidate;
    if item.spu in counts && counts[item.spu] > 1 {
      var duplicate := [Issue(item.row, DuplicateSpu, RejectedRow)];
      RejectedByConcat(item.issues, duplicate);
      item := item.(rejected := true, issues := item.issues + duplicate);
    }
  }

  /** Second pass: reject every copy of a repeated SPU, keep the issues, accept the rest. */
  method Judge(rows: seq<Row>, candidates: seq<Candidate>, counts: map<string, nat>)
    returns (accepted: seq<nat>, issues: seq<Issue>)
    requires candidates == Candidates(rows, |rows|) && Counts(counts, rows, |rows|)
    ensures accepted == AcceptedRows(rows, |rows|)
    ensures RejectedBy(issues) == RejectedRows(rows, |rows|)
  {
    accepted, issues := [], [];
    ghost var n: nat := 0;
    PassStarts(rows);
    for k := 0 to |candidates|
      invariant n <= |rows| && Candidates(rows, n) == candidates[..k]
      invariant PassDone(rows, n, accepted, issues)
    {
      n := SkipToProduct(rows, n, candidates, k, accepted, issues);
      var item := JudgeCandidate(rows, n, candidates[k], counts);
      PassStep(rows, n, accepted, issues, item);
      issues := issues + item.issues;
      if !item.rejected {
        accepted := accepted + [item.row];
      }
      n := n + 1;
    }
    n := SkipToEnd(rows, n, candidates, accepted, issues);
  }

  /** The batch counters: distinct rows named by a rejecting issue. */
  method CountRejected(issues: seq<Issue>) returns (rejected: set<nat>)
    ensures rejected == RejectedBy(issues)
  {
    rejected := {};
    for k := 0 to |issues|
      invariant rejected == RejectedBy(issues[..k])
    {
      assert issues[..k + 1] == issues[..k] + [issues[k]];
      RejectedByConcat(issues[..k], [issues[k]]);
      if issues[k].severity.RejectedRow? {
        rejected := rejected + {issues[k].row};
      }
    }
    assert issues[..|issues|] == issues;
  }

  /** parseWorkbook from its header row on, with the counters the batch stores: the accepted rows and the
      distinct rows named by rejecting issues partition the product rows, and no filled row is lost. */
  method ParseRows(rows: seq<Row>) returns (accepted: seq<nat>, issues: seq<Issue>, rejected: set<nat>, summaries: nat)
    ensures accepted == AcceptedRows(rows, |rows|)
    ensures rejected == RejectedBy(issues) == RejectedRows(rows, |rows|)
    ensures summaries == SummaryRows(rows, |rows|)
    ensures |accepted| + |rejected| + summaries == FilledRows(rows, |rows|)
  {
    var candidates, counts;
    candidates, counts, summaries := Collect(rows);
    accepted, issues := Judge(rows, candidates, counts);
    rejected := CountRejected(issues);
    RowsAreConserved(rows, |rows|);
  }

  lemma {:induction false} CandidatesGrow(rows: seq<Row>, n: nat, m: nat)
    requires n <= m <= |rows|
    ensures Candidates(rows, n) <= Candidates(rows, m)
    decreases m
  {
    if n < m {
      CandidatesGrow(rows, n, m - 1);
    }
  }

  /** Rows that are no products change neither list. */
  lemma {:induction false} SkipToProduct(rows: seq<Row>, n: nat, candidates: seq<Candidate>, k: nat,
                                         accepted: seq<nat>, issues: seq<Issue>) returns (next: nat)
    requires n <= |rows| && candidates == Candidates(rows, |rows|) && k < |candidates|
    requires Candidates(rows, n) == candidates[..k] && PassDone(rows, n, accepted, issues)
    ensures next < |rows| && Product(rows[next]) && candidates[k] == CandidateOf(rows, next)
    ensures Candidates(rows, next) == candidates[..k] && Candidates(rows, next + 1) == candidates[..k + 1]
    ensures PassDone(rows, next, accepted, issues)
    decreases |rows| - n
  {
    assert n < |rows|;
    if Product(rows[n]) {
      next := n;
      CandidatesGrow(rows, n + 1, |rows|);
      assert Candidates(rows, n + 1)[k] == candidates[k];
    } else {
      RejectedRowsGrow(rows, n);
      next := SkipToProduct(rows, n + 1, candidates, k, accepted, issues);
    }
  }

  lemma {:induction false} SkipToEnd(rows: seq<Row>, n: nat, candidates: seq<Candidate>,
                                     accepted: seq<nat>, issues: seq<Issue>) returns (next: nat)
    requires n <= |rows| && candidates == Candidates(rows, |rows|)
    requires Candidates(rows, n) == candidates && PassDone(rows, n, accepted, issues)
    ensures next == |rows| && PassDone(rows, next, accepted, issues)
    decreases |rows| - n
  {
    if n == |rows| {
      next := n;
    } else {
      CandidatesGrow(rows, n + 1, |rows|);
      assert !Product(rows[n]);
      RejectedRowsGrow(rows, n);
      next := SkipToEnd(rows, n + 1, candidates, accepted, issues);
    }
  }
}
