/**
  The failure-report decoder: the failures export of a batch is a CSV document
  whose header names the data columns and, last, the reason column. Each data
  row becomes one failure: its last cell is the reason and the cells before it
  are keyed by the header's names. Reading stops quietly at the first row the
  CSV reader cannot deliver.
 */
module FailureReport {
  import opened Wrappers
  import opened Api

  /** The message of the error a reader reports at the end of its input. */
  const EOF := "EOF"

  /** A record as the CSV reader delivers it: it always has at least one field. */
  type Record = s: seq<string> | |s| > 0 witness [""]

  /** One call of the CSV reader: a record, or the error it reported. */
  datatype ReadOutcome = Row(cells: Record) | Fault(message: string)

  datatype LeadImportFailure = LeadImportFailure(reason: string, fields: map<string, string>)

  /**
    The reader delivers an outcome as a data row: it is a record and has as many
    fields as the header. (The reader takes the header's width as the width of
    every record and reports a record of another width as an error.)
   */
  predicate Delivered(outcome: ReadOutcome, width: nat)
  {
    outcome.Row? && |outcome.cells| == width
  }

  /** The data rows read before the first read error, or the end of the input. */
  function RowsBeforeError(rest: seq<ReadOutcome>, width: nat): (rows: seq<Record>)
    ensures |rows| <= |rest|
    ensures forall i :: 0 <= i < |rows| ==> rest[i] == Row(rows[i]) && |rows[i]| == width
    ensures |rows| < |rest| ==> !Delivered(rest[|rows|], width)
  {
    if |rest| == 0 || !Delivered(rest[0], width) then []
    else [rest[0].cells] + RowsBeforeError(rest[1..], width)
  }

  /** Header names paired with the cells of the same index; a later name overwrites an earlier equal one. */
  function ZipFields(names: seq<string>, cells: seq<string>): map<string, string>
    requires |names| == |cells|
  {
    if |names| == 0 then map[]
    else ZipFields(names[..|names| - 1], cells[..|cells| - 1])[names[|names| - 1] := cells[|cells| - 1]]
  }

  /** The key set of ZipFields is exactly the set of names. */
  lemma {:induction false} ZipFieldsKeys(names: seq<string>, cells: seq<string>)
    requires |names| == |cells|
    ensures ZipFields(names, cells).Keys == set n | n in names
  {
    if |names| > 0 {
      var k := |names| - 1;
      ZipFieldsKeys(names[..k], cells[..k]);
      assert names == names[..k] + [names[k]];
    }
  }

  /** A name is mapped to the cell of its last column. */
  lemma {:induction false} ZipFieldsLastWins(names: seq<string>, cells: seq<string>, i: nat)
    requires |names| == |cells| && i < |names|
    requires forall j :: i < j < |names| ==> names[j] != names[i]
    ensures names[i] in ZipFields(names, cells)
    ensures ZipFields(names, cells)[names[i]] == cells[i]
  {
    var k := |names| - 1;
    if i < k {
      ZipFieldsLastWins(names[..k], cells[..k], i);
    }
  }

  /** The failure one data row stands for. */
  function FailureOf(header: Record, record: Record): LeadImportFailure
    requires |record| == |header|
  {
    var n := |header| - 1;
    LeadImportFailure(record[n], ZipFields(header[..n], record[..n]))
  }

  /**
    The reason is the row's last cell; the keys are exactly the header's names
    but the last; each key holds the cell of its last column.
   */
  lemma FailureOfShape(header: Record, record: Record)
    requires |record| == |header|
    ensures FailureOf(header, record).reason == record[|header| - 1]
    ensures FailureOf(header, record).fields.Keys == set i | 0 <= i < |header| - 1 :: header[i]
    ensures forall i :: 0 <= i < |header| - 1 && (forall j :: i < j < |header| - 1 ==> header[j] != header[i])
              ==> FailureOf(header, record).fields[header[i]] == record[i]
  {
    var n := |header| - 1;
    ZipFieldsKeys(header[..n], record[..n]);
    assert (set x | x in header[..n]) == set i | 0 <= i < n :: header[i] by {
      forall x | x in header[..n] ensures exists i :: 0 <= i < n && header[i] == x {
        var i :| 0 <= i < n && header[..n][i] == x;
      }
    }
    forall i | 0 <= i < n && (forall j :: i < j < n ==> header[j] != header[i])
      ensures FailureOf(header, record).fields[header[i]] == record[i]
    {
      ZipFieldsLastWins(header[..n], record[..n], i);
    }
  }

  /** The header's last name is a key only when it also names an earlier column. */
  lemma ReasonColumnIsNoField(header: Record, record: Record)
    requires |record| == |header|
    ensures header[|header| - 1] in FailureOf(header, record).fields
            <==> header[|header| - 1] in header[..|header| - 1]
  {
    ZipFieldsKeys(header[..|header| - 1], record[..|header| - 1]);
  }

  /** The report read from a CSV document whose header was read successfully. */
  function Report(header: Record, rest: seq<ReadOutcome>): (failures: seq<LeadImportFailure>)
  {
    var rows := RowsBeforeError(rest, |header|);
    seq(|rows|, i requires 0 <= i < |rows| => FailureOf(header, rows[i]))
  }

  /** A delivered first row contributes the first failure of the report. */
  lemma ReportStep(header: Record, rest: seq<ReadOutcome>)
    requires |rest| > 0 && Delivered(rest[0], |header|)
    ensures Report(header, rest) == [FailureOf(header, rest[0].cells)] + Report(header, rest[1..])
  {
    var rows := RowsBeforeError(rest, |header|);
    assert rows == [rest[0].cells] + RowsBeforeError(rest[1..], |header|);
  }

  /** Builds the failure of one data row, filling its field map column by column. */
  method MapRow(header: Record, record: Record) returns (failure: LeadImportFailure)
    requires |record| == |header|
    ensures failure == FailureOf(header, record)
  {
    var fields: map<string, string> := map[];
    for i := 0 to |header| - 1
      invariant fields == ZipFields(header[..i], record[..i])
    {
      assert header[..i + 1][..i] == header[..i] && record[..i + 1][..i] == record[..i];
      fields := fields[header[i] := record[i]];
    }
    failure := LeadImportFailure(record[|header| - 1], fields);
  }

  /**
    The failures call, given the answer's status code and the reader's outcomes
    in order (reading past the last one reports the end of input): 404 is an
    empty report, another non-200 an HTTP-status error, a header that cannot be
    read an error, and otherwise the report of every row read before the first
    read error.
   */
  method Failures(code: int, outcomes: seq<ReadOutcome>) returns (r: Result<seq<LeadImportFailure>, Error>)
    ensures code == StatusNotFound ==> r == Ok([])
    ensures code != StatusNotFound && code != StatusOK ==> r == Err(HttpStatus(GetImportFailures, code))
    ensures code == StatusOK && outcomes == [] ==> r == Err(Propagated(EOF))
    ensures code == StatusOK && outcomes != [] && outcomes[0].Fault? ==> r == Err(Propagated(outcomes[0].message))
    ensures code == StatusOK && outcomes != [] && outcomes[0].Row? ==> r == Ok(Report(outcomes[0].cells, outcomes[1..]))
  {
    if code == StatusNotFound {
      return Ok([]);
    }
    if code != StatusOK {
      return Err(HttpStatus(GetImportFailures, code));
    }
    if |outcomes| == 0 {
      return Err(Propagated(EOF));
    }
    if outcomes[0].Fault? {
      return Err(Propagated(outcomes[0].message));
    }
    var report := ReadReport(outcomes[0].cells, outcomes[1..]);
    return Ok(report);
  }

  /**
    The read loop after the header: one failure per data row, in order, until
    the reader reports an error or a record of the wrong width.
   */
  method ReadReport(header: Record, rest: seq<ReadOutcome>) returns (failures: seq<LeadImportFailure>)
    ensures failures == Report(header, rest)
  {
    var width := |header|;
    failures := [];
    var next := 0;
    while next < |rest| && Delivered(rest[next], width)
      invariant 0 <= next <= |rest|
      invariant Report(header, rest) == failures + Report(header, rest[next..])
    {
      var record := rest[next].cells;
      var failure := MapRow(header, record);
      ReportStep(header, rest[next..]);
      assert rest[next..][1..] == rest[next + 1..];
      failures := failures + [failure];
      next := next + 1;
    }
    assert Report(header, rest[next..]) == [];
  }

  /** The worked example: header email, first_name, reason and one data row. */
  lemma {:induction false} OneRowExample()
    ensures Report(["email", "first_name", "reason"], [Row(["a@x.com", "Ann", "invalid email"])])
            == [LeadImportFailure("invalid email", map["email" := "a@x.com", "first_name" := "Ann"])]
  {
    var header: Record := ["email", "first_name", "reason"];
    var record: Record := ["a@x.com", "Ann", "invalid email"];
    var names, cells := ["email", "first_name"], ["a@x.com", "Ann"];
    assert RowsBeforeError([Row(record)], 3) == [record];
    assert header[..2] == names && record[..2] == cells;
    assert names[..1] == ["email"] && cells[..1] == ["a@x.com"];
    assert ZipFields(["email"], ["a@x.com"]) == map["email" := "a@x.com"];
    assert ZipFields(names, cells) == map["email" := "a@x.com", "first_name" := "Ann"];
    assert FailureOf(header, record) == LeadImportFailure("invalid email", map["email" := "a@x.com", "first_name" := "Ann"]);
  }
}
