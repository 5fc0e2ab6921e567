/**
 * Bulk import of students from CSV text and the per-student achievement
 * counts shown in the student lists.
 *
 * A CSV row is a map from header to value, as the record built by the
 * parser is. Profile ids come from `uuid(i)`, the id generated for the
 * `i`-th profile; the outcome of the `k`-th batch insert is
 * `insertError(k)`.
 */
module StudentImport {
  import opened Wrappers
  import opened Text
  import opened Seqs

  type Row = map<string, string>

  /** `line.split(",").map(v => v.trim())` */
  function Fields(line: string): (r: seq<string>)
    ensures |r| == Occurrences(line, ',') + 1
    ensures forall k :: 0 <= k < |r| ==> r[k] == Trim(Split(line, ',')[k])
  {
    TrimAll(Split(line, ','))
  }

  function TrimAll(xs: seq<string>): (r: seq<string>)
    ensures |r| == |xs| && forall k :: 0 <= k < |r| ==> r[k] == Trim(xs[k])
  {
    if xs == [] then [] else [Trim(xs[0])] + TrimAll(xs[1..])
  }

  /** `values[index] || ""`: a missing value reads as the empty string. */
  function Cell(values: seq<string>, j: nat): string {
    if j < |values| then values[j] else ""
  }

  /** The last position of `h` among the headers: a repeated header keeps its last column. */
  function LastIndex(headers: seq<string>, h: string): (i: nat)
    requires h in headers
    ensures i < |headers| && headers[i] == h
    ensures forall k :: i < k < |headers| ==> headers[k] != h
  {
    if headers[|headers| - 1] == h then |headers| - 1
    else LastIndex(headers[..|headers| - 1], h)
  }

  /**
   * The record the parser builds for one line: exactly the headers as keys,
   * each mapped to the value in the column of its last occurrence, or to ""
   * when the line has no such column; extra values are dropped.
   */
  function RowOf(headers: seq<string>, values: seq<string>): (row: Row)
    ensures row.Keys == set h | h in headers
    ensures forall j :: 0 <= j < |headers| && (forall k :: j < k < |headers| ==> headers[k] != headers[j]) ==>
              row[headers[j]] == Cell(values, j)
  {
    var row := map h | h in headers :: Cell(values, LastIndex(headers, h));
    assert forall j :: 0 <= j < |headers| && (forall k :: j < k < |headers| ==> headers[k] != headers[j]) ==>
              LastIndex(headers, headers[j]) == j;
    row
  }

  /** The `forEach` over the headers that fills one record. */
  method FillRow(headers: seq<string>, values: seq<string>) returns (row: Row)
    ensures row == RowOf(headers, values)
  {
    row := map[];
    var index := 0;
    while index < |headers|
      invariant 0 <= index <= |headers| && row == RowOf(headers[..index], values)
    {
      var header := headers[index];
      RowOfStep(headers, values, index);
      row := row[header := if index < |values| && values[index] != "" then values[index] else ""];
      index := index + 1;
    }
    WholePrefix(headers);
  }

  /** One more header adds (or overwrites) its own entry and leaves the rest alone. */
  lemma RowOfStep(headers: seq<string>, values: seq<string>, index: nat)
    requires index < |headers|
    ensures RowOf(headers[..index + 1], values) == RowOf(headers[..index], values)[headers[index] := Cell(values, index)]
  {
    var hs, hs1 := headers[..index], headers[..index + 1];
    assert hs1 == hs + [headers[index]] && hs1[..index] == hs;
    var a, b := RowOf(hs1, values), RowOf(hs, values)[headers[index] := Cell(values, index)];
    assert a.Keys == b.Keys;
  }

  /** The lines of the trimmed text; the first one holds the headers. */
  function Lines(csvText: string): (r: seq<string>)
    ensures |r| == Occurrences(Trim(csvText), '\n') + 1
  {
    Split(Trim(csvText), '\n')
  }

  function Headers(csvText: string): seq<string> {
    Fields(Lines(csvText)[0])
  }

  /** The records for the given data lines. */
  function RowsOf(headers: seq<string>, dataLines: seq<string>): (rows: seq<Row>)
    ensures |rows| == |dataLines|
  {
    seq(|dataLines|, i requires 0 <= i < |dataLines| => RowOf(headers, Fields(dataLines[i])))
  }

  /** What `parseStudentCSV` returns, stated line by line. */
  function ParsedRows(csvText: string): (rows: seq<Row>)
    ensures |rows| == |Lines(csvText)| - 1
  {
    RowsOf(Headers(csvText), Lines(csvText)[1..])
  }

  /**
   * `parseStudentCSV`: one record per line after the header line of the
   * trimmed text, each built by `FillRow` from the trimmed header names and
   * that line's trimmed values.
   */
  method ParseStudentCSV(csvText: string) returns (rows: seq<Row>)
    ensures rows == ParsedRows(csvText)
    ensures |rows| == Occurrences(Trim(csvText), '\n')
  {
    var lines := Lines(csvText);
    rows := FillRows(Headers(csvText), lines[1..]);
  }

  /** `lines.slice(1).map(...)`: one record per data line, in order. */
  method FillRows(headers: seq<string>, dataLines: seq<string>) returns (rows: seq<Row>)
    ensures rows == RowsOf(headers, dataLines)
  {
    ghost var expected := RowsOf(headers, dataLines);
    rows := [];
    var j := 0;
    while j < |dataLines|
      invariant 0 <= j <= |dataLines| && rows == expected[..j]
    {
      var row := FillRow(headers, Fields(dataLines[j]));
      PrefixExtend(expected, j);
      rows := rows + [row];
      j := j + 1;
    }
    WholePrefix(expected);
  }

  /** Text without a line break after trimming (a header line alone) yields no records. */
  lemma HeaderOnlyGivesNoRows(csvText: string)
    requires '\n' !in Trim(csvText)
    ensures ParsedRows(csvText) == []
  {
    NoOccurrences(Trim(csvText), '\n');
  }

  lemma {:induction false} NoOccurrences(s: string, c: char)
    requires c !in s
    ensures Occurrences(s, c) == 0
  {
    if s != [] {
      assert s[0] != c;
      assert forall x :: x in s[1..] ==> x in s;
      NoOccurrences(s[1..], c);
    }
  }

  lemma FieldsAreTrimmed(line: string)
    ensures forall k :: 0 <= k < |Fields(line)| ==> Trimmed(Fields(line)[k])
  {
  }

  /** Header names and values are trimmed: none starts or ends with whitespace. */
  lemma CellsAreTrimmed(headerLine: string, line: string, h: string)
    requires h in RowOf(Fields(headerLine), Fields(line))
    ensures Trimmed(h) && Trimmed(RowOf(Fields(headerLine), Fields(line))[h])
  {
    var headers, values := Fields(headerLine), Fields(line);
    var j := LastIndex(headers, h);
    assert RowOf(headers, values)[h] == Cell(values, j);
    FieldsAreTrimmed(headerLine);
    assert Trimmed(headers[j]);
    if j < |values| {
      FieldsAreTrimmed(line);
      assert Trimmed(values[j]);
    }
  }

  datatype StudentProfile = StudentProfile(id: string, name: Option<string>, email: Option<string>,
                                           role: string, avatarUrl: Option<string>)

  /**
   * `convertToStudentProfile`: the row's name and email (absent when the CSV
   * has no such column), the role "student", no avatar, and the fresh id.
   */
  function ConvertToStudentProfile(row: Row, freshId: string): (p: StudentProfile)
    ensures p.id == freshId && p.role == "student" && p.avatarUrl == None
    ensures "name" in row ==> p.name == Some(row["name"])
    ensures "name" !in row ==> p.name == None
    ensures "email" in row ==> p.email == Some(row["email"])
    ensures "email" !in row ==> p.email == None
  {
    StudentProfile(freshId,
                   if "name" in row then Some(row["name"]) else None,
                   if "email" in row then Some(row["email"]) else None,
                   "student", None)
  }

  /** `csvRows.map(convertToStudentProfile)`, the `i`-th row getting id `uuid(i)`. */
  function ConvertAll(rows: seq<Row>, uuid: nat -> string): (ps: seq<StudentProfile>)
    ensures |ps| == |rows|
  {
    seq(|rows|, i requires 0 <= i < |rows| => ConvertToStudentProfile(rows[i], uuid(i)))
  }

  const BatchSize: nat := 100

  function Min(a: nat, b: nat): nat {
    if a <= b then a else b
  }

  function NumBatches(n: nat): nat {
    (n + BatchSize - 1) / BatchSize
  }

  /** The slices `profiles.slice(i, i + 100)` for `i = 0, 100, 200, ...` below the length. */
  function Batches<T>(s: seq<T>): (bs: seq<seq<T>>)
    ensures |bs| == NumBatches(|s|)
  {
    seq(NumBatches(|s|), k requires 0 <= k < NumBatches(|s|) =>
      s[k * BatchSize..Min(k * BatchSize + BatchSize, |s|)])
  }

  function Flatten<T>(bs: seq<seq<T>>): seq<T> {
    if bs == [] then [] else Flatten(bs[..|bs| - 1]) + bs[|bs| - 1]
  }

  /** The batches are non-empty, hold at most 100 each, and laid end to end give the input back. */
  lemma BatchesCover<T>(s: seq<T>)
    ensures Flatten(Batches(s)) == s
    ensures forall b :: b in Batches(s) ==> 1 <= |b| <= BatchSize
  {
    var bs := Batches(s);
    var k := 0;
    while k < |bs|
      invariant 0 <= k <= |bs|
      invariant Flatten(bs[..k]) == s[..Min(k * BatchSize, |s|)]
    {
      assert bs[..k + 1][..k] == bs[..k];
      k := k + 1;
    }
    assert bs[..k] == bs;
  }

  datatype ImportResult = ImportResult(success: nat, failed: nat, errors: seq<string>)

  /** The message recorded for failed batch number `k` (counted from 0). */
  function BatchMessage(k: nat, message: string): string {
    "Batch " + NatToString(k + 1) + ": " + message
  }

  /** Profiles in the first `k` batches whose insert succeeded. */
  function SucceededIn<T>(bs: seq<seq<T>>, insertError: nat -> Option<string>, k: nat): nat
    requires k <= |bs|
  {
    if k == 0 then 0
    else SucceededIn(bs, insertError, k - 1) + if insertError(k - 1).None? then |bs[k - 1]| else 0
  }

  /** Profiles in the first `k` batches whose insert failed. */
  function FailedIn<T>(bs: seq<seq<T>>, insertError: nat -> Option<string>, k: nat): nat
    requires k <= |bs|
  {
    if k == 0 then 0
    else FailedIn(bs, insertError, k - 1) + if insertError(k - 1).Some? then |bs[k - 1]| else 0
  }

  /** One message per failed batch among the first `k`, in batch order. */
  function ErrorsIn<T>(bs: seq<seq<T>>, insertError: nat -> Option<string>, k: nat): (es: seq<string>)
    requires k <= |bs|
  {
    if k == 0 then []
    else ErrorsIn(bs, insertError, k - 1) +
         if insertError(k - 1).Some? then [BatchMessage(k - 1, insertError(k - 1).value)] else []
  }

  /** Every profile of the first `k` batches is counted once, as a success or as a failure. */
  lemma {:induction false} TallyCoversBatches<T>(bs: seq<seq<T>>, insertError: nat -> Option<string>, k: nat)
    requires k <= |bs|
    ensures SucceededIn(bs, insertError, k) + FailedIn(bs, insertError, k) == |Flatten(bs[..k])|
  {
    if k > 0 {
      TallyCoversBatches(bs, insertError, k - 1);
      assert bs[..k][..k - 1] == bs[..k - 1];
    }
  }

  /** The profiles `importStudents` builds from the text. */
  function ParsedProfiles(csvText: string, uuid: nat -> string): seq<StudentProfile> {
    ConvertAll(ParsedRows(csvText), uuid)
  }

  /**
   * The batch loop of `importStudents`: the profiles are sent in consecutive
   * batches of at most 100; each profile is counted once, as a success or as
   * a failure according to its batch's insert, and each failed batch adds one
   * message naming its 1-based number.
   */
  method InsertBatches(profiles: seq<StudentProfile>, insertError: nat -> Option<string>)
    returns (result: ImportResult, sent: seq<seq<StudentProfile>>)
    ensures sent == Batches(profiles)
    ensures result.success + result.failed == |profiles|
    ensures result.success == SucceededIn(sent, insertError, |sent|)
    ensures result.failed == FailedIn(sent, insertError, |sent|)
    ensures result.errors == ErrorsIn(sent, insertError, |sent|)
  {
    ghost var bs := Batches(profiles);
    var successCount, failedCount := 0, 0;
    var errors: seq<string> := [];
    sent := [];
    var i := 0;
    ghost var k := 0;
    while i < |profiles|
      invariant i == k * BatchSize && (i < |profiles| || k == |bs|)
      invariant k <= |bs| && sent == bs[..k]
      invariant successCount == SucceededIn(bs, insertError, k)
      invariant failedCount == FailedIn(bs, insertError, k)
      invariant errors == ErrorsIn(bs, insertError, k)
      decreases |profiles| - i
    {
      assert i / BatchSize == k;
      var batch := profiles[i..Min(i + BatchSize, |profiles|)];
      assert batch == bs[k];
      sent := sent + [batch];
      var error := insertError(i / BatchSize);
      if error.Some? {
        failedCount := failedCount + |batch|;
        errors := errors + ["Batch " + NatToString(i / BatchSize + 1) + ": " + error.value];
      } else {
        successCount := successCount + |batch|;
      }
      PrefixExtend(bs, k);
      i := i + BatchSize;
      k := k + 1;
    }
    WholePrefix(bs);
    result := ImportResult(successCount, failedCount, errors);
    TallyCoversBatches(bs, insertError, |bs|);
    BatchesCover(profiles);
  }

  /**
   * `importStudents`: parse the text, convert each record to a profile with
   * its fresh id, and insert the profiles in batches.
   */
  method ImportStudents(csvText: string, uuid: nat -> string, insertError: nat -> Option<string>)
    returns (result: ImportResult, sent: seq<seq<StudentProfile>>)
    ensures sent == Batches(ParsedProfiles(csvText, uuid))
    ensures result.success + result.failed == |ParsedProfiles(csvText, uuid)| == Occurrences(Trim(csvText), '\n')
    ensures result.success == SucceededIn(sent, insertError, |sent|)
    ensures result.failed == FailedIn(sent, insertError, |sent|)
    ensures result.errors == ErrorsIn(sent, insertError, |sent|)
  {
    var csvRows := ParseStudentCSV(csvText);
    var profiles := ConvertAll(csvRows, uuid);
    result, sent := InsertBatches(profiles, insertError);
  }

  datatype AchievementRow = AchievementRow(studentId: string, status: string)

  datatype Counts = Counts(total: nat, verified: nat)

  /** Number of rows belonging to `id`. */
  function TotalOf(rows: seq<AchievementRow>, id: string): nat {
    if rows == [] then 0
    else TotalOf(rows[..|rows| - 1], id) + if rows[|rows| - 1].studentId == id then 1 else 0
  }

  /** Number of verified rows belonging to `id`. */
  function VerifiedOf(rows: seq<AchievementRow>, id: string): nat {
    if rows == [] then 0
    else VerifiedOf(rows[..|rows| - 1], id) +
         if rows[|rows| - 1].studentId == id && rows[|rows| - 1].status == "verified" then 1 else 0
  }

  /** A student never has more verified achievements than achievements. */
  lemma {:induction false} VerifiedAtMostTotal(rows: seq<AchievementRow>, id: string)
    ensures VerifiedOf(rows, id) <= TotalOf(rows, id)
  {
    if rows != [] {
      VerifiedAtMostTotal(rows[..|rows| - 1], id);
    }
  }

  /** A student has a positive total exactly when some row belongs to them. */
  lemma {:induction false} TotalPositiveIffPresent(rows: seq<AchievementRow>, id: string)
    ensures TotalOf(rows, id) > 0 <==> exists a :: a in rows && a.studentId == id
  {
    if rows != [] {
      var init, last := rows[..|rows| - 1], rows[|rows| - 1];
      assert rows == init + [last];
      TotalPositiveIffPresent(init, id);
      assert forall a :: a in rows <==> a in init || a == last;
    }
  }

  /** How both counts grow by one more row. */
  lemma CountStep(rows: seq<AchievementRow>, i: nat)
    requires i < |rows|
    ensures forall id :: TotalOf(rows[..i + 1], id) ==
                         TotalOf(rows[..i], id) + if rows[i].studentId == id then 1 else 0
    ensures forall id :: VerifiedOf(rows[..i + 1], id) ==
                         VerifiedOf(rows[..i], id) + if rows[i].studentId == id && rows[i].status == "verified" then 1 else 0
  {
    assert rows[..i + 1][..i] == rows[..i];
  }

  /**
   * The `forEach` that fills `achievementCounts`: an entry exactly for each
   * student with at least one achievement, holding that student's total and
   * verified counts.
   */
  method CountAchievements(achievements: seq<AchievementRow>) returns (counts: map<string, Counts>)
    ensures forall id :: id in counts <==> TotalOf(achievements, id) > 0
    ensures forall id :: id in counts ==>
              counts[id] == Counts(TotalOf(achievements, id), VerifiedOf(achievements, id))
              && counts[id].verified <= counts[id].total
  {
    counts := map[];
    var i := 0;
    while i < |achievements|
      invariant 0 <= i <= |achievements|
      invariant forall id :: id in counts <==> TotalOf(achievements[..i], id) > 0
      invariant forall id :: id in counts ==>
                  counts[id] == Counts(TotalOf(achievements[..i], id), VerifiedOf(achievements[..i], id))
    {
      var achievement := achievements[i];
      CountStep(achievements, i);
      VerifiedAtMostTotal(achievements[..i], achievement.studentId);
      var current := if achievement.studentId in counts then counts[achievement.studentId] else Counts(0, 0);
      current := current.(total := current.total + 1);
      if achievement.status == "verified" {
        current := current.(verified := current.verified + 1);
      }
      counts := counts[achievement.studentId := current];
      i := i + 1;
    }
    WholePrefix(achievements);
    forall id | id in counts ensures counts[id].verified <= counts[id].total {
      VerifiedAtMostTotal(achievements, id);
    }
  }

  datatype ProfileRow = ProfileRow(id: string, name: string, email: string, role: string)

  datatype StudentSummary = StudentSummary(id: string, name: string, email: string,
                                           totalAchievements: nat, verifiedAchievements: nat)

  /** The count a student's summary shows: `{0, 0}` when the student has no entry. */
  function CountsFor(counts: map<string, Counts>, id: string): Counts {
    if id in counts then counts[id] else Counts(0, 0)
  }

  /**
   * The profiles joined with their counts. The achievement rows are missing
   * (`None`) when their fetch failed, and then every count is zero.
   */
  method WithCounts(profiles: seq<ProfileRow>, achievements: Option<seq<AchievementRow>>)
    returns (r: seq<StudentSummary>)
    ensures |r| == |profiles|
    ensures forall i :: 0 <= i < |r| ==>
              && r[i].id == profiles[i].id && r[i].name == profiles[i].name && r[i].email == profiles[i].email
              && r[i].verifiedAchievements <= r[i].totalAchievements
              && r[i].totalAchievements == (if achievements.Some? then TotalOf(achievements.value, profiles[i].id) else 0)
              && r[i].verifiedAchievements == (if achievements.Some? then VerifiedOf(achievements.value, profiles[i].id) else 0)
  {
    var counts: map<string, Counts> := map[];
    if achievements.Some? {
      counts := CountAchievements(achievements.value);
    }
    forall id | achievements.Some? && id !in counts
      ensures TotalOf(achievements.value, id) == 0 && VerifiedOf(achievements.value, id) == 0
    {
      VerifiedAtMostTotal(achievements.value, id);
    }
    r := seq(|profiles|, i requires 0 <= i < |profiles| =>
      var c := CountsFor(counts, profiles[i].id);
      StudentSummary(profiles[i].id, profiles[i].name, profiles[i].email, c.total, c.verified));
  }

  /**
   * `getAllStudents`: a failed profile query is reported with its message; a
   * missing or empty profile list gives no students; otherwise every student
   * profile is returned with its counts.
   */
  method GetAllStudents(profiles: Result<Option<seq<ProfileRow>>, string>,
                        achievements: Option<seq<AchievementRow>>)
    returns (r: Result<seq<StudentSummary>, string>)
    ensures profiles.Failure? ==> r == Failure("Error fetching students: " + profiles.error)
    ensures profiles.Success? && (profiles.value.None? || profiles.value.value == []) ==> r == Success([])
    ensures profiles.Success? && profiles.value.Some? ==>
              r.Success? && |r.value| == |profiles.value.value|
              && forall i :: 0 <= i < |r.value| ==>
                   var p := profiles.value.value[i];
                   && r.value[i].id == p.id && r.value[i].name == p.name && r.value[i].email == p.email
                   && r.value[i].totalAchievements == (if achievements.Some? then TotalOf(achievements.value, p.id) else 0)
                   && r.value[i].verifiedAchievements == (if achievements.Some? then VerifiedOf(achievements.value, p.id) else 0)
  {
    if profiles.Failure? {
      return Failure("Error fetching students: " + profiles.error);
    }
    if profiles.value.None? || profiles.value.value == [] {
      return Success([]);
    }
    var summaries := WithCounts(profiles.value.value, achievements);
    r := Success(summaries);
  }

  /**
   * `searchStudents`, after the server-side search: the same join as
   * `getAllStudents`, with its own error message.
   */
  method SearchStudents(profiles: Result<Option<seq<ProfileRow>>, string>,
                        achievements: Option<seq<AchievementRow>>)
    returns (r: Result<seq<StudentSummary>, string>)
    ensures profiles.Failure? ==> r == Failure("Error searching students: " + profiles.error)
    ensures profiles.Success? && (profiles.value.None? || profiles.value.value == []) ==> r == Success([])
    ensures profiles.Success? && profiles.value.Some? ==>
              r.Success? && |r.value| == |profiles.value.value|
              && forall i :: 0 <= i < |r.value| ==>
                   var p := profiles.value.value[i];
                   && r.value[i].id == p.id && r.value[i].name == p.name && r.value[i].email == p.email
                   && r.value[i].totalAchievements == (if achievements.Some? then TotalOf(achievements.value, p.id) else 0)
                   && r.value[i].verifiedAchievements == (if achievements.Some? then VerifiedOf(achievements.value, p.id) else 0)
  {
    if profiles.Failure? {
      return Failure("Error searching students: " + profiles.error);
    }
    if profiles.value.None? || profiles.value.value == [] {
      return Success([]);
    }
    var summaries := WithCounts(profiles.value.value, achievements);
    r := Success(summaries);
  }
}
