/**
 * The feature row handed to the trained regression model: eight named
 * integer columns in a fixed order. The four numeric fields pass through
 * unchanged; the three categorical fields become 0/1 indicators, with
 * "Automatic" transmission and the "Front"/"Other" drives as the all-zero
 * reference categories.
 */
module Features {
  import opened Wrappers
  import opened Form

  /** A column of the one-row frame: its name and its value. */
  type Column = (string, int)
  type Row = seq<Column>

  const YearColumn := "year"
  const MileageColumn := "mileage_km"
  const PowerColumn := "power_hp"
  const CapacityColumn := "cylinder_capacity"
  const MatchingColumn := "specs_raw.Matching numbers:"
  const RearDriveColumn := "specs_raw.Drive:_Rear drive"
  const ManualColumn := "transmission_Manual"
  const PdkColumn := "transmission_PDK"

  /** The column names, in the order the model was trained on. */
  const Schema: seq<string> := [
    YearColumn, MileageColumn, PowerColumn, CapacityColumn,
    MatchingColumn, RearDriveColumn, ManualColumn, PdkColumn]

  function Names(row: Row): seq<string> {
    seq(|row|, i requires 0 <= i < |row| => row[i].0)
  }

  function Values(row: Row): seq<int> {
    seq(|row|, i requires 0 <= i < |row| => row[i].1)
  }

  /** No column name occurs twice, as for the keys of a dictionary. */
  predicate DistinctNames(row: Row) {
    forall i, j :: 0 <= i < j < |row| ==> row[i].0 != row[j].0
  }

  /** The value stored under `name`, or None when the row has no such column. */
  function ValueOf(row: Row, name: string): Option<int> {
    if row == [] then None
    else if row[0].0 == name then Some(row[0].1)
    else ValueOf(row[1..], name)
  }

  /** A 0/1 indicator of a condition. */
  function Indicator(b: bool): (v: int)
    ensures 0 <= v <= 1
    ensures v == 1 <==> b
  {
    if b then 1 else 0
  }

  /**
   * A row that has the trained schema, whose numeric columns lie within the
   * form's bounds and whose indicator columns are 0 or 1.
   */
  predicate InRange(row: Row) {
    && Names(row) == Schema
    && YearMin <= row[0].1 <= YearMax
    && MileageMin <= row[1].1 <= MileageMax
    && PowerMin <= row[2].1 <= PowerMax
    && CapacityMin <= row[3].1 <= CapacityMax
    && forall i :: 4 <= i < |row| ==> 0 <= row[i].1 <= 1
  }

  /** Builds the model's input row from a request. */
  function Encode(r: Request): (row: Row)
    ensures Names(row) == Schema
    ensures Valid(r) ==> InRange(row)
  {
    [ (YearColumn, r.year),
      (MileageColumn, r.mileageKm),
      (PowerColumn, r.powerHp),
      (CapacityColumn, r.cylinderCapacity),
      (MatchingColumn, Indicator(r.matchingNumbers == Yes)),
      (RearDriveColumn, Indicator(r.drive == Rear)),
      (ManualColumn, Indicator(r.transmission == Manual)),
      (PdkColumn, Indicator(r.transmission == PDK)) ]
  }

  /** The eight column names are pairwise different, so no column shadows another. */
  lemma EncodeDistinctNames(r: Request)
    ensures DistinctNames(Encode(r))
  {
  }

  /** In a row without repeated names, looking up a column's name finds that column. */
  lemma {:induction false} ValueOfAt(row: Row, k: nat)
    requires DistinctNames(row)
    requires k < |row|
    ensures ValueOf(row, row[k].0) == Some(row[k].1)
  {
    if k > 0 {
      assert row[0].0 != row[k].0;
      assert row[1..][k - 1] == row[k];
      ValueOfAt(row[1..], k - 1);
    }
  }

  /** Looking up a name no column carries finds nothing. */
  lemma {:induction false} ValueOfAbsent(row: Row, name: string)
    requires forall i :: 0 <= i < |row| ==> row[i].0 != name
    ensures ValueOf(row, name) == None
  {
    if row != [] {
      ValueOfAbsent(row[1..], name);
    }
  }

  /** The row holds no column outside the trained schema. */
  lemma {:induction false} EncodeOnlySchema(r: Request, name: string)
    requires name !in Schema
    ensures ValueOf(Encode(r), name) == None
  {
    var row := Encode(r);
    forall i | 0 <= i < |row| ensures row[i].0 != name {
      assert row[i].0 == Names(row)[i] == Schema[i];
    }
    ValueOfAbsent(row, name);
  }

  /** What the row holds under each of the eight column names. */
  lemma {:induction false} EncodeColumns(r: Request)
    ensures ValueOf(Encode(r), YearColumn) == Some(r.year)
    ensures ValueOf(Encode(r), MileageColumn) == Some(r.mileageKm)
    ensures ValueOf(Encode(r), PowerColumn) == Some(r.powerHp)
    ensures ValueOf(Encode(r), CapacityColumn) == Some(r.cylinderCapacity)
    ensures ValueOf(Encode(r), MatchingColumn) == Some(Indicator(r.matchingNumbers == Yes))
    ensures ValueOf(Encode(r), RearDriveColumn) == Some(Indicator(r.drive == Rear))
    ensures ValueOf(Encode(r), ManualColumn) == Some(Indicator(r.transmission == Manual))
    ensures ValueOf(Encode(r), PdkColumn) == Some(Indicator(r.transmission == PDK))
  {
    var row := Encode(r);
    EncodeDistinctNames(r);
    ValueOfAt(row, 0);
    ValueOfAt(row, 1);
    ValueOfAt(row, 2);
    ValueOfAt(row, 3);
    ValueOfAt(row, 4);
    ValueOfAt(row, 5);
    ValueOfAt(row, 6);
    ValueOfAt(row, 7);
  }

  /** Position by position, the row's values are the request's four numbers and then the four indicators. */
  lemma EncodeValues(r: Request)
    ensures Values(Encode(r)) == [
      r.year, r.mileageKm, r.powerHp, r.cylinderCapacity,
      Indicator(r.matchingNumbers == Yes), Indicator(r.drive == Rear),
      Indicator(r.transmission == Manual), Indicator(r.transmission == PDK)]
  {
  }

  /** The matching-numbers column is 1 exactly for "Yes" and 0 exactly for "No". */
  lemma {:induction false} MatchingIndicator(r: Request)
    ensures ValueOf(Encode(r), MatchingColumn) == Some(1) <==> r.matchingNumbers == Yes
    ensures ValueOf(Encode(r), MatchingColumn) == Some(0) <==> r.matchingNumbers == No
  {
    EncodeColumns(r);
  }

  /** The rear-drive column is 1 exactly for "Rear"; "Front" and "Other" both give 0. */
  lemma {:induction false} RearDriveIndicator(r: Request)
    ensures ValueOf(Encode(r), RearDriveColumn) == Some(1) <==> r.drive == Rear
    ensures ValueOf(Encode(r), RearDriveColumn) == Some(0) <==> r.drive in {Front, Other}
  {
    EncodeColumns(r);
  }

  /**
   * The two transmission columns: "Manual" gives (1, 0), "PDK" gives (0, 1)
   * and "Automatic", the reference category, gives (0, 0); the two are never
   * both 1.
   */
  lemma {:induction false} TransmissionIndicators(r: Request)
    ensures ValueOf(Encode(r), ManualColumn) == Some(1) <==> r.transmission == Manual
    ensures ValueOf(Encode(r), PdkColumn) == Some(1) <==> r.transmission == PDK
    ensures r.transmission == Manual ==>
      ValueOf(Encode(r), ManualColumn) == Some(1) && ValueOf(Encode(r), PdkColumn) == Some(0)
    ensures r.transmission == PDK ==>
      ValueOf(Encode(r), ManualColumn) == Some(0) && ValueOf(Encode(r), PdkColumn) == Some(1)
    ensures r.transmission == Automatic <==>
      ValueOf(Encode(r), ManualColumn) == Some(0) && ValueOf(Encode(r), PdkColumn) == Some(0)
    ensures !(ValueOf(Encode(r), ManualColumn) == Some(1) && ValueOf(Encode(r), PdkColumn) == Some(1))
  {
    EncodeColumns(r);
  }

  /**
   * Two requests the encoder cannot tell apart: equal in every field except
   * that their drives may differ, as long as neither or both are "Rear".
   */
  predicate SameUpToDrive(a: Request, b: Request) {
    && a.year == b.year
    && a.mileageKm == b.mileageKm
    && a.powerHp == b.powerHp
    && a.cylinderCapacity == b.cylinderCapacity
    && a.matchingNumbers == b.matchingNumbers
    && (a.drive == Rear <==> b.drive == Rear)
    && a.transmission == b.transmission
  }

  /**
   * The encoding keeps every field except the difference between "Front" and
   * "Other" drive: two requests encode to the same row exactly when they are
   * the same up to that difference. In particular the transmission is always
   * recoverable from the row.
   */
  lemma EncodeEqualIff(a: Request, b: Request)
    ensures Encode(a) == Encode(b) <==> SameUpToDrive(a, b)
  {
  }

  /** Hence the encoding is not injective: "Front" and "Other" give the same row. */
  lemma DriveCollapses(r: Request)
    ensures r.(drive := Front) != r.(drive := Other)
    ensures Encode(r.(drive := Front)) == Encode(r.(drive := Other))
  {
  }

  /** Two example requests at the lower bounds and in the middle of the form's ranges. */
  lemma EncodeExamples()
    ensures Values(Encode(Request(1950, 0, 50, 0, No, Other, Automatic))) == [1950, 0, 50, 0, 0, 0, 0, 0]
    ensures Values(Encode(Request(2000, 120000, 300, 3600, Yes, Rear, PDK))) == [2000, 120000, 300, 3600, 1, 1, 0, 1]
  {
  }
}
