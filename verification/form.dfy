/**
 * The prediction request collected by the form: four bounded integer
 * widgets and three single-choice select boxes, with the bounds, default
 * values and choice lists the widgets declare.
 */
module Form {

  /** "Matching Numbers (original engine)" select box. */
  datatype MatchingNumbers = Yes | No

  /** "Drive Type" select box. */
  datatype Drive = Rear | Front | Other

  /** "Transmission" select box. */
  datatype Transmission = Manual | PDK | Automatic

  /** One prediction request, created fresh on every rerun of the page. */
  datatype Request = Request(
    year: int,
    mileageKm: int,
    powerHp: int,
    cylinderCapacity: int,
    matchingNumbers: MatchingNumbers,
    drive: Drive,
    transmission: Transmission)

  // Inclusive bounds of the four number inputs.
  const YearMin := 1950
  const YearMax := 2025
  const MileageMin := 0
  const MileageMax := 500000
  const PowerMin := 50
  const PowerMax := 600
  const CapacityMin := 0
  const CapacityMax := 7000

  // Initial values of the four number inputs.
  const YearDefault := 1985
  const MileageDefault := 100000
  const PowerDefault := 250
  const CapacityDefault := 3200

  // Options of the three select boxes, in display order; the first is preselected.
  const MatchingChoices: seq<MatchingNumbers> := [Yes, No]
  const DriveChoices: seq<Drive> := [Rear, Front, Other]
  const TransmissionChoices: seq<Transmission> := [Manual, PDK, Automatic]

  /** The text the select box shows for, and returns as, each choice. */
  function MatchingLabel(m: MatchingNumbers): string {
    match m
    case Yes => "Yes"
    case No => "No"
  }

  function DriveLabel(d: Drive): string {
    match d
    case Rear => "Rear"
    case Front => "Front"
    case Other => "Other"
  }

  function TransmissionLabel(t: Transmission): string {
    match t
    case Manual => "Manual"
    case PDK => "PDK"
    case Automatic => "Automatic"
  }

  /** Every numeric field lies within the inclusive range of its widget. */
  predicate Valid(r: Request) {
    && YearMin <= r.year <= YearMax
    && MileageMin <= r.mileageKm <= MileageMax
    && PowerMin <= r.powerHp <= PowerMax
    && CapacityMin <= r.cylinderCapacity <= CapacityMax
  }

  /** The request the form holds before the user touches any control. */
  function DefaultRequest(): (r: Request)
    ensures Valid(r)
    ensures r.year == YearDefault && r.mileageKm == MileageDefault
    ensures r.powerHp == PowerDefault && r.cylinderCapacity == CapacityDefault
    ensures r.matchingNumbers == MatchingChoices[0]
    ensures r.drive == DriveChoices[0]
    ensures r.transmission == TransmissionChoices[0]
  {
    Request(YearDefault, MileageDefault, PowerDefault, CapacityDefault, Yes, Rear, Manual)
  }

  /**
   * Each select box offers every value of its type exactly once, so the
   * enumerations are closed: a request can hold any combination of them.
   * Read through their labels, the choice lists are the boxes' option
   * lists in display order.
   */
  lemma ChoicesClosed()
    ensures forall m: MatchingNumbers :: m in MatchingChoices
    ensures forall d: Drive :: d in DriveChoices
    ensures forall t: Transmission :: t in TransmissionChoices
    ensures |MatchingChoices| == 2 && MatchingChoices[0] != MatchingChoices[1]
    ensures |DriveChoices| == 3 && DriveChoices[0] != DriveChoices[1]
    ensures DriveChoices[0] != DriveChoices[2] && DriveChoices[1] != DriveChoices[2]
    ensures |TransmissionChoices| == 3 && TransmissionChoices[0] != TransmissionChoices[1]
    ensures TransmissionChoices[0] != TransmissionChoices[2]
    ensures TransmissionChoices[1] != TransmissionChoices[2]
    ensures seq(|MatchingChoices|, i requires 0 <= i < |MatchingChoices| => MatchingLabel(MatchingChoices[i]))
      == ["Yes", "No"]
    ensures seq(|DriveChoices|, i requires 0 <= i < |DriveChoices| => DriveLabel(DriveChoices[i]))
      == ["Rear", "Front", "Other"]
    ensures seq(|TransmissionChoices|, i requires 0 <= i < |TransmissionChoices| => TransmissionLabel(TransmissionChoices[i]))
      == ["Manual", "PDK", "Automatic"]
  {
    forall m: MatchingNumbers ensures m in MatchingChoices {
      var i := if m == Yes then 0 else 1;
      assert MatchingChoices[i] == m;
    }
    forall d: Drive ensures d in DriveChoices {
      var i := match d case Rear => 0 case Front => 1 case Other => 2;
      assert DriveChoices[i] == d;
    }
    forall t: Transmission ensures t in TransmissionChoices {
      var i := match t case Manual => 0 case PDK => 1 case Automatic => 2;
      assert TransmissionChoices[i] == t;
    }
  }

  /**
   * The encoder compares the select box's returned text against a literal;
   * because the labels are pairwise distinct, that string test holds exactly
   * for the one enumeration value, which is what lets the model test the
   * value instead.
   */
  lemma LabelTestsAgree(m: MatchingNumbers, d: Drive, t: Transmission)
    ensures (MatchingLabel(m) == "Yes") <==> m == Yes
    ensures (DriveLabel(d) == "Rear") <==> d == Rear
    ensures (TransmissionLabel(t) == "Manual") <==> t == Manual
    ensures (TransmissionLabel(t) == "PDK") <==> t == PDK
  {
  }
}
