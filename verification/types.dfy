/**
 * The record and report shapes of the blood-pressure log, the closed set of arm tags
 * and the five severity bands the application declares.
 */
module Types {
  import opened Wrappers

  // ---------------------------------------------------------------------------
  // Arm tags
  // ---------------------------------------------------------------------------

  /** The arm a reading was taken on: left, right or not given. */
  datatype ArmType = Left | Right | Unspecified

  /** The text the application stores and shows for each tag. */
  function ArmLabel(a: ArmType): string {
    match a
    case Left => "左手"
    case Right => "右手"
    case Unspecified => "未指定"
  }

  /** The tag whose label is `s`, if there is one. */
  function ParseArm(s: string): (r: Option<ArmType>)
    ensures r.Some? ==> ArmLabel(r.value) == s
  {
    if s == "左手" then Some(Left)
    else if s == "右手" then Some(Right)
    else if s == "未指定" then Some(Unspecified)
    else None
  }

  predicate IsArmLabel(s: string) {
    ParseArm(s).Some?
  }

  /** The three tags, in the order the entry form offers them. */
  const ArmOptions: seq<ArmType> := [Left, Right, Unspecified]

  /** Exactly three tags exist, each with its own label, and each label reads back as its tag. */
  lemma ArmTypeClosed(a: ArmType)
    ensures a in ArmOptions && |ArmOptions| == 3
    ensures forall i, j :: 0 <= i < j < |ArmOptions| ==> ArmLabel(ArmOptions[i]) != ArmLabel(ArmOptions[j])
    ensures ParseArm(ArmLabel(a)) == Some(a)
  {
  }

  // ---------------------------------------------------------------------------
  // Records and reports
  // ---------------------------------------------------------------------------

  /**
   * A stored time: the ISO 8601 text kept in the record, and the epoch milliseconds that text
   * names, which is what the application sorts by.
   */
  datatype Timestamp = Timestamp(text: string, millis: int)

  /**
   * One reading. `arm` is the stored text: new records entered by hand carry one of the
   * three labels, imported ones carry whatever the extraction service produced, and an
   * edited record keeps the text it had.
   */
  datatype BPRecord = BPRecord(
    id: string,
    timestamp: Timestamp,
    systolic: int,
    diastolic: int,
    heartRate: int,
    note: string,
    arm: string)

  /** One saved analysis; `recordCount` is fixed when the report is made. */
  datatype AIReport = AIReport(id: string, timestamp: string, content: string, recordCount: nat)

  // ---------------------------------------------------------------------------
  // Severity bands
  // ---------------------------------------------------------------------------

  datatype BPLevel = Normal | Elevated | Stage1 | Stage2 | Crisis

  function LevelLabel(l: BPLevel): string {
    match l
    case Normal => "正常"
    case Elevated => "正常高值"
    case Stage1 => "1级高血压"
    case Stage2 => "2级高血压"
    case Crisis => "高血压危象"
  }

  /** The five bands carry five different labels. */
  lemma LevelLabelsDistinct(l1: BPLevel, l2: BPLevel)
    ensures LevelLabel(l1) == LevelLabel(l2) ==> l1 == l2
  {
  }
}
