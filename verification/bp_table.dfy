/**
 * The history table: the status badge each reading gets, and the rows the table shows.
 */
module BPTable {
  import Types

  /** The four badges the table can show. */
  datatype Status = Crisis | Hypertension | Elevated | Normal

  function StatusLabel(s: Status): string {
    match s
    case Crisis => "危机"
    case Hypertension => "高血压"
    case Elevated => "高值"
    case Normal => "正常"
  }

  /** The four badges carry four different texts. */
  lemma StatusLabelsDistinct(s: Status, t: Status)
    ensures StatusLabel(s) == StatusLabel(t) ==> s == t
  {
  }

  /** How serious a badge is: 0 for normal up to 3 for crisis. */
  function Severity(s: Status): nat {
    match s
    case Normal => 0
    case Elevated => 1
    case Hypertension => 2
    case Crisis => 3
  }

  /**
   * The badge of a reading: the first threshold that either value reaches decides, so each
   * badge is given for exactly the readings its band describes.
   */
  function GetStatus(sys: int, dia: int): (s: Status)
    ensures s == Crisis <==> sys >= 180 || dia >= 120
    ensures s == Hypertension <==> !(sys >= 180 || dia >= 120) && (sys >= 140 || dia >= 90)
    ensures s == Elevated <==> !(sys >= 140 || dia >= 90) && (sys >= 120 || dia >= 80)
    ensures s == Normal <==> sys < 120 && dia < 80
  {
    if sys >= 180 || dia >= 120 then Crisis
    else if sys >= 140 || dia >= 90 then Hypertension
    else if sys >= 120 || dia >= 80 then Elevated
    else Normal
  }

  /** Raising either value, or both, never lowers the badge. */
  lemma GetStatusMonotone(sys: int, dia: int, sys': int, dia': int)
    requires sys <= sys' && dia <= dia'
    ensures Severity(GetStatus(sys, dia)) <= Severity(GetStatus(sys', dia'))
  {
  }

  /** Readings on each side of the band thresholds, each band decided by one value or both. */
  lemma StatusExamples()
    ensures GetStatus(185, 70) == Crisis
    ensures GetStatus(118, 95) == Hypertension
    ensures GetStatus(121, 79) == Elevated
    ensures GetStatus(119, 79) == Normal
  {
  }

  /** The band of the declared severity scale that each badge stands for. */
  function LevelOf(s: Status): (l: Types.BPLevel)
    ensures l != Types.Stage1
    ensures Severity(s) <= 1 ==> l == if s == Normal then Types.BPLevel.Normal else Types.BPLevel.Elevated
  {
    match s
    case Crisis => Types.BPLevel.Crisis
    case Hypertension => Types.Stage2
    case Elevated => Types.BPLevel.Elevated
    case Normal => Types.BPLevel.Normal
  }

  /**
   * The table uses four of the five declared bands: every badge is one of four, each of the
   * four is reached, and no reading is ever placed in the first stage of hypertension.
   */
  lemma FourOfFiveBands(sys: int, dia: int)
    ensures GetStatus(sys, dia) in {Crisis, Hypertension, Elevated, Normal}
    ensures LevelOf(GetStatus(sys, dia)) != Types.Stage1
    ensures exists x: int, y: int :: GetStatus(x, y) == Crisis
    ensures exists x: int, y: int :: GetStatus(x, y) == Hypertension
    ensures exists x: int, y: int :: GetStatus(x, y) == Elevated
    ensures exists x: int, y: int :: GetStatus(x, y) == Normal
  {
    assert GetStatus(180, 0) == Crisis;
    assert GetStatus(140, 0) == Hypertension;
    assert GetStatus(120, 0) == Elevated;
    assert GetStatus(0, 0) == Normal;
  }

  // ---------------------------------------------------------------------------
  // Rows
  // ---------------------------------------------------------------------------

  /**
   * One table row: the record it shows (which the edit button hands back), its badge and the
   * badge's text, the note cell ('-' for an empty note) and the id the delete button hands back.
   */
  datatype Row = Row(record: Types.BPRecord, status: Status, badgeText: string, noteText: string, deleteId: string)

  /** What the table body shows: a placeholder line, or one row per record. */
  datatype TableBody = Placeholder | Rows(rows: seq<Row>)

  function RowOf(r: Types.BPRecord): Row {
    var status := GetStatus(r.systolic, r.diastolic);
    Row(r, status, StatusLabel(status), if r.note == "" then "-" else r.note, r.id)
  }

  /**
   * An empty list shows the placeholder; otherwise row `i` shows record `i`, and its buttons
   * edit that record and delete by that record's id.
   */
  function Body(records: seq<Types.BPRecord>): (b: TableBody)
    ensures b.Placeholder? <==> records == []
    ensures b.Rows? ==> |b.rows| == |records|
    ensures b.Rows? ==> forall i :: 0 <= i < |records| ==>
      && b.rows[i].record == records[i]
      && b.rows[i].deleteId == records[i].id
      && b.rows[i].status == GetStatus(records[i].systolic, records[i].diastolic)
      && b.rows[i].badgeText == StatusLabel(b.rows[i].status)
      && b.rows[i].noteText == (if records[i].note == "" then "-" else records[i].note)
      && (b.rows[i].noteText == "-" <==> records[i].note == "" || records[i].note == "-")
  {
    if records == [] then Placeholder
    else Rows(seq(|records|, i requires 0 <= i < |records| => RowOf(records[i])))
  }
}
