/**
 * The entry form: its fields, the prefill that runs when it opens, and the record a submit
 * builds. The time field is a `datetime-local` value, kept here as a count of local minutes
 * since the epoch; `None` is the empty value the field holds before the prefill runs. The
 * clock (`nowMillis`), the time-zone offset (`offsetMinutes`, the value of
 * `getTimezoneOffset`), the fresh id and `toISOString` are parameters.
 */
module BPForm {
  import opened Wrappers
  import opened Types

  const MinuteMillis := 60000

  /**
   * The field value the prefill writes for an instant: the instant shifted to local time,
   * with seconds and milliseconds cut off.
   */
  function LocalMinute(millis: int, offsetMinutes: int): int {
    (millis - offsetMinutes * MinuteMillis) / MinuteMillis
  }

  /** `new Date(value)` for a local minute value: the instant it names. */
  function MinuteInstant(minute: int, offsetMinutes: int): int {
    (minute + offsetMinutes) * MinuteMillis
  }

  /** A time shown in the form and read back is the same time cut to the minute. */
  lemma MinutePrecision(millis: int, offsetMinutes: int)
    ensures MinuteInstant(LocalMinute(millis, offsetMinutes), offsetMinutes) == millis - millis % MinuteMillis
    ensures 0 <= millis - MinuteInstant(LocalMinute(millis, offsetMinutes), offsetMinutes) < MinuteMillis
  {
    var q := millis / MinuteMillis;
    var r := millis % MinuteMillis;
    assert millis - offsetMinutes * MinuteMillis == (q - offsetMinutes) * MinuteMillis + r;
    assert LocalMinute(millis, offsetMinutes) == q - offsetMinutes;
  }

  /** A minute written into the time field and read back is the same minute. */
  lemma MinuteRoundTrip(minute: int, offsetMinutes: int)
    ensures LocalMinute(MinuteInstant(minute, offsetMinutes), offsetMinutes) == minute
  {
    assert MinuteInstant(minute, offsetMinutes) - offsetMinutes * MinuteMillis == minute * MinuteMillis;
  }

  /** The `min`/`max` bounds of the three number fields; the browser refuses to submit outside them. */
  predicate InBounds(systolic: int, diastolic: int, heartRate: int) {
    40 <= systolic <= 300 && 40 <= diastolic <= 250 && 30 <= heartRate <= 250
  }

  /** The bounds are inclusive at both ends, and the form's defaults lie within them. */
  lemma BoundsExamples()
    ensures InBounds(40, 40, 30) && InBounds(300, 250, 250) && InBounds(120, 80, 75)
    ensures !InBounds(39, 80, 75) && !InBounds(301, 80, 75)
    ensures !InBounds(120, 39, 75) && !InBounds(120, 251, 75)
    ensures !InBounds(120, 80, 29) && !InBounds(120, 80, 251)
  {
  }

  /** The id a submit uses: the edited record's id when it is non-empty, otherwise the fresh one. */
  function SubmitId(initialData: Option<BPRecord>, freshId: string): (id: string)
    ensures initialData.Some? && initialData.value.id != "" ==> id == initialData.value.id
    ensures initialData.None? || initialData.value.id == "" ==> id == freshId
  {
    if initialData.Some? && initialData.value.id != "" then initialData.value.id else freshId
  }

  class EntryForm {
    /** Local minutes since the epoch; `None` while the field is empty. */
    var time: Option<int>
    var systolic: int
    var diastolic: int
    var heartRate: int
    var arm: string
    var note: string
    /** The record being edited, or `None` for a new entry. */
    const initialData: Option<BPRecord>

    /** The arm field holds one of the three tags. */
    predicate ArmChosen()
      reads this
    {
      IsArmLabel(arm)
    }

    /** A fresh form: empty time, 120/80 with heart rate 75, left arm, empty note. */
    constructor (initialData: Option<BPRecord>)
      ensures this.initialData == initialData
      ensures time == None && systolic == 120 && diastolic == 80 && heartRate == 75
      ensures arm == ArmLabel(Left) && note == ""
      ensures ArmChosen()
    {
      this.initialData := initialData;
      time := None;
      systolic := 120;
      diastolic := 80;
      heartRate := 75;
      arm := "左手";
      note := "";
    }

    /**
     * The effect that runs when the form opens: when editing, every field is copied from the
     * record, its time cut to the minute; otherwise only the time is set, to the current minute.
     */
    method Prefill(nowMillis: int, offsetMinutes: int)
      modifies this
      ensures initialData.Some? ==>
        && time == Some(LocalMinute(initialData.value.timestamp.millis, offsetMinutes))
        && systolic == initialData.value.systolic && diastolic == initialData.value.diastolic
        && heartRate == initialData.value.heartRate && arm == initialData.value.arm
        && note == initialData.value.note
      ensures initialData.None? ==>
        && time == Some(LocalMinute(nowMillis, offsetMinutes))
        && systolic == old(systolic) && diastolic == old(diastolic) && heartRate == old(heartRate)
        && arm == old(arm) && note == old(note)
      ensures ArmChosen() <==> if initialData.Some? then IsArmLabel(initialData.value.arm) else old(ArmChosen())
    {
      if initialData.Some? {
        var record := initialData.value;
        time := Some(LocalMinute(record.timestamp.millis, offsetMinutes));
        systolic := record.systolic;
        diastolic := record.diastolic;
        heartRate := record.heartRate;
        arm := record.arm;
        note := record.note;
      } else {
        time := Some(LocalMinute(nowMillis, offsetMinutes));
      }
    }

    /** One of the three arm buttons: the field takes that tag's label. */
    method SetArm(option: ArmType)
      modifies this`arm
      ensures arm == ArmLabel(option) && ArmChosen()
    {
      arm := ArmLabel(option);
    }

    /**
     * `handleSubmit`: no record while the time is empty or a number is out of bounds; otherwise
     * the fields as they stand, under the kept or fresh id, at the instant the time names.
     */
    function Submit(freshId: string, offsetMinutes: int, isoText: int -> string): (r: Option<BPRecord>)
      reads this
      ensures r.Some? <==> time.Some? && InBounds(systolic, diastolic, heartRate)
      ensures r.Some? ==>
        && 40 <= r.value.systolic <= 300 && 40 <= r.value.diastolic <= 250 && 30 <= r.value.heartRate <= 250
        && r.value.id == SubmitId(initialData, freshId)
        && r.value.timestamp.millis == MinuteInstant(time.value, offsetMinutes)
        && r.value.timestamp.text == isoText(r.value.timestamp.millis)
        && r.value.systolic == systolic && r.value.diastolic == diastolic && r.value.heartRate == heartRate
        && r.value.arm == arm && r.value.note == note
    {
      if time.None? || !InBounds(systolic, diastolic, heartRate) then None
      else
        var millis := MinuteInstant(time.value, offsetMinutes);
        Some(BPRecord(SubmitId(initialData, freshId), Timestamp(isoText(millis), millis),
                      systolic, diastolic, heartRate, note, arm))
    }
  }

  /**
   * Opening a new form and submitting it untouched records 120/80 with heart rate 75 on the
   * left arm, with an empty note, under the fresh id, at the current minute.
   */
  method NewEntryDefaults(nowMillis: int, offsetMinutes: int, freshId: string, isoText: int -> string)
    returns (r: Option<BPRecord>)
    ensures r.Some?
    ensures r.value.id == freshId && r.value.arm == "左手" && r.value.note == ""
    ensures r.value.systolic == 120 && r.value.diastolic == 80 && r.value.heartRate == 75
    ensures r.value.timestamp.millis == nowMillis - nowMillis % MinuteMillis
  {
    var form := new EntryForm(None);
    form.Prefill(nowMillis, offsetMinutes);
    MinutePrecision(nowMillis, offsetMinutes);
    r := form.Submit(freshId, offsetMinutes, isoText);
  }

  /**
   * Opening a record for editing and submitting it untouched gives back the same id, numbers,
   * arm and note, with the time cut to the minute; a record whose numbers are out of bounds
   * cannot be resubmitted unchanged.
   */
  method EditRoundTrip(record: BPRecord, nowMillis: int, offsetMinutes: int, freshId: string, isoText: int -> string)
    returns (r: Option<BPRecord>)
    requires record.id != ""
    ensures r.Some? <==> InBounds(record.systolic, record.diastolic, record.heartRate)
    ensures r.Some? ==>
      && r.value.id == record.id
      && r.value.systolic == record.systolic && r.value.diastolic == record.diastolic
      && r.value.heartRate == record.heartRate && r.value.arm == record.arm && r.value.note == record.note
      && r.value.timestamp.millis == record.timestamp.millis - record.timestamp.millis % MinuteMillis
  {
    var form := new EntryForm(Some(record));
    form.Prefill(nowMillis, offsetMinutes);
    MinutePrecision(record.timestamp.millis, offsetMinutes);
    r := form.Submit(freshId, offsetMinutes, isoText);
  }

  /** A record edited under an empty id is saved under the fresh id instead. */
  method EditEmptyIdGetsFresh(record: BPRecord, nowMillis: int, offsetMinutes: int, freshId: string, isoText: int -> string)
    returns (r: Option<BPRecord>)
    requires record.id == "" && InBounds(record.systolic, record.diastolic, record.heartRate)
    ensures r.Some? && r.value.id == freshId
  {
    var form := new EntryForm(Some(record));
    form.Prefill(nowMillis, offsetMinutes);
    r := form.Submit(freshId, offsetMinutes, isoText);
  }

  /** On a new entry the arm field only ever holds one of the three tags. */
  method NewEntryArmIsATag(nowMillis: int, offsetMinutes: int, choice: Option<ArmType>) returns (arm: string)
    ensures IsArmLabel(arm)
    ensures choice.Some? ==> arm == ArmLabel(choice.value)
    ensures choice.None? ==> arm == ArmLabel(Left)
  {
    var form := new EntryForm(None);
    form.Prefill(nowMillis, offsetMinutes);
    if choice.Some? {
      form.SetArm(choice.value);
    }
    arm := form.arm;
  }
}
