/**
 * The bulk-import dialog: pasted text goes to the extraction service, whose answer becomes
 * a preview list that the user confirms or discards. The service's answer is an input to
 * `FinishParse`; the random ids it attaches are the sequence `ids`.
 */
module BulkImport {
  import opened Wrappers
  import opened Types
  import opened Strings
  import App

  /**
   * One extracted reading as the service returns it: the six required fields, and an `id`
   * when the service happens to send one.
   */
  datatype Payload = Payload(
    timestamp: Timestamp,
    systolic: int,
    diastolic: int,
    heartRate: int,
    arm: string,
    note: string,
    id: Option<string>)

  /**
   * What the service call ends in: a parsed array, a response with no text (read as `[]`),
   * or a failure (a network error or text that is not a JSON array).
   */
  datatype ExtractResponse = Parsed(items: seq<Payload>) | NoText | Failed

  const ParseErrorMessage := "AI 无法解析该段文字，请检查格式或尝试提供更清晰的信息。"

  /** The payload's fields under the given id, which replaces any id the payload had. */
  function WithId(p: Payload, id: string): (r: BPRecord)
    ensures r.id == id && PayloadOf(r) == WithoutId(p)
  {
    BPRecord(id, p.timestamp, p.systolic, p.diastolic, p.heartRate, p.note, p.arm)
  }

  /** The payload a record came from, as far as the record tells. */
  function PayloadOf(r: BPRecord): Payload {
    Payload(r.timestamp, r.systolic, r.diastolic, r.heartRate, r.arm, r.note, None)
  }

  function WithoutId(p: Payload): Payload {
    p.(id := None)
  }

  /**
   * The id-attaching map: element `i` carries `ids[i]`, whatever id its payload had, and every
   * other field unchanged; no value is checked.
   */
  function AttachIds(items: seq<Payload>, ids: seq<string>): (out: seq<BPRecord>)
    requires |ids| == |items|
    ensures |out| == |items|
    ensures forall i :: 0 <= i < |items| ==> out[i].id == ids[i]
  {
    if items == [] then [] else [WithId(items[0], ids[0])] + AttachIds(items[1..], ids[1..])
  }

  function PayloadsOf(records: seq<BPRecord>): (out: seq<Payload>)
    ensures |out| == |records|
  {
    if records == [] then [] else [PayloadOf(records[0])] + PayloadsOf(records[1..])
  }

  function WithoutIds(items: seq<Payload>): (out: seq<Payload>)
    ensures |out| == |items|
  {
    if items == [] then [] else [WithoutId(items[0])] + WithoutIds(items[1..])
  }

  /**
   * Attaching ids loses nothing but the payloads' own ids: reading the payloads back from the
   * preview gives the service's answer with its ids dropped.
   */
  lemma {:induction false} AttachIdsRoundTrip(items: seq<Payload>, ids: seq<string>)
    requires |ids| == |items|
    ensures PayloadsOf(AttachIds(items, ids)) == WithoutIds(items)
    decreases |items|
  {
    if items != [] {
      AttachIdsRoundTrip(items[1..], ids[1..]);
      var out := AttachIds(items, ids);
      assert out[1..] == AttachIds(items[1..], ids[1..]);
    }
  }

  /** No value check: a reading far outside the form's bounds, on any arm text, goes into the preview as it is. */
  lemma {:induction false} AttachIdsKeepsValues(items: seq<Payload>, ids: seq<string>, i: int)
    requires |ids| == |items| && 0 <= i < |items|
    ensures AttachIds(items, ids)[i] == WithId(items[i], ids[i])
    decreases |items|
  {
    if i > 0 {
      AttachIdsKeepsValues(items[1..], ids[1..], i - 1);
    }
  }

  class ImportDialog {
    var text: string
    var loading: bool
    var preview: Option<seq<BPRecord>>
    var error: Option<string>

    constructor ()
      ensures text == "" && !loading && preview == None && error == None
    {
      text := "";
      loading := false;
      preview := None;
      error := None;
    }

    /**
     * The parse button is shown while there is no preview, and enabled when no request is
     * running and the text is not blank.
     */
    predicate CanParse()
      reads this
      ensures CanParse() <==> preview.None? && !loading && !IsBlank(text)
    {
      TrimEmptyIffBlank(text);
      preview.None? && !loading && Trim(text) != ""
    }

    /** Typing in the text area. */
    method SetText(t: string)
      modifies this`text
      ensures text == t
    {
      text := t;
    }

    /**
     * The start of `handleAIParse`: blank text does nothing; otherwise a request starts and
     * the old error is cleared.
     */
    method BeginParse() returns (started: bool)
      modifies this
      ensures started <==> !IsBlank(text)
      ensures !started ==> loading == old(loading) && preview == old(preview) && error == old(error)
      ensures started ==> loading && error == None && preview == old(preview)
      ensures started ==> !CanParse()
      ensures text == old(text)
    {
      TrimEmptyIffBlank(text);
      if Trim(text) == "" {
        started := false;
        return;
      }
      started := true;
      loading := true;
      error := None;
    }

    /**
     * A click on the parse button: while it is hidden (a preview shown) or disabled (a request
     * running, or blank text) nothing happens; otherwise the request starts, and the button is disabled until it ends.
     */
    method ClickParse() returns (started: bool)
      modifies this
      ensures started <==> old(CanParse())
      ensures !started ==> text == old(text) && loading == old(loading) && preview == old(preview) && error == old(error)
      ensures started ==> loading && error == None && preview == old(preview) && text == old(text)
      ensures started ==> !CanParse()
    {
      if CanParse() {
        started := BeginParse();
      } else {
        started := false;
      }
    }

    /**
     * The end of `handleAIParse`: parsed payloads become the preview with the given ids, an
     * empty answer an empty preview, a failure the error message with the preview left as it
     * was; the request is over either way.
     */
    method FinishParse(response: ExtractResponse, ids: seq<string>)
      requires loading
      requires response.Parsed? ==> |ids| == |response.items|
      modifies this
      ensures !loading && text == old(text)
      ensures response.Parsed? ==> preview == Some(AttachIds(response.items, ids)) && error == old(error)
      ensures response.NoText? ==> preview == Some([]) && error == old(error)
      ensures response.Failed? ==> preview == old(preview) && error == Some(ParseErrorMessage)
    {
      match response {
        case Parsed(items) =>
          preview := Some(AttachIds(items, ids));
        case NoText =>
          preview := Some(AttachIds([], []));
        case Failed =>
          error := Some(ParseErrorMessage);
      }
      loading := false;
    }

    /** `handleConfirm`: hands the preview on, unchanged, whenever there is one, even an empty one. */
    method Confirm() returns (batch: Option<seq<BPRecord>>)
      ensures batch.Some? <==> preview.Some?
      ensures batch.Some? ==> batch.value == preview.value
    {
      if preview.Some? {
        batch := Some(preview.value);
      } else {
        batch := None;
      }
    }

    /** The "重新录入" link: back to the text input. */
    method ResetPreview()
      modifies this`preview
      ensures preview == None
    {
      preview := None;
    }
  }

  /**
   * A whole import, start to finish: a non-blank text whose extraction succeeds ends with every
   * extracted reading in the store, each under its new id, no value checked, and the store
   * still newest first.
   */
  method ImportFlow(store: App.Store, t: string, items: seq<Payload>, ids: seq<string>)
    requires store.Valid() && !IsBlank(t) && |ids| == |items|
    modifies store
    ensures store.Valid()
    ensures |store.records| == |old(store.records)| + |items|
    ensures multiset(store.records) == multiset(AttachIds(items, ids) + old(store.records))
  {
    var dialog := new ImportDialog();
    dialog.SetText(t);
    var started := dialog.BeginParse();
    dialog.FinishParse(Parsed(items), ids);
    var batch := dialog.Confirm();
    store.AddBulkRecords(batch.value);
  }

  /** An answer with no text leaves an empty preview, and confirming it imports nothing. */
  method EmptyAnswerImportsNothing(t: string) returns (batch: Option<seq<BPRecord>>)
    requires !IsBlank(t)
    ensures batch == Some([])
  {
    var dialog := new ImportDialog();
    dialog.SetText(t);
    var started := dialog.BeginParse();
    dialog.FinishParse(NoText, []);
    batch := dialog.Confirm();
  }

  /** A failed extraction on a fresh dialog leaves nothing to confirm and shows the error. */
  method FailureLeavesNoPreview(t: string) returns (batch: Option<seq<BPRecord>>, message: Option<string>)
    requires !IsBlank(t)
    ensures batch == None && message == Some(ParseErrorMessage)
  {
    var dialog := new ImportDialog();
    dialog.SetText(t);
    var started := dialog.BeginParse();
    dialog.FinishParse(Failed, []);
    batch := dialog.Confirm();
    message := dialog.error;
  }

  /**
   * One request at a time: a second click on the parse button while the first request is
   * running starts nothing and leaves the dialog as it was.
   */
  method SecondParseClickIgnored(t: string) returns (first: bool, second: bool, loading: bool)
    requires !IsBlank(t)
    ensures first && !second && loading
  {
    var dialog := new ImportDialog();
    dialog.SetText(t);
    TrimEmptyIffBlank(t);
    first := dialog.ClickParse();
    second := dialog.ClickParse();
    loading := dialog.loading;
  }

  /** Blank text typed into a new dialog starts no request. */
  method BlankTextDoesNothing(t: string) returns (started: bool, loading: bool)
    requires IsBlank(t)
    ensures !started && !loading
  {
    var dialog := new ImportDialog();
    dialog.SetText(t);
    started := dialog.BeginParse();
    loading := dialog.loading;
  }
}
