/** The dashboard's handlers as pure transitions over its six state cells,
    the user events the rendered page can dispatch, runs of such events and
    the properties that hold over every run. */
module Transitions {
  import opened QrModel

  /** The six state cells of the dashboard component. */
  datatype View = View(
    qrCodes: seq<QrCode>,
    loading: bool,
    error: string,
    editingQr: Option<QrCode>,
    formData: FormData,
    qrCodeDataUrl: string)

  /** What a handler does: the state it leaves and the requests it sends,
      in the order it sends them. */
  datatype Transition = Transition(next: View, sent: seq<Request>)

  const FetchFailed: string := "Failed to fetch QR codes"
  const UpdateFailed: string := "Failed to update QR code"
  const DeleteFailed: string := "Failed to delete QR code"
  const GenerateFailed: string := "Error generating QR code"

  /** The state cells as `useState` initialises them. */
  const Initial: View := View([], true, "", None, DefaultForm, "")

  /** The part of `fetchQrCodes` that runs before its `await`: the loading
      flag goes up and the list request goes out. */
  function BeginFetch(v: View): (t: Transition)
    ensures t.sent == [ListQrCodes]
    ensures t.next.loading
    ensures t.next.(loading := v.loading) == v
  {
    Transition(v.(loading := true), [ListQrCodes])
  }

  /** The part of `fetchQrCodes` that runs when the list request comes back. */
  function FinishFetch(v: View, reply: Reply<seq<QrCode>>): (r: View)
    ensures !r.loading
    ensures reply.Ok? ==> r.qrCodes == reply.data && r.error == v.error
    ensures reply.Err? ==> r.qrCodes == v.qrCodes && r.error == FetchFailed
    ensures r.(qrCodes := v.qrCodes, loading := v.loading, error := v.error) == v
  {
    match reply
    case Ok(list) => v.(qrCodes := list, loading := false)
    case Err(_) => v.(error := FetchFailed, loading := false)
  }

  /** `onChange`: the control named `name` now shows `value`. */
  function OnChange(v: View, name: Field, value: string): (r: View)
    ensures Get(r.formData, name) == value
    ensures forall other :: other != name ==> Get(r.formData, other) == Get(v.formData, other)
    ensures r.(formData := v.formData) == v
  {
    v.(formData := WithField(v.formData, name, value))
  }

  /** The draft an edit of `qr` starts from: the record's type and content,
      and the record's color when it has a non-empty one, the default otherwise. */
  function SeedForm(qr: QrCode): (f: FormData)
    ensures f.qrType == qr.qrType && f.content == qr.content
    ensures f.color == DefaultColor || qr.customization.color == Some(f.color)
    ensures qr.customization.color.Some? && qr.customization.color.value != "" ==> f.color == qr.customization.color.value
    ensures f.color != ""
  {
    FormData(qr.qrType, qr.content, OrElse(qr.customization.color, DefaultColor))
  }

  /** `startEdit(qr)`. */
  function StartEdit(v: View, qr: QrCode): (r: View)
    ensures r.editingQr == Some(qr)
    ensures r.formData.qrType == qr.qrType && r.formData.content == qr.content
    ensures qr.customization.color.Some? && qr.customization.color.value != "" ==>
              r.formData.color == qr.customization.color.value
    ensures qr.customization.color.None? || qr.customization.color.value == "" ==>
              r.formData.color == DefaultColor
    ensures r.qrCodeDataUrl == ""
    ensures r.(editingQr := v.editingQr, formData := v.formData, qrCodeDataUrl := v.qrCodeDataUrl) == v
  {
    v.(editingQr := Some(qr), formData := SeedForm(qr), qrCodeDataUrl := "")
  }

  /** `cancelEdit`: back to creating, with the default draft; no request. */
  function CancelEdit(v: View): (r: View)
    ensures r.editingQr.None? && r.formData == DefaultForm
    ensures r.(editingQr := v.editingQr, formData := v.formData) == v
  {
    v.(editingQr := None, formData := DefaultForm)
  }

  /** `saveEdit` up to its `await`: the update request for the edited record,
      with the draft as body. With no record being edited, reading
      `editingQr._id` throws inside the `try` before anything is sent, and the
      catch branch sets the error at once. */
  function SaveEdit(v: View): (t: Transition)
    ensures v.editingQr.None? ==> t == Transition(v.(error := UpdateFailed), [])
    ensures v.editingQr.Some? ==>
              t == Transition(v, [UpdateQrCode(v.editingQr.value.id, BodyOf(v.formData))])
  {
    match v.editingQr
    case None => Transition(v.(error := UpdateFailed), [])
    case Some(qr) => Transition(v, [UpdateQrCode(qr.id, BodyOf(v.formData))])
  }

  /** `saveEdit` after its `await`: on success it runs `cancelEdit` and starts
      a refresh; on failure it sets the update error and keeps the edit. */
  function FinishSave(v: View, succeeded: bool): (t: Transition)
    ensures succeeded ==> t == BeginFetch(CancelEdit(v))
    ensures !succeeded ==> t == Transition(v.(error := UpdateFailed), [])
    ensures !succeeded ==> t.next.editingQr == v.editingQr && t.next.formData == v.formData
  {
    if succeeded then BeginFetch(CancelEdit(v)) else Transition(v.(error := UpdateFailed), [])
  }

  /** `deleteQr(id)` up to its `await`, given the confirmation answer: a
      denied delete returns at once; either way no cell changes yet. */
  function DeleteQr(v: View, id: string, confirmed: bool): (t: Transition)
    ensures t.next == v
    ensures t.sent != [] <==> confirmed
    ensures t.sent != [] ==> t.sent == [DeleteQrCode(id)]
  {
    if confirmed then Transition(v, [DeleteQrCode(id)]) else Transition(v, [])
  }

  /** `deleteQr` after its `await`: a refresh on success, the delete error on
      failure; the list, the edited record and the draft are never touched. */
  function FinishDelete(v: View, succeeded: bool): (t: Transition)
    ensures succeeded ==> t == BeginFetch(v)
    ensures !succeeded ==> t == Transition(v.(error := DeleteFailed), [])
    ensures t.next.qrCodes == v.qrCodes
    ensures t.next.editingQr == v.editingQr && t.next.formData == v.formData
  {
    if succeeded then BeginFetch(v) else Transition(v.(error := DeleteFailed), [])
  }

  /** `generateQrCode` up to its `await`: the error and the image are cleared
      and the draft is posted. */
  function GenerateQrCode(v: View): (t: Transition)
    ensures t.sent == [CreateQrCode(BodyOf(v.formData))]
    ensures t.next.error == "" && t.next.qrCodeDataUrl == ""
    ensures t.next.(error := v.error, qrCodeDataUrl := v.qrCodeDataUrl) == v
  {
    Transition(v.(error := "", qrCodeDataUrl := ""), [CreateQrCode(BodyOf(v.formData))])
  }

  /** `generateQrCode` after its `await`, given the reply whose data is the
      response's `qrCodeUrl`. */
  function FinishGenerate(v: View, reply: Reply<string>): (t: Transition)
    ensures reply.Ok? ==>
              && t.next.qrCodeDataUrl == reply.data && t.next.formData == DefaultForm
              && t.next.loading && t.sent == [ListQrCodes]
              && t.next.(qrCodeDataUrl := v.qrCodeDataUrl, formData := v.formData, loading := v.loading) == v
    ensures reply.Err? ==> t == Transition(v.(error := OrElse(reply.message, GenerateFailed)), [])
    ensures reply.Err? && (reply.message.None? || reply.message.value == "") ==> t.next.error == GenerateFailed
    ensures t.next.qrCodes == v.qrCodes && t.next.editingQr == v.editingQr
  {
    match reply
    case Ok(url) =>
      var refresh := BeginFetch(v.(qrCodeDataUrl := url));
      Transition(refresh.next.(formData := DefaultForm), refresh.sent)
    case Err(message) =>
      Transition(v.(error := OrElse(message, GenerateFailed)), [])
  }

  /** The form's `onSubmit`: `saveEdit` while a record is being edited,
      `generateQrCode` otherwise. Either way exactly one request goes out,
      and the edit state and the draft stay as they are until its reply. */
  function Submit(v: View): (t: Transition)
    ensures |t.sent| == 1
    ensures t.sent[0].UpdateQrCode? <==> v.editingQr.Some?
    ensures t.sent[0].CreateQrCode? <==> v.editingQr.None?
    ensures (t.sent[0].UpdateQrCode? || t.sent[0].CreateQrCode?) && t.sent[0].body == BodyOf(v.formData)
    ensures v.editingQr.Some? ==> t.sent[0].id == v.editingQr.value.id
    ensures t.next.editingQr == v.editingQr && t.next.formData == v.formData
    ensures v.editingQr.Some? ==> t.next == v
    ensures v.editingQr.None? ==> t.next == v.(error := "", qrCodeDataUrl := "")
  {
    if v.editingQr.Some? then SaveEdit(v) else GenerateQrCode(v)
  }

  /** What the user or the network can do to the page. A click carries the
      confirmation answer; each reply to an awaited request is an event of
      its own, so anything may happen between a request and its reply. */
  datatype Event =
    | Changed(name: Field, value: string)
    | EditClicked(qr: QrCode)
    | CancelClicked
    | Submitted
    | DeleteClicked(id: string, confirmed: bool)
    | UpdateReplied(succeeded: bool)
    | CreateReplied(reply: Reply<string>)
    | DeleteReplied(succeeded: bool)
    | ListArrived(listed: Reply<seq<QrCode>>)

  /** The handler, or the handler's continuation, an event runs. */
  function Step(v: View, e: Event): (t: Transition)
    ensures t.next.qrCodes != v.qrCodes ==> e.ListArrived? && e.listed.Ok? && t.next.qrCodes == e.listed.data
    ensures t.next.editingQr != v.editingQr ==>
              e.EditClicked? || e.CancelClicked? || (e.UpdateReplied? && e.succeeded)
  {
    match e
    case Changed(name, value) => Transition(OnChange(v, name, value), [])
    case EditClicked(qr) => Transition(StartEdit(v, qr), [])
    case CancelClicked => Transition(CancelEdit(v), [])
    case Submitted => Submit(v)
    case DeleteClicked(id, confirmed) => DeleteQr(v, id, confirmed)
    case UpdateReplied(succeeded) => FinishSave(v, succeeded)
    case CreateReplied(reply) => FinishGenerate(v, reply)
    case DeleteReplied(succeeded) => FinishDelete(v, succeeded)
    case ListArrived(listed) => Transition(FinishFetch(v, listed), [])
  }

  /** The requests of each kind that have been sent and not yet answered. */
  datatype Pending = Pending(lists: nat, creates: nat, updates: nat, deletes: nat)

  const NothingPending: Pending := Pending(0, 0, 0, 0)

  function Add(p: Pending, r: Request): Pending
  {
    match r
    case ListQrCodes => p.(lists := p.lists + 1)
    case CreateQrCode(_) => p.(creates := p.creates + 1)
    case UpdateQrCode(_, _) => p.(updates := p.updates + 1)
    case DeleteQrCode(_) => p.(deletes := p.deletes + 1)
  }

  /** The pending requests once `sent` has gone out. */
  function Issue(p: Pending, sent: seq<Request>): Pending
    decreases |sent|
  {
    if sent == [] then p else Issue(Add(p, sent[0]), sent[1..])
  }

  function Less(n: nat): nat { if n > 0 then n - 1 else 0 }

  /** The pending requests once the reply an event carries has been taken. */
  function Answer(p: Pending, e: Event): Pending
  {
    match e
    case UpdateReplied(_) => p.(updates := Less(p.updates))
    case CreateReplied(_) => p.(creates := Less(p.creates))
    case DeleteReplied(_) => p.(deletes := Less(p.deletes))
    case ListArrived(_) => p.(lists := Less(p.lists))
    case _ => p
  }

  /** The events the page lets through in state `v` with requests `p` in
      flight: the type select is disabled while editing; the Edit and Delete
      buttons exist only for listed records and only once loading is over;
      Cancel is shown only while editing; the browser refuses to submit an
      empty content field; a reply comes only for a request in flight. */
  predicate Enabled(v: View, p: Pending, e: Event): (b: bool)
    ensures e.Changed? ==> (b <==> e.name != TypeField || v.editingQr.None?)
    ensures b && (e.EditClicked? || e.DeleteClicked?) ==> !v.loading && v.qrCodes != []
    ensures e.EditClicked? ==> (b <==> !v.loading && e.qr in v.qrCodes)
    ensures e.DeleteClicked? ==> (b <==> !v.loading && exists qr :: qr in v.qrCodes && qr.id == e.id)
    ensures e.CancelClicked? ==> (b <==> v.editingQr.Some?)
    ensures e.Submitted? ==> (b <==> v.formData.content != "")
    ensures e.UpdateReplied? ==> (b <==> p.updates > 0)
    ensures e.CreateReplied? ==> (b <==> p.creates > 0)
    ensures e.DeleteReplied? ==> (b <==> p.deletes > 0)
    ensures e.ListArrived? ==> (b <==> p.lists > 0)
  {
    match e
    case Changed(name, _) => name == TypeField ==> v.editingQr.None?
    case EditClicked(qr) => !v.loading && qr in v.qrCodes
    case CancelClicked => v.editingQr.Some?
    case Submitted => v.formData.content != ""
    case DeleteClicked(id, _) => !v.loading && exists qr :: qr in v.qrCodes && qr.id == id
    case UpdateReplied(_) => p.updates > 0
    case CreateReplied(_) => p.creates > 0
    case DeleteReplied(_) => p.deletes > 0
    case ListArrived(_) => p.lists > 0
  }

  /** The events applied one after another by `step`, with every request sent. */
  function Run(step: (View, Event) -> Transition, v: View, events: seq<Event>): Transition
    decreases |events|
  {
    if events == [] then Transition(v, [])
    else
      var first := step(v, events[0]);
      var rest := Run(step, first.next, events[1..]);
      Transition(rest.next, first.sent + rest.sent)
  }

  /** Every event of the run is one the page lets through when it happens. */
  predicate Admissible(step: (View, Event) -> Transition, v: View, p: Pending, events: seq<Event>)
    decreases |events|
  {
    events == [] ||
    (var first := step(v, events[0]);
     Enabled(v, p, events[0]) && Admissible(step, first.next, Issue(Answer(p, events[0]), first.sent), events[1..]))
  }

  /** While a record is being edited, the draft's type is that record's type. */
  predicate TypeLocked(v: View)
  {
    v.editingQr.Some? ==> v.formData.qrType == v.editingQr.value.qrType
  }

  /** The list data of the last successful list reply among the events. */
  function LastListed(events: seq<Event>): Option<seq<QrCode>>
    decreases |events|
  {
    if events == [] then None
    else
      match LastListed(events[1..])
      case Some(list) => Some(list)
      case None =>
        if events[0].ListArrived? && events[0].listed.Ok? then Some(events[0].listed.data) else None
  }

  // ---------------------------------------------------------------------
  // One handler at a time

  /** Every event but a successful create reply that arrives during an edit
      keeps the type lock. */
  lemma StepKeepsTypeLocked(v: View, p: Pending, e: Event)
    requires TypeLocked(v) && Enabled(v, p, e)
    requires e.CreateReplied? && e.reply.Ok? ==> v.editingQr.None?
    ensures TypeLocked(Step(v, e).next)
  {
  }

  /** Edit then Cancel keeps the list, the loading flag and the error; it ends
      with no edited record, the default draft and no image. */
  lemma EditThenCancel(v: View, qr: QrCode)
    ensures CancelEdit(StartEdit(v, qr)) == v.(editingQr := None, formData := DefaultForm, qrCodeDataUrl := "")
  {
  }

  /** With no event between request and reply, a save ends as Cancel followed
      by a refresh, or keeps the edit and the draft and sets the error. */
  lemma SaveAwaited(v: View, qr: QrCode, succeeded: bool)
    requires v.editingQr == Some(qr)
    ensures var t := FinishSave(SaveEdit(v).next, succeeded);
            && SaveEdit(v).sent == [UpdateQrCode(qr.id, BodyOf(v.formData))]
            && (succeeded ==> t == BeginFetch(CancelEdit(v)))
            && (!succeeded ==> t.next == v.(error := UpdateFailed) && t.sent == [])
  {
  }

  /** With no event between request and reply, a create shows the image,
      resets the draft and refreshes, or keeps the draft and shows the error. */
  lemma GenerateAwaited(v: View, reply: Reply<string>)
    ensures var t := FinishGenerate(GenerateQrCode(v).next, reply);
            && (reply.Ok? ==>
                  t.next == v.(error := "", qrCodeDataUrl := reply.data, formData := DefaultForm, loading := true)
                  && t.sent == [ListQrCodes])
            && (reply.Err? ==>
                  t.next == v.(error := OrElse(reply.message, GenerateFailed), qrCodeDataUrl := "") && t.sent == [])
  {
  }

  /** With no event between request and reply, a confirmed delete changes
      only `loading` on success and only the error on failure. */
  lemma DeleteAwaited(v: View, id: string, succeeded: bool)
    ensures var t := FinishDelete(DeleteQr(v, id, true).next, succeeded);
            && DeleteQr(v, id, true).sent == [DeleteQrCode(id)]
            && t.next == (if succeeded then v.(loading := true) else v.(error := DeleteFailed))
  {
  }

  /** Saving an edit sends the edited record's own type, whatever the form
      holds for the other fields. */
  lemma SaveSendsEditedType(v: View)
    requires TypeLocked(v) && v.editingQr.Some?
    ensures SaveEdit(v).sent[0].body.qrType == v.editingQr.value.qrType
  {
  }

  /** Saving an untouched edit writes the record back as it was exactly when
      the record has a non-empty color; otherwise the default color is
      written. */
  lemma UntouchedSaveWritesBack(v: View, qr: QrCode)
    ensures var put := SaveEdit(StartEdit(v, qr)).sent[0];
            put.UpdateQrCode? &&
            (Stored(put.id, put.body) == qr <==> (qr.customization.color.Some? && qr.customization.color.value != ""))
  {
  }

  /** A draft that is created and later opened for editing comes back as it
      was exactly when its color is not empty. */
  lemma DraftRoundTrip(f: FormData, id: string)
    ensures SeedForm(Stored(id, BodyOf(f))) == f <==> f.color != ""
  {
  }

  /** A deleted record that is being edited stays in the form: the delete
      never ends an edit session, whether the dialog is denied or the
      delete is sent and its reply arrives. */
  lemma DeleteKeepsEditSession(v: View, qr: QrCode, succeeded: bool)
    requires v.editingQr == Some(qr)
    ensures DeleteQr(v, qr.id, false).next.editingQr == Some(qr)
    ensures FinishDelete(DeleteQr(v, qr.id, true).next, succeeded).next.editingQr == Some(qr)
  {
  }

  /** Two successful refreshes with the same list leave what one leaves, and
      so do two list replies to fetches already in flight. */
  lemma RefreshIdempotent(v: View, list: seq<QrCode>)
    ensures FinishFetch(BeginFetch(FinishFetch(BeginFetch(v).next, Ok(list))).next, Ok(list))
            == FinishFetch(BeginFetch(v).next, Ok(list))
    ensures FinishFetch(FinishFetch(v, Ok(list)), Ok(list)) == FinishFetch(v, Ok(list))
  {
  }

  lemma StepDeleteNeedsConfirmation(v: View, e: Event, id: string)
    requires DeleteQrCode(id) in Step(v, e).sent
    ensures e.DeleteClicked? && e.id == id && e.confirmed
  {
  }

  // ---------------------------------------------------------------------
  // Whole runs

  /** The type is read-only for a whole edit session, in every run in which
      no successful create reply arrives while a record is being edited. */
  lemma {:induction false} RunKeepsTypeLocked(v: View, p: Pending, events: seq<Event>)
    requires TypeLocked(v) && Admissible(Step, v, p, events)
    requires forall i :: 0 <= i < |events| && events[i].CreateReplied? && events[i].reply.Ok? ==>
               Run(Step, v, events[..i]).next.editingQr.None?
    ensures TypeLocked(Run(Step, v, events).next)
    decreases |events|
  {
    if events != [] {
      var e := events[0];
      var first := Step(v, e);
      assert events[..0] == [];
      StepKeepsTypeLocked(v, p, e);
      forall i | 0 <= i < |events[1..]| && events[1..][i].CreateReplied? && events[1..][i].reply.Ok?
        ensures Run(Step, first.next, events[1..][..i]).next.editingQr.None?
      {
        assert events[..i + 1][1..] == events[1..][..i];
        assert events[i + 1] == events[1..][i];
      }
      RunKeepsTypeLocked(first.next, Issue(Answer(p, e), first.sent), events[1..]);
    }
  }

  /** The record and runs of the create race: a create is posted, Edit is
      clicked before its reply, and the reply resets the draft under the
      open edit, so the following save changes the record's type. */
  const RaceRecord: QrCode := QrCode("b", "text", "hi", Customization(Some("#123456")))
  const RaceStart: View := Initial.(loading := false, qrCodes := [RaceRecord], formData := DefaultForm.(content := "x"))
  const RaceEvents: seq<Event> := [Submitted, EditClicked(RaceRecord), CreateReplied(Ok("img"))]
  const RaceSave: seq<Event> := RaceEvents + [Changed(ContentField, "y"), Submitted]

  lemma CreateReplyBreaksTypeLock()
    ensures TypeLocked(RaceStart) && Admissible(Step, RaceStart, NothingPending, RaceSave)
    ensures Run(Step, RaceStart, RaceEvents).next.editingQr == Some(RaceRecord)
    ensures !TypeLocked(Run(Step, RaceStart, RaceEvents).next)
    ensures UpdateQrCode("b", Body("url", "y", Customization(Some(DefaultColor)))) in Run(Step, RaceStart, RaceSave).sent
  {
    var put := UpdateQrCode("b", Body("url", "y", Customization(Some(DefaultColor))));
    var s1 := Step(RaceStart, Submitted);
    var p1 := Issue(Answer(NothingPending, Submitted), s1.sent);
    assert RaceStart.editingQr.None?;
    assert s1.sent == [CreateQrCode(BodyOf(RaceStart.formData))];
    assert Answer(NothingPending, Submitted) == NothingPending;
    assert s1.sent[1..] == [];
    assert Issue(NothingPending, s1.sent) == Issue(Add(NothingPending, s1.sent[0]), []);
    assert p1 == NothingPending.(creates := 1);
    var s2 := Step(s1.next, EditClicked(RaceRecord));
    var s3 := Step(s2.next, CreateReplied(Ok("img")));
    var p3 := Issue(Answer(p1, CreateReplied(Ok("img"))), s3.sent);
    var s4 := Step(s3.next, Changed(ContentField, "y"));
    var s5 := Step(s4.next, Submitted);
    assert s5.sent == [put];
    var tail4 := [Submitted];
    var tail3 := [Changed(ContentField, "y")] + tail4;
    var tail2 := [CreateReplied(Ok("img"))] + tail3;
    var tail1 := [EditClicked(RaceRecord)] + tail2;
    assert RaceSave == [Submitted] + tail1;
    assert RaceEvents == [Submitted, EditClicked(RaceRecord)] + [CreateReplied(Ok("img"))];
    // the run that ends right after the create reply
    assert Run(Step, s2.next, [CreateReplied(Ok("img"))]).next == s3.next;
    assert Run(Step, s1.next, [EditClicked(RaceRecord), CreateReplied(Ok("img"))]).next == s3.next;
    // the save that follows
    assert Run(Step, s4.next, tail4).sent == [put];
    assert Run(Step, s3.next, tail3).sent == [put];
    assert Run(Step, s2.next, tail2).sent == s3.sent + [put];
    assert put in Run(Step, s1.next, tail1).sent;
    // every event is let through when it happens
    assert Admissible(Step, s4.next, p3, tail4);
    assert Admissible(Step, s3.next, p3, tail3);
    assert Admissible(Step, s2.next, p1, tail2);
    assert Admissible(Step, s1.next, p1, tail1);
  }

  /** `generateQrCode`'s continuation as it was evidently meant: the draft is
      reset for the next create only while no record is being edited. */
  function FinishGenerateGuarded(v: View, reply: Reply<string>): (t: Transition)
    ensures TypeLocked(v) ==> TypeLocked(t.next)
    ensures v.editingQr.None? ==> t == FinishGenerate(v, reply)
    ensures v.editingQr.Some? ==> t.next.formData == v.formData && t.next.editingQr == v.editingQr
    ensures t.sent == FinishGenerate(v, reply).sent
    ensures t.next.(formData := v.formData) == FinishGenerate(v, reply).next.(formData := v.formData)
  {
    var t := FinishGenerate(v, reply);
    if v.editingQr.None? then t else Transition(t.next.(formData := v.formData), t.sent)
  }

  /** `Step` with the guarded create continuation. */
  function StepGuarded(v: View, e: Event): Transition
  {
    match e
    case CreateReplied(reply) => FinishGenerateGuarded(v, reply)
    case _ => Step(v, e)
  }

  /** With the guarded continuation the type lock holds over every run. */
  lemma {:induction false} RunGuardedKeepsTypeLocked(v: View, p: Pending, events: seq<Event>)
    requires TypeLocked(v) && Admissible(StepGuarded, v, p, events)
    ensures TypeLocked(Run(StepGuarded, v, events).next)
    decreases |events|
  {
    if events != [] {
      var first := StepGuarded(v, events[0]);
      if !events[0].CreateReplied? {
        StepKeepsTypeLocked(v, p, events[0]);
      }
      RunGuardedKeepsTypeLocked(first.next, Issue(Answer(p, events[0]), first.sent), events[1..]);
    }
  }

  /** The run from the race above, with the guarded continuation, keeps the
      draft of the open edit. */
  lemma GuardedRaceKeepsTypeLock()
    ensures !TypeLocked(Run(Step, RaceStart, RaceEvents).next)
    ensures TypeLocked(Run(StepGuarded, RaceStart, RaceEvents).next)
  {
    CreateReplyBreaksTypeLock();
    var s1 := StepGuarded(RaceStart, Submitted);
    var p1 := Issue(Answer(NothingPending, Submitted), s1.sent);
    assert RaceStart.editingQr.None?;
    assert s1.sent == [CreateQrCode(BodyOf(RaceStart.formData))];
    assert Answer(NothingPending, Submitted) == NothingPending;
    assert s1.sent[1..] == [];
    assert Issue(NothingPending, s1.sent) == Issue(Add(NothingPending, s1.sent[0]), []);
    assert p1 == NothingPending.(creates := 1);
    var s2 := StepGuarded(s1.next, EditClicked(RaceRecord));
    assert RaceEvents == [Submitted] + ([EditClicked(RaceRecord)] + [CreateReplied(Ok("img"))]);
    assert Admissible(StepGuarded, s2.next, p1, [CreateReplied(Ok("img"))]);
    assert Admissible(StepGuarded, s1.next, p1, [EditClicked(RaceRecord)] + [CreateReplied(Ok("img"))]);
    RunGuardedKeepsTypeLocked(RaceStart, NothingPending, RaceEvents);
  }

  /** The collection shown is the last list the server sent, or the one
      before the run when no list arrived: no handler edits it locally. */
  lemma {:induction false} RunListIsLastListed(v: View, events: seq<Event>)
    ensures Run(Step, v, events).next.qrCodes == (match LastListed(events) case Some(list) => list case None => v.qrCodes)
    decreases |events|
  {
    if events != [] {
      RunListIsLastListed(Step(v, events[0]).next, events[1..]);
    }
  }

  /** Only Edit, Cancel and a successful update reply move the form in or out
      of an edit session; deletes and refreshes never do. */
  lemma {:induction false} RunKeepsEditSession(v: View, events: seq<Event>)
    requires forall i :: 0 <= i < |events| ==>
               !events[i].EditClicked? && !events[i].CancelClicked? && !(events[i].UpdateReplied? && events[i].succeeded)
    ensures Run(Step, v, events).next.editingQr == v.editingQr
    decreases |events|
  {
    if events != [] {
      assert !events[0].EditClicked? && !events[0].CancelClicked? && !(events[0].UpdateReplied? && events[0].succeeded);
      RunKeepsEditSession(Step(v, events[0]).next, events[1..]);
    }
  }

  /** A delete request goes out only for an id whose deletion the user
      confirmed. */
  lemma {:induction false} DeleteNeedsConfirmation(v: View, events: seq<Event>, id: string)
    requires DeleteQrCode(id) in Run(Step, v, events).sent
    ensures exists i :: 0 <= i < |events| && events[i].DeleteClicked? && events[i].id == id && events[i].confirmed
    decreases |events|
  {
    var first := Step(v, events[0]);
    var rest := Run(Step, first.next, events[1..]);
    if DeleteQrCode(id) in first.sent {
      StepDeleteNeedsConfirmation(v, events[0], id);
    } else {
      assert DeleteQrCode(id) in rest.sent;
      DeleteNeedsConfirmation(first.next, events[1..], id);
      var i :| 0 <= i < |events[1..]| && events[1..][i].DeleteClicked? && events[1..][i].id == id && events[1..][i].confirmed;
      assert events[i + 1] == events[1..][i];
    }
  }

  // ---------------------------------------------------------------------
  // Scenarios

  lemma ScenarioCreate()
    ensures var v := Initial.(loading := false, formData := FormData("url", "https://example.com", "#112233"));
            var posted := Submit(v);
            var done := FinishGenerate(posted.next, Ok("data:image/png;base64,AAAA"));
            && posted.sent == [CreateQrCode(Body("url", "https://example.com", Customization(Some("#112233"))))]
            && done.sent == [ListQrCodes]
            && done.next.formData == DefaultForm
            && done.next.qrCodeDataUrl == "data:image/png;base64,AAAA"
            && done.next.editingQr.None?
  {
  }

  lemma ScenarioEdit(v: View)
    ensures var qr := QrCode("r1", "text", "hi", Customization(Some("#abcdef")));
            var r := StartEdit(v, qr);
            r.formData == FormData("text", "hi", "#abcdef") && r.editingQr == Some(qr)
  {
  }

  lemma ScenarioDeleteDenied(v: View, id: string)
    ensures DeleteQr(v, id, false) == Transition(v, [])
  {
  }

  lemma ScenarioListFails(v: View, message: Option<string>)
    ensures var r := FinishFetch(v, Err(message));
            r.qrCodes == v.qrCodes && r.error == FetchFailed && !r.loading
  {
  }
}
