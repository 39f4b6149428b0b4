/** The dashboard component: its six state cells as fields and one method per
    handler, each updating the cells step by step as the handler does. Every
    method's new state and sent requests are those of the matching transition
    in module Transitions, where their properties are proved. */
module Component {
  import opened QrModel
  import opened Transitions

  class Dashboard {
    var qrCodes: seq<QrCode>
    var loading: bool
    var error: string
    var editingQr: Option<QrCode>
    var formData: FormData
    var qrCodeDataUrl: string

    /** The state cells as one value. */
    function Cells(): View
      reads this
    {
      View(qrCodes, loading, error, editingQr, formData, qrCodeDataUrl)
    }

    /** The `useState` initial values. */
    constructor ()
      ensures Cells() == Initial
    {
      qrCodes := [];
      loading := true;
      error := "";
      editingQr := None;
      formData := DefaultForm;
      qrCodeDataUrl := "";
    }

    /** The mount effect: with a token present it starts the first fetch. */
    method Mount() returns (sent: seq<Request>)
      modifies this
      ensures Cells() == BeginFetch(old(Cells())).next
      ensures sent == BeginFetch(old(Cells())).sent
    {
      var get := FetchQrCodes();
      sent := [get];
    }

    /** `fetchQrCodes` up to its `await`. */
    method FetchQrCodes() returns (sent: Request)
      modifies this
      ensures Cells() == BeginFetch(old(Cells())).next
      ensures [sent] == BeginFetch(old(Cells())).sent
    {
      loading := true;
      sent := ListQrCodes;
    }

    /** `fetchQrCodes` after its `await`, when the list reply arrives. */
    method ReceiveQrCodes(reply: Reply<seq<QrCode>>)
      modifies this
      ensures Cells() == FinishFetch(old(Cells()), reply)
    {
      match reply {
        case Ok(list) =>
          qrCodes := list;
        case Err(_) =>
          error := FetchFailed;
      }
      loading := false;
    }

    method OnChange(name: Field, value: string)
      modifies this
      ensures Cells() == Transitions.OnChange(old(Cells()), name, value)
    {
      formData := WithField(formData, name, value);
    }

    method StartEdit(qr: QrCode)
      modifies this
      ensures Cells() == Transitions.StartEdit(old(Cells()), qr)
    {
      editingQr := Some(qr);
      formData := FormData(qr.qrType, qr.content, OrElse(qr.customization.color, DefaultColor));
      qrCodeDataUrl := "";
    }

    method CancelEdit()
      modifies this
      ensures Cells() == Transitions.CancelEdit(old(Cells()))
    {
      editingQr := None;
      formData := DefaultForm;
    }

    /** `saveEdit` up to its `await`. */
    method SaveEdit() returns (sent: seq<Request>)
      modifies this
      ensures Cells() == Transitions.SaveEdit(old(Cells())).next
      ensures sent == Transitions.SaveEdit(old(Cells())).sent
    {
      if editingQr.None? {
        error := UpdateFailed;
        sent := [];
        return;
      }
      sent := [UpdateQrCode(editingQr.value.id, BodyOf(formData))];
    }

    /** `saveEdit` after its `await`, when the update reply arrives. */
    method ReceiveUpdate(succeeded: bool) returns (sent: seq<Request>)
      modifies this
      ensures Cells() == FinishSave(old(Cells()), succeeded).next
      ensures sent == FinishSave(old(Cells()), succeeded).sent
    {
      if succeeded {
        CancelEdit();
        var get := FetchQrCodes();
        sent := [get];
      } else {
        error := UpdateFailed;
        sent := [];
      }
    }

    /** `deleteQr` up to its `await`, given the confirmation answer. */
    method DeleteQr(id: string, confirmed: bool) returns (sent: seq<Request>)
      ensures [] != sent <==> confirmed
      ensures sent == Transitions.DeleteQr(Cells(), id, confirmed).sent
    {
      if !confirmed {
        sent := [];
        return;
      }
      sent := [DeleteQrCode(id)];
    }

    /** `deleteQr` after its `await`, when the delete reply arrives. */
    method ReceiveDelete(succeeded: bool) returns (sent: seq<Request>)
      modifies this
      ensures Cells() == FinishDelete(old(Cells()), succeeded).next
      ensures sent == FinishDelete(old(Cells()), succeeded).sent
    {
      if succeeded {
        var get := FetchQrCodes();
        sent := [get];
      } else {
        error := DeleteFailed;
        sent := [];
      }
    }

    /** `generateQrCode` up to its `await`. */
    method GenerateQrCode() returns (sent: seq<Request>)
      modifies this
      ensures Cells() == Transitions.GenerateQrCode(old(Cells())).next
      ensures sent == Transitions.GenerateQrCode(old(Cells())).sent
    {
      error := "";
      qrCodeDataUrl := "";
      sent := [CreateQrCode(BodyOf(formData))];
    }

    /** `generateQrCode` after its `await`, when the create reply arrives. */
    method ReceiveCreate(reply: Reply<string>) returns (sent: seq<Request>)
      modifies this
      ensures Cells() == FinishGenerate(old(Cells()), reply).next
      ensures sent == FinishGenerate(old(Cells()), reply).sent
    {
      match reply {
        case Ok(url) =>
          qrCodeDataUrl := url;
          var get := FetchQrCodes();
          formData := DefaultForm;
          sent := [get];
        case Err(message) =>
          error := OrElse(message, GenerateFailed);
          sent := [];
      }
    }

    /** The form's `onSubmit`, chosen by whether a record is being edited. */
    method Submit() returns (sent: seq<Request>)
      modifies this
      ensures Cells() == Transitions.Submit(old(Cells())).next
      ensures sent == Transitions.Submit(old(Cells())).sent
    {
      if editingQr.Some? {
        sent := SaveEdit();
      } else {
        sent := GenerateQrCode();
      }
    }
  }
}
