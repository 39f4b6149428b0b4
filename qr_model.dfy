/** Values the dashboard works with: stored QR code records, the create/edit
    draft, the requests sent to the QR code service and the replies it gives. */
module QrModel {

  datatype Option<+T> = None | Some(value: T)

  /** The `customization` sub-record of a stored QR code. Every record is
      taken to carry one; the service may leave its `color` out, or give the
      empty string. */
  datatype Customization = Customization(color: Option<string>)

  /** A QR code record as the list endpoint returns it (`_id`, `type`,
      `content`, `customization`). */
  datatype QrCode = QrCode(id: string, qrType: string, content: string, customization: Customization)

  /** The draft `{type, content, color}` behind the create/edit form. */
  datatype FormData = FormData(qrType: string, content: string, color: string)

  /** The `name` attributes of the three form controls. */
  datatype Field = TypeField | ContentField | ColorField

  const DefaultColor: string := "#000000"

  /** The draft the form starts with and returns to after cancel or create. */
  const DefaultForm: FormData := FormData("url", "", DefaultColor)

  /** JavaScript's `s || fallback` for a value that is a string or missing:
      a missing value and the empty string are falsy. */
  function OrElse(s: Option<string>, fallback: string): (r: string)
    ensures r == fallback || s == Some(r)
    ensures s.Some? && s.value != "" ==> r == s.value
    ensures r == "" ==> fallback == ""
  {
    match s
    case Some(v) => if v != "" then v else fallback
    case None => fallback
  }

  /** The draft field a control with the given name shows. */
  function Get(f: FormData, name: Field): string
  {
    match name
    case TypeField => f.qrType
    case ContentField => f.content
    case ColorField => f.color
  }

  /** `{ ...formData, [name]: value }`: the draft with one field overwritten. */
  function WithField(f: FormData, name: Field, value: string): (g: FormData)
    ensures Get(g, name) == value
    ensures forall other :: other != name ==> Get(g, other) == Get(f, other)
  {
    match name
    case TypeField => f.(qrType := value)
    case ContentField => f.(content := value)
    case ColorField => f.(color := value)
  }

  /** The JSON body of a create or update request:
      `{type, content, customization: {color}}`. */
  datatype Body = Body(qrType: string, content: string, customization: Customization)

  /** The body the form sends for a draft; it carries the whole draft. */
  function BodyOf(f: FormData): (b: Body)
    ensures b.customization.color.Some? && DraftOf(b) == f
  {
    Body(f.qrType, f.content, Customization(Some(f.color)))
  }

  /** The draft a body was made from, read back field by field. */
  function DraftOf(b: Body): (f: FormData)
    requires b.customization.color.Some?
    ensures Body(f.qrType, f.content, Customization(Some(f.color))) == b
  {
    FormData(b.qrType, b.content, b.customization.color.value)
  }

  /** The record the service holds after storing a body under an id. */
  function Stored(id: string, b: Body): QrCode
  {
    QrCode(id, b.qrType, b.content, b.customization)
  }

  /** A request the dashboard sends; URLs and the bearer header are left out. */
  datatype Request =
    | ListQrCodes
    | CreateQrCode(body: Body)
    | UpdateQrCode(id: string, body: Body)
    | DeleteQrCode(id: string)

  /** What a request came back with: the response data, or a failure with
      the server's optional `response.data.message`. */
  datatype Reply<+T> = Ok(data: T) | Err(message: Option<string>)
}
