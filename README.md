# QR code dashboard: a Dafny model

This project models the dashboard screen of a QR code client. On that screen a
logged-in user lists their QR code records, creates new ones (the server returns
an image URL for each new one), edits a record's content and color, and deletes
records. The component keeps six state cells:

- the fetched list `qrCodes`;
- the `loading` flag;
- one `error` message slot;
- `editingQr`, the record being edited, or none while creating;
- the draft `formData = {type, content, color}`;
- `qrCodeDataUrl`, the image URL of the last create.

Its handlers update these cells and send requests to the QR code service.

The model has three modules:

- `QrModel` (`qr_model.dfy`) holds the values: records, the draft, the request
  bodies, the requests and their replies. It also has the JavaScript
  `a || fallback` on strings (`OrElse`) and the one-field draft update that
  `onChange` does (`WithField`).
- `Transitions` (`transitions.dfy`) holds each handler as a pure function from
  the six cells to a `Transition`, which is the new cells plus the requests sent
  in order. It also models the user events the rendered page lets through
  (`Enabled`), runs of events (`Run`, `Admissible`), and the lemmas, about one
  handler or about whole runs.
- `Component` (`component.dfy`) is the component itself: class `Dashboard`,
  whose fields are the six cells, with one mutating method per handler. Each
  method assigns the fields step by step, as the handler calls its setters. Its
  postcondition says that the new cells and the requests sent are exactly those
  of the transition its "## Model" row names. `DeleteQr` changes no field, so
  its postcondition gives only the requests sent.

Network replies and the confirmation dialog are inputs. Every handler that
awaits a request is split at its `await`, as the code runs it:

- **The first half** is the handler itself (`SaveEdit`, `DeleteQr`,
  `GenerateQrCode`, `BeginFetch`). It makes its synchronous state changes and
  sends the request.
- **The second half** is the code after the `await` (`FinishSave`,
  `FinishDelete`, `FinishGenerate`, `FinishFetch`). It runs later, as an event
  of its own that carries the reply: success with data, or failure with the
  server's optional message.

Any other event may come between the two halves. A run tracks the requests of
each kind that are still in flight (`Pending`), and a reply event is let
through only while such a request is pending. `deleteQr` takes the dialog's
yes/no answer as a parameter. A refresh that a handler starts runs its first
half inline; its reply is the later `ListArrived` event.

Some behaviours of the code worth noting:

- After a delete, the code does not leave an edit session, not even one for
  the record just deleted (`DeleteKeepsEditSession`, `RunKeepsEditSession`).
- An empty content field gets no message of the code's own. Only the browser's
  `required` attribute blocks the submit, and the model states that as a
  condition of `Enabled`.
- A successful list fetch does not clear an earlier error.
- A successful save or delete does not clear an earlier error either. Only
  `generateQrCode` clears the error slot, before its request goes out.
- If `saveEdit` runs with no record being edited, reading `editingQr._id`
  throws inside the `try`, before any request. The catch branch then sets
  "Failed to update QR code" and no request goes out. The submit dispatch
  never does this, but `SaveEdit` models it.
- The create button does not raise `loading`, so the list's Edit buttons stay
  usable while a create is in flight. See "## Findings".

## Model

| member | source | states |
|---|---|---|
| `QrModel.OrElse` | src/components/Dashboard.js:44 | a missing or empty string falls back to the default; any other string is kept; the result never comes from anywhere else |
| `QrModel.WithField` | src/components/Dashboard.js:35-37 | the named draft field takes the new value and the other two fields keep theirs |
| `QrModel.BodyOf` | src/components/Dashboard.js:60-64 | the create and update body `{type, content, customization: {color}}` carries the whole draft: reading the draft back from it gives the draft it was made from |
| `QrModel.DraftOf` | src/components/Dashboard.js:95-99 | the other direction: a body with a color is exactly the body of the draft read back from it |
| `Transitions.BeginFetch` | src/components/Dashboard.js:21-26 | starting a fetch sets `loading`, sends the list request and changes nothing else |
| `Transitions.FinishFetch` | src/components/Dashboard.js:27-32 | on success the list is replaced wholesale and the error is kept; on failure the list is kept and the error is "Failed to fetch QR codes"; `loading` ends false either way; nothing else changes |
| `Transitions.OnChange` | src/components/Dashboard.js:35-37 | exactly the named draft field changes; no other cell changes |
| `Transitions.SeedForm` | src/components/Dashboard.js:41-45 | the draft of an edit has the record's type and content, and the record's color when that is present and non-empty, else "#000000"; the color is never empty |
| `Transitions.StartEdit` | src/components/Dashboard.js:39-47 | the record becomes the edited one; the draft takes its type and content; the color is the record's, or "#000000" when that is missing or empty; the image URL is cleared; list, error and loading are untouched |
| `Transitions.CancelEdit` | src/components/Dashboard.js:49-52 | nothing is being edited, the draft is exactly `{url, "", #000000}`, and no other cell changes |
| `Transitions.SaveEdit` | src/components/Dashboard.js:55-66 | while editing, sends one update for the edited record's id with the draft as body and changes no cell; with no edited record, sends nothing and sets "Failed to update QR code" |
| `Transitions.FinishSave` | src/components/Dashboard.js:67-71 | on success, Cancel's state change followed by a refresh; on failure the error is "Failed to update QR code" and the edit and the draft are kept |
| `Transitions.DeleteQr` | src/components/Dashboard.js:75-80 | no cell changes; a request goes out exactly when the dialog is confirmed, and then it is the delete of that id |
| `Transitions.FinishDelete` | src/components/Dashboard.js:81-84 | on success only a refresh; on failure the error is "Failed to delete QR code"; the list, the edited record and the draft are never touched |
| `Transitions.GenerateQrCode` | src/components/Dashboard.js:88-103 | clears the error and the image URL, changes nothing else, and posts the draft |
| `Transitions.FinishGenerate` | src/components/Dashboard.js:104-109 | on success the image URL is the server's, the draft is reset, a refresh starts and nothing else changes; on failure the error is the server message or else "Error generating QR code" and only the error changes; list and edit state are untouched either way |
| `Transitions.Submit` | src/components/Dashboard.js:155 | a submit sends exactly one request: an update for the edited record when one is being edited, a create when none is; the body is the draft; an edit's save changes no cell before its reply, and a create only clears the error and the image URL |
| `Transitions.Step` | src/components/Dashboard.js:135-198 | over every handler and continuation, the list changes only by a successful list reply, whose list it becomes; the edited record changes only by Edit, Cancel or a successful update reply |
| `Transitions.Enabled` | src/components/Dashboard.js:139-142 | with the guards of lines 163, 177 and 191-197, exactly the events the page lets through, each both required and sufficient: no type change while editing, Edit and Delete on listed records once loading is over, Cancel only while editing, no submit with empty content, a reply only while a request of its own kind is pending |
| `Transitions.StepKeepsTypeLocked` | src/components/Dashboard.js:158-163 | every admissible event keeps "the draft's type is the edited record's type", except a successful create reply that arrives during an edit |
| `Transitions.EditThenCancel` | src/components/Dashboard.js:39-52 | Edit then Cancel keeps the list, the loading flag and the error; it ends with no edited record, the default draft and no image |
| `Transitions.SaveAwaited` | src/components/Dashboard.js:55-72 | with nothing between request and reply, a save sends the update and then ends as Cancel plus a refresh, or sets the error and keeps the edit and the draft |
| `Transitions.GenerateAwaited` | src/components/Dashboard.js:88-110 | with nothing between request and reply, a create shows the URL, clears the error, resets the draft and refreshes, or keeps the draft, clears the URL and shows the server's message or the fallback |
| `Transitions.DeleteAwaited` | src/components/Dashboard.js:75-85 | with nothing between request and reply, a confirmed delete sends the delete, then changes only `loading` on success and only the error on failure |
| `Transitions.SaveSendsEditedType` | src/components/Dashboard.js:58-64 | while the type is locked, the update body's type is the edited record's type |
| `Transitions.UntouchedSaveWritesBack` | src/components/Dashboard.js:39-66 | saving an untouched edit writes back the record unchanged if and only if the record has a non-empty color |
| `Transitions.DraftRoundTrip` | src/components/Dashboard.js:41-45 | a draft that is stored and then opened for editing comes back unchanged if and only if its color is non-empty |
| `Transitions.DeleteKeepsEditSession` | src/components/Dashboard.js:75-85 | deleting the record being edited leaves it in the form: a denied dialog changes nothing, and a confirmed delete keeps it whatever the server replies |
| `Transitions.RefreshIdempotent` | src/components/Dashboard.js:21-33 | two successful fetches of the same list leave the state that one leaves, and so do two list replies to fetches already in flight |
| `Transitions.StepDeleteNeedsConfirmation` | src/components/Dashboard.js:75-81 | a single event sends a delete for an id only if it is a confirmed delete of that id |
| `Transitions.RunKeepsTypeLocked` | src/components/Dashboard.js:158-163 | over every admissible run in which no successful create reply arrives while a record is being edited, the draft's type stays the edited record's type |
| `Transitions.CreateReplyBreaksTypeLock` | src/components/Dashboard.js:104-106 | an admissible run breaks the type lock: a create is posted, Edit is clicked on a "text" record before the reply, and the reply resets the draft to type "url" under the open edit; the save that follows sends that record's update with type "url" |
| `Transitions.FinishGenerateGuarded` | src/components/Dashboard.js:104-109 | the create continuation with the draft reset only while nothing is being edited: it keeps the type lock, it is the code's continuation whenever nothing is being edited, and otherwise it differs from it only in keeping the draft: the same URL, loading flag, list, error and refresh request |
| `Transitions.RunGuardedKeepsTypeLocked` | src/components/Dashboard.js:158-163 | with the guarded create continuation, every admissible run keeps the type lock for the whole edit session |
| `Transitions.GuardedRaceKeepsTypeLock` | src/components/Dashboard.js:104-106 | the race run breaks the lock with the code's continuation and keeps it with the guarded one |
| `Transitions.RunListIsLastListed` | src/components/Dashboard.js:27-29 | after any run, the list shown is the last list the server sent, or the earlier list if none came; no handler edits the list locally |
| `Transitions.RunKeepsEditSession` | src/components/Dashboard.js:39-85 | a run with no Edit, no Cancel and no successful update reply never enters or leaves an edit session; deletes and refreshes in particular do not |
| `Transitions.DeleteNeedsConfirmation` | src/components/Dashboard.js:75-81 | in any run, a delete request for an id goes out only if the run has a confirmed delete of that id |
| `Transitions.ScenarioCreate` | src/components/Dashboard.js:88-106 | creating `{url, https://example.com, #112233}` posts exactly those fields; its reply lists, shows the returned URL and resets the draft |
| `Transitions.ScenarioEdit` | src/components/Dashboard.js:39-47 | editing `{r1, text, hi, #abcdef}` gives the draft `{text, hi, #abcdef}` and edits `r1` |
| `Transitions.ScenarioDeleteDenied` | src/components/Dashboard.js:76 | a denied delete sends nothing and changes nothing |
| `Transitions.ScenarioListFails` | src/components/Dashboard.js:28-31 | a failed fetch keeps the earlier list, sets the fetch error and ends loading |
| `Component.Dashboard.constructor` | src/components/Dashboard.js:5-10 | the cells start as the `useState` initial values: an empty list, loading, no error, nothing edited, the default draft, no image |
| `Component.Dashboard.Mount` | src/components/Dashboard.js:13-19 | the mount effect starts the first fetch |
| `Component.Dashboard.FetchQrCodes` | src/components/Dashboard.js:21-26 | the new cells and the request sent are those of `BeginFetch` |
| `Component.Dashboard.ReceiveQrCodes` | src/components/Dashboard.js:27-32 | the new cells are those of `FinishFetch` |
| `Component.Dashboard.OnChange` | src/components/Dashboard.js:35-37 | the new cells are those of `Transitions.OnChange` |
| `Component.Dashboard.StartEdit` | src/components/Dashboard.js:39-47 | the new cells are those of `Transitions.StartEdit` |
| `Component.Dashboard.CancelEdit` | src/components/Dashboard.js:49-52 | the new cells are those of `Transitions.CancelEdit` |
| `Component.Dashboard.SaveEdit` | src/components/Dashboard.js:55-66 | the new cells and the requests sent are those of `Transitions.SaveEdit` |
| `Component.Dashboard.ReceiveUpdate` | src/components/Dashboard.js:67-71 | the new cells and the requests sent are those of `FinishSave` |
| `Component.Dashboard.DeleteQr` | src/components/Dashboard.js:75-80 | changes no cell; sends a request exactly when confirmed, namely that of `Transitions.DeleteQr` |
| `Component.Dashboard.ReceiveDelete` | src/components/Dashboard.js:81-84 | the new cells and the requests sent are those of `FinishDelete` |
| `Component.Dashboard.GenerateQrCode` | src/components/Dashboard.js:88-103 | the new cells and the requests sent are those of `Transitions.GenerateQrCode` |
| `Component.Dashboard.ReceiveCreate` | src/components/Dashboard.js:104-109 | the new cells and the requests sent are those of `FinishGenerate` |
| `Component.Dashboard.Submit` | src/components/Dashboard.js:155 | the new cells and the requests sent are those of `Transitions.Submit` |

## Findings

| source | as written | input that shows it | evidently intended | confidence | as-written member | corrected member |
|---|---|---|---|---|---|---|
| src/components/Dashboard.js:104-106 | after a successful create, the draft is reset to `{url, "", #000000}` even if an edit began while the create was in flight; the edit keeps its record, so the disabled type select shows "url" and the next save sends the record with type "url" | the list holds a record of type "text"; the user submits a create, then clicks Edit on that record before the create's reply, and the reply succeeds | the reset is for the create form and leaves an edit that began meanwhile alone, so the type stays read-only for the whole edit | medium; not executed | `Transitions.CreateReplyBreaksTypeLock` | `Transitions.FinishGenerateGuarded` |

The class `Component.Dashboard` and `Transitions.Step` follow the code as
written. The corrected continuation is used by `Transitions.StepGuarded`, and
over it the type lock is proved for every admissible run
(`Transitions.RunGuardedKeepsTypeLocked`).

## Left out

- Rendering (src/components/Dashboard.js:117-209) is left out: the page is a reading of the state. The model keeps only what the page allows, in `Enabled`:
  - the type select is disabled while editing;
  - the Edit and Delete buttons exist only for listed records, and only once loading is over;
  - Cancel is shown only while editing;
  - `required` is set on the content field.
- HTTP details are left out: URLs, the bearer header and axios. A request is a `Request` value, and its outcome is an input.
- The token is not modelled. Reading it from `localStorage`, the redirect after a missing token, and `logout` are browser I/O. Every operation assumes that a token is present, so `Mount` always fetches.
- `window.confirm` is a foreign call. It is the `confirmed` parameter of `DeleteQr`.
- The browser's checks on the color control are left out. The color is any string.
- Records without a `customization` sub-record are not modelled: every record is taken to carry one. On such a record, line 44 would throw after line 40 has already set `editingQr`, and the edit would begin with the old draft.
- A reply is matched only to the kind of request it answers, not to one particular request. The continuations read no state of the request that caused them, so the kind is all they need.
- The data of the update and delete replies is not modelled, because the code reads only whether they succeeded.
- Responses that arrive after the component unmounts are left out, because unmounting is not modelled.
- src/components/Login.js and src/components/Register.js are not part of this model. Each only posts credentials, stores the returned token and navigates.
