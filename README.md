# Receipt list of the NFS-e data extractor front end

This project models, in Dafny, the state logic of a small React front end that
uploads service invoices (NFS-e receipts, as PDFs) to a processing backend and
shows the extracted records in an editable table. Everything the page shows is
one list of receipts held in a context (it starts empty). Two kinds of writer
rewrite that list:

- backend messages: `PROCESS` upserts one receipt by id, and `UPLOAD` upserts
  each receipt of a batch in order. A receipt whose id is already listed is
  replaced whole, in place; a new id is appended.
- the table's editable cells: a commit copies the list the cell last rendered
  and overwrites one named field of the receipt with the cell's row id.

There is no version counter and no conflict check anywhere, so the last write
wins. The model keeps that behaviour, and `Home.CommitDropsInterleavedInsert`
and `Home.ProcessAfterCommitDiscardsEdit` state its consequences. No version
counter or edit-conflict error exists in the code, and the model adds none.
Likewise a message of an unknown `kind` raises no error: the code's `switch`
has no default, and the list is left alone.

Modules, one per source file, plus the shared record:

- `receipts.dfy` (`Receipts`): the receipt record, its optional fields as a
  closed enumeration `Field`, field read/write, `findIndex`, and the context
  store `ReceiptsStore`.
- `uploader.dfy` (`Uploader`): the upsert, the `UPLOAD` fold, message
  dispatch as a method with a loop over the batch, the error guard of the
  second channel, and the PDF file filter with the uploader's own state.
- `editable_cell.dfy` (`EditableCells`): the CNPJ formatter, the single-field
  commit `SaveField`, and the cell's state machine as a class.
- `columns.dfy` (`Columns`): the status label lookup and the per-column rule
  of placeholder, plain cell or editable cell.
- `home.dfy` (`Home`): the test patch `handleTeste`, the table data
  selection, uploader visibility, and lemmas about interleaved writers.

`src/data/columns.tsx` holds its own copies of `formatCNPJ` (lines 16-35) and
of the cell with `handleSave` (lines 51-99). They are the same code as in
`src/components/editable-cell.tsx`, with two differences in the cell's
input. The `columns.tsx` cell commits on blur alone, without the Enter key,
and its input has no `autoFocus` (nor the styling class), so it opens
unfocused and blur can only happen once the user has focused it. The model
defines each once. `EditableCells.EditableCell` carries a `commitsOnEnter`
flag that selects between the two cells.

Naming choices:

- The receipt-number field is called `receiptNumber`, the column key
  (`src/data/columns.tsx:174`). The schema names it `number`.
- A field value is `Value = Str | Num`, the `string | number` union, because
  a commit writes the input's text even into money fields.
- Numbers are unbounded integers.

## Model

| member | source | states |
|---|---|---|
| `Receipts.Set` | src/components/editable-cell.tsx:51-54 | the spread copy keeps id, status and items, the named field becomes the given value, and every other field reads as before |
| `Receipts.FindIndex` | src/components/receipts-uploader.tsx:59-62 | the result is -1 exactly when no receipt has the id; otherwise it is the first index holding the id |
| `Receipts.ReceiptsStore.constructor` | src/contexts/useReceipts.tsx:12 | the shared receipt list starts empty |
| `Uploader.Upsert` | src/components/receipts-uploader.tsx:74-86 | if the id is present, the length stays the same, the first slot with that id becomes exactly the incoming receipt, and every other slot is unchanged. If the id is absent, the receipt is appended at the end. Ids keep their positions, and the incoming receipt is always in the result |
| `Uploader.UpsertIds` | src/components/receipts-uploader.tsx:74-86 | after one upsert the set of listed ids is the old set plus the incoming id, and no other |
| `Uploader.UpsertPreservesUnique` | src/components/receipts-uploader.tsx:74-86 | an upsert into a list without duplicate ids leaves a list without duplicate ids |
| `Uploader.UpsertIdempotent` | src/components/receipts-uploader.tsx:74-86 | applying the same incoming receipt twice gives the same list as applying it once |
| `Uploader.UploadFold` | src/components/receipts-uploader.tsx:56-71 | an upload never shortens the list, grows it by at most one receipt per batch record, and keeps the id at every existing position |
| `Uploader.UploadIds` | src/components/receipts-uploader.tsx:57-70 | after an upload, the ids listed are exactly the old ids plus the batch's ids |
| `Uploader.UploadPreservesUnique` | src/components/receipts-uploader.tsx:63-69 | if ids were unique before an upload, they are unique after it |
| `Uploader.UploadKeepsUntouched` | src/components/receipts-uploader.tsx:63-66 | a listed receipt whose id the batch does not mention stays exactly as it was, at the same index |
| `Uploader.UploadLastWins` | src/components/receipts-uploader.tsx:57-71 | the last record in a batch carrying a given id is the one the list holds afterwards, so a later duplicate overwrites an earlier one |
| `Uploader.UploadOfFreshAppends` | src/components/receipts-uploader.tsx:67-69 | a batch of distinct new ids is appended in batch order |
| `Uploader.AfterMessage` | src/components/receipts-uploader.tsx:54-89 | a kind other than UPLOAD or PROCESS leaves the list untouched. No message shortens the list. The id set grows by exactly the message's ids, and uniqueness of ids is preserved |
| `Uploader.HandleStateChange` | src/components/receipts-uploader.tsx:54-89 | the loop that applies one updater per batch record leaves the store holding exactly the specified result of the message |
| `Uploader.OnMessageV2` | src/components/receipts-uploader.tsx:117-132 | a message with a truthy `error` leaves the list unchanged; any other message is applied as its payload |
| `Uploader.PdfFilter` | src/components/receipts-uploader.tsx:44-45 | the result keeps exactly the files whose type is `application/pdf` and is no longer than the input |
| `Uploader.PdfFilterAppend` | src/components/receipts-uploader.tsx:44-45 | filtering distributes over concatenation, so the kept files stay in their original order |
| `Uploader.PdfFilterIdempotent` | src/components/receipts-uploader.tsx:44-45 | filtering twice is the same as filtering once |
| `Uploader.ReceiptsUploader.constructor` | src/components/receipts-uploader.tsx:27 | no files are kept at first (`null`) |
| `Uploader.ReceiptsUploader.HandleFileChange` | src/components/receipts-uploader.tsx:39-52 | a null file list changes nothing; otherwise the kept files become the PDFs of the pick |
| `Uploader.ReceiptsUploader.HandleUploadV3` | src/components/receipts-uploader.tsx:179-183 | with files kept, the table size becomes their number; with none, it is not set |
| `EditableCells.Digits` | src/components/editable-cell.tsx:14 | removing the non-digits leaves only ASCII digits and never lengthens the string |
| `EditableCells.GroupCnpjShape` | src/components/editable-cell.tsx:22-25 | grouping 14 digits gives `DD.DDD.DDD/DDDD-DD`, and removing its punctuation gives back the 14 digits |
| `EditableCells.ShapeIsGrouped` | src/data/columns.tsx:29-32 | every string in the `DD.DDD.DDD/DDDD-DD` layout is the grouping of its own 14 digits |
| `EditableCells.FormatCnpj` | src/components/editable-cell.tsx:9-28 | an empty input gives `00.000.000/0000-00`. Any other input succeeds exactly when 14 digits remain after cleaning, and fails with the 14-digit error otherwise. On success the output has the 18-character layout, and its digits are the input's digits |
| `EditableCells.FormatCnpjIdempotent` | src/data/columns.tsx:16-35 | reformatting a successful output yields that output again |
| `EditableCells.SaveField` | src/components/editable-cell.tsx:46-55 | the length and the id at every index stay the same. The first receipt with the id gets the named field set to the draft, with its status, items and other fields unchanged. Every other receipt is unchanged. With the id absent, the list is unchanged. Uniqueness of ids is preserved |
| `EditableCells.EditableCell.constructor` | src/components/editable-cell.tsx:42-44 | a cell starts not editing, with the draft equal to the cell's current value |
| `EditableCells.EditableCell.Click` | src/components/editable-cell.tsx:89 | a click on the shown value starts editing and keeps the draft |
| `EditableCells.EditableCell.Change` | src/components/editable-cell.tsx:82 | typing sets the draft to the input's text, as a string, and touches only the cell |
| `EditableCells.EditableCell.HandleSave` | src/components/editable-cell.tsx:46-57 | the store becomes the rendered list with the draft committed, and editing ends |
| `EditableCells.EditableCell.Blur` | src/data/columns.tsx:88 | losing focus commits through the save path and ends editing |
| `EditableCells.EditableCell.KeyDown` | src/components/editable-cell.tsx:59-64 | Enter commits through the same path as blur in the cell that listens for keys; any other key changes nothing and editing continues |
| `Columns.StatusEntryFor` | src/data/columns.tsx:37-42 | the label is `Processando` exactly for `processing`, `Pronto` exactly for `done`, and `Enviando` for everything else, including a missing status; each label comes with its icon |
| `Columns.RenderCell` | src/data/columns.tsx:126-333 | a field column shows a placeholder exactly when the value is falsy (absent, `''` or `0`). It shows an editable cell, of the field's own editor kind, exactly for a truthy value of an editable field, and the value as plain text for a truthy value of a display-only field. The status column shows the looked-up label |
| `Columns.EditorKinds` | src/data/columns.tsx:140-301 | a truthy supplier or customer opens a `cnpj` cell, the receipt number a `text` cell, the two amounts `currency` cells and the two dates `date` cells (lines 143, 165, 189, 209, 231, 279, 301) |
| `Columns.EditableColumnsAreExactly` | src/data/columns.tsx:126-310 | among the table's columns, the editable fields are exactly supplier, customer, receiptNumber, receiptValueInCents, issValueInCents, issueDate and accrualDate |
| `Columns.BlankRowShowsPlaceholders` | src/data/columns.tsx:131-150 | an empty placeholder row renders only a checkbox, skeletons and the `Enviando` status, and never an editable cell |
| `Home.HandleTeste` | src/pages/app/Home/home.tsx:9-28 | with the id present in the list captured at render, the store becomes that list with only the first such receipt's `issValueInCents` set to 12345, so receipts written since that render are dropped; with the id absent nothing is written and the store is unchanged |
| `Home.TableData` | src/pages/app/Home/home.tsx:40-43 | the table gets the receipts, in order, when there are any, and otherwise `tableSize` empty rows |
| `Home.NothingEditableBeforeFirstReceipt` | src/pages/app/Home/home.tsx:40-55 | while the list is empty, no placeholder row has an editable cell |
| `Home.PlaceholderRowPerPdf` | src/components/receipts-uploader.tsx:179-183 | sizing the table by the kept PDFs gives the empty list one blank row per kept PDF, at most one per picked file, none of them editable |
| `Home.FirstReceiptHidesUploader` | src/pages/app/Home/home.tsx:47-55 | after any PROCESS message, the list is non-empty, so the uploader is gone and the table shows receipts |
| `Home.CommitDropsInterleavedInsert` | src/components/editable-cell.tsx:46-55 | a receipt the backend added after the cell's last render is dropped again by the cell's commit, because there is no staleness check |
| `Home.ProcessAfterCommitDiscardsEdit` | src/components/receipts-uploader.tsx:74-86 | a PROCESS for a receipt that arrives after an edit of that receipt gives exactly the list the PROCESS alone would give, so the edit is lost |
| `Home.FreshUploadIntoEmpty` | src/components/receipts-uploader.tsx:56-71 | uploading distinct receipts into the empty list lists them in batch order |
| `Home.UploadThenProcessKeepsOrder` | src/components/receipts-uploader.tsx:54-89 | uploading A, B, C and then processing a new B gives A, the new B, C |

## Left out

- Transport is not modelled: WebSocket setup, JSON parsing of messages, FileReader byte reads, `Promise.all` and the multipart POST. A message enters the model once it is parsed into `{kind, data}`.
- `handleUpload`, the first channel, applies every payload whatever its `error` holds. That is plain `Uploader.HandleStateChange`, so it has no member of its own.
- The `alert` branch of `handleFileChange` is not modelled. An array is always truthy, so that branch can never run: a pick with no PDFs sets the kept files to the empty list.
- The display of currency (a float division and `pt-BR` locale formatting) and of dates (the `dayjs` library) is not modelled. The `text` display is the identity and has no member.
- Line-item editing is not modelled. `EditableItemCell` is imported by `src/components/data-table.tsx` but defined in no file of this model. The table wiring of that file is not part of this model either: sorting, filtering, pagination, selection and expansion.
- Schema validation with `zod` and the 50-row fixture in `src/data/receipts.ts` are not modelled. Only the field list is used.
- Icons and layout are not modelled. The status icon is kept only as a tag.
- `Columns.StatusEntryFor` does not model keys inherited from `Object.prototype`: for a status such as `toString`, the real lookup returns an inherited member and not the default.
- `EditableCells.SaveField` does not model the stray property that `existingReceipts[-1] = …` adds to the array when the id is absent. Only the elements are modelled, and they are unchanged.
- `EditableCells.EditableCell.HandleSave` takes the list the cell last rendered as a parameter. React's rendering, and so the moment that list was captured, is not modelled.
- Whether a browser also delivers a blur event when Enter closes the input is not modelled.
- `EditableCells.EditableCell.Blur` may happen at any time while the cell is editing: focus is not modelled, so the model does not capture that the `columns.tsx` input opens without `autoFocus` and only blurs after the user has focused it.
- `Home.HandleTeste` takes the list captured at the page's last render as a parameter, like the cell's save; React's rendering is not modelled.
- The model applies the per-record updaters of an upload at once. React queues them and runs them in order, which gives the same list.
- Numbers are unbounded integers. JavaScript's floating point, including `NaN`, is not modelled.
