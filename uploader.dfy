/**
 * The receipts uploader: how messages from the processing backend rewrite the
 * receipt list, and which of the picked files it keeps.
 *
 * A `PROCESS` message upserts one receipt by identity: a receipt whose id is
 * already listed is replaced whole, in place; otherwise it is appended. An
 * `UPLOAD` message applies that upsert to each receipt of its batch in order.
 */
module Uploader {
  import opened Receipts

  /** A `kind` the message switch has no case for. */
  type OtherKindName = k: string | k != "UPLOAD" && k != "PROCESS" witness ""

  /** A parsed `{ kind, data }` message. A kind other than the two handled ones falls through the switch. */
  datatype Message =
    | Upload(records: seq<Receipt>)
    | Process(record: Receipt)
    | OtherKind(kind: OtherKindName)

  /** The updater `previousReceipts => ...` that one incoming receipt applies to the list. */
  function Upsert(previous: seq<Receipt>, d: Receipt): (next: seq<Receipt>)
    ensures |previous| <= |next| <= |previous| + 1
    ensures d.id in Ids(previous) ==> |next| == |previous|
    ensures forall i :: IsFirstWithId(previous, i, d.id) ==> next[i] == d
    ensures forall j :: 0 <= j < |previous| && !IsFirstWithId(previous, j, d.id) ==> next[j] == previous[j]
    ensures d.id !in Ids(previous) ==> next == previous + [d]
    ensures forall j :: 0 <= j < |previous| ==> next[j].id == previous[j].id
    ensures d in next
  {
    var i := FindIndex(previous, d.id);
    if i != -1 then previous[i := d]
    else
      var next := previous + [d];
      assert next[|previous|] == d;
      next
  }

  /** An upsert adds the incoming identity to the listed ones and no other. */
  lemma UpsertIds(previous: seq<Receipt>, d: Receipt)
    ensures Ids(Upsert(previous, d)) == Ids(previous) + {d.id}
  {
    var next := Upsert(previous, d);
    forall x | x in Ids(next) ensures x in Ids(previous) + {d.id} {
      var j :| 0 <= j < |next| && next[j].id == x;
      if j < |previous| { assert previous[j].id == x; }
    }
    forall x | x in Ids(previous) + {d.id} ensures x in Ids(next) {
      if x in Ids(previous) {
        var j :| 0 <= j < |previous| && previous[j].id == x;
        assert next[j].id == x;
      } else {
        var j :| 0 <= j < |next| && next[j] == d;
        assert next[j].id == x;
      }
    }
  }

  /** An upsert never makes two listed receipts share an identity. */
  lemma UpsertPreservesUnique(previous: seq<Receipt>, d: Receipt)
    requires Unique(previous)
    ensures Unique(Upsert(previous, d))
  {
    var next := Upsert(previous, d);
    if d.id !in Ids(previous) {
      forall j | 0 <= j < |previous| ensures previous[j].id != d.id {
        assert previous[j].id in Ids(previous);
      }
    }
  }

  /** Applying the same incoming receipt twice in a row gives the list the first application gave. */
  lemma UpsertIdempotent(previous: seq<Receipt>, d: Receipt)
    ensures Upsert(Upsert(previous, d), d) == Upsert(previous, d)
  {
    var once := Upsert(previous, d);
    var i := FindIndex(previous, d.id);
    if i != -1 {
      assert IsFirstWithId(once, i, d.id);
    } else {
      assert IsFirstWithId(once, |previous|, d.id);
    }
    assert Upsert(once, d) == once;
  }

  /** The `data.forEach` of an `UPLOAD` message: the batch's upserts, first record first. */
  function UploadFold(previous: seq<Receipt>, data: seq<Receipt>): (next: seq<Receipt>)
    decreases |data|
    ensures |previous| <= |next| <= |previous| + |data|
    ensures forall j :: 0 <= j < |previous| ==> next[j].id == previous[j].id
  {
    if data == [] then previous
    else Upsert(UploadFold(previous, data[..|data| - 1]), data[|data| - 1])
  }

  lemma IdsOfSnoc(data: seq<Receipt>)
    requires data != []
    ensures Ids(data) == Ids(data[..|data| - 1]) + {data[|data| - 1].id}
  {
    var front := data[..|data| - 1];
    forall x | x in Ids(data) ensures x in Ids(front) + {data[|data| - 1].id} {
      var j :| 0 <= j < |data| && data[j].id == x;
      if j < |data| - 1 { assert front[j].id == x; }
    }
    forall x | x in Ids(front) ensures x in Ids(data) {
      var j :| 0 <= j < |front| && front[j].id == x;
      assert data[j].id == x;
    }
  }

  /** After an upload the list holds exactly the identities it held plus those of the batch. */
  lemma {:induction false} UploadIds(previous: seq<Receipt>, data: seq<Receipt>)
    ensures Ids(UploadFold(previous, data)) == Ids(previous) + Ids(data)
    decreases |data|
  {
    if data != [] {
      UploadIds(previous, data[..|data| - 1]);
      UpsertIds(UploadFold(previous, data[..|data| - 1]), data[|data| - 1]);
      IdsOfSnoc(data);
    }
  }

  /** An upload never introduces a second receipt with an identity already listed. */
  lemma {:induction false} UploadPreservesUnique(previous: seq<Receipt>, data: seq<Receipt>)
    requires Unique(previous)
    ensures Unique(UploadFold(previous, data))
    decreases |data|
  {
    if data != [] {
      UploadPreservesUnique(previous, data[..|data| - 1]);
      UpsertPreservesUnique(UploadFold(previous, data[..|data| - 1]), data[|data| - 1]);
    }
  }

  /** A listed receipt whose identity the batch does not mention stays exactly as it was, where it was. */
  lemma {:induction false} UploadKeepsUntouched(previous: seq<Receipt>, data: seq<Receipt>, j: int)
    requires 0 <= j < |previous| && previous[j].id !in Ids(data)
    ensures UploadFold(previous, data)[j] == previous[j]
    decreases |data|
  {
    if data != [] {
      var front := data[..|data| - 1];
      IdsOfSnoc(data);
      UploadKeepsUntouched(previous, front, j);
    }
  }

  /** An upsert for another identity keeps every listed receipt. */
  lemma UpsertKeepsOthers(previous: seq<Receipt>, d: Receipt, x: Receipt)
    requires x in previous && x.id != d.id
    ensures x in Upsert(previous, d)
  {
    var m :| 0 <= m < |previous| && previous[m] == x;
    assert !IsFirstWithId(previous, m, d.id);
    assert Upsert(previous, d)[m] == x;
  }

  /** Within one batch the last record carrying an identity is the one the list ends up holding. */
  lemma {:induction false} UploadLastWins(previous: seq<Receipt>, data: seq<Receipt>, k: int)
    requires 0 <= k < |data|
    requires forall m :: k < m < |data| ==> data[m].id != data[k].id
    ensures data[k] in UploadFold(previous, data)
    decreases |data|
  {
    var n := |data| - 1;
    var front, last := data[..n], data[n];
    var mid := UploadFold(previous, front);
    assert UploadFold(previous, data) == Upsert(mid, last);
    if k < n {
      LastInFront(data, k);
      UploadLastWins(previous, front, k);
      UpsertKeepsOthers(mid, last, data[k]);
      assert data[k] in Upsert(mid, last);
    } else {
      assert last in Upsert(mid, last);
    }
  }

  lemma LastInFront(data: seq<Receipt>, k: int)
    requires 0 <= k < |data| - 1
    requires forall m :: k < m < |data| ==> data[m].id != data[k].id
    ensures var front := data[..|data| - 1];
      front[k] == data[k] && data[|data| - 1].id != data[k].id &&
      forall m :: k < m < |front| ==> front[m].id != front[k].id
  {
  }

  /** What the induction of `UploadOfFreshAppends` needs of the batch without its last record. */
  lemma FreshFront(previous: seq<Receipt>, data: seq<Receipt>)
    requires data != [] && Unique(data) && Ids(previous) !! Ids(data)
    ensures Unique(data[..|data| - 1]) && Ids(previous) !! Ids(data[..|data| - 1])
    ensures data[|data| - 1].id !in Ids(previous) + Ids(data[..|data| - 1])
  {
    var n := |data| - 1;
    var front := data[..n];
    IdsOfSnoc(data);
    forall j | 0 <= j < |front| ensures front[j].id != data[n].id {
      assert front[j] == data[j];
    }
  }

  /** A batch of new, distinct receipts is appended in submission order. */
  lemma {:induction false} UploadOfFreshAppends(previous: seq<Receipt>, data: seq<Receipt>)
    requires Unique(data)
    requires Ids(previous) !! Ids(data)
    ensures UploadFold(previous, data) == previous + data
    decreases |data|
  {
    if data != [] {
      var n := |data| - 1;
      var front, last := data[..n], data[n];
      FreshFront(previous, data);
      UploadOfFreshAppends(previous, front);
      UploadIds(previous, front);
      var mid := previous + front;
      assert last.id !in Ids(mid);
      assert mid + [last] == previous + data;
    }
  }

  /** `handleStateChange`: the list after one message. */
  function AfterMessage(previous: seq<Receipt>, msg: Message): (next: seq<Receipt>)
    ensures msg.OtherKind? ==> next == previous
    ensures |previous| <= |next|
    ensures Ids(next) == Ids(previous) + (match msg
                                          case Upload(data) => Ids(data)
                                          case Process(d) => {d.id}
                                          case OtherKind(_) => {})
    ensures Unique(previous) ==> Unique(next)
  {
    match msg
    case Upload(data) =>
      UploadIds(previous, data);
      if Unique(previous) then UploadPreservesUnique(previous, data); UploadFold(previous, data)
      else UploadFold(previous, data)
    case Process(d) =>
      UpsertIds(previous, d);
      if Unique(previous) then UpsertPreservesUnique(previous, d); Upsert(previous, d)
      else Upsert(previous, d)
    case OtherKind(_) => previous
  }

  /** `handleStateChange` as the source runs it: one state update per record of the batch. */
  method HandleStateChange(store: ReceiptsStore, msg: Message)
    modifies store
    ensures store.receipts == AfterMessage(old(store.receipts), msg)
  {
    match msg {
      case Upload(data) =>
        var k := 0;
        while k < |data|
          invariant 0 <= k <= |data|
          invariant store.receipts == UploadFold(old(store.receipts), data[..k])
        {
          assert data[..k + 1][..k] == data[..k];
          assert UploadFold(old(store.receipts), data[..k + 1])
              == Upsert(UploadFold(old(store.receipts), data[..k]), data[k]);
          store.receipts := Upsert(store.receipts, data[k]);
          k := k + 1;
        }
        assert data[..k] == data;
      case Process(d) =>
        store.receipts := Upsert(store.receipts, d);
      case OtherKind(_) =>
    }
  }

  /** The second channel's `onmessage`: a truthy `error` is only logged; otherwise the payload is applied. */
  method OnMessageV2(store: ReceiptsStore, error: Option<Value>, payload: Message)
    modifies store
    ensures store.receipts == if Truthy(error) then old(store.receipts) else AfterMessage(old(store.receipts), payload)
  {
    if !Truthy(error) {
      HandleStateChange(store, payload);
    }
  }

  /** A file picked in the file input. */
  datatype SelectedFile = SelectedFile(name: string, mimeType: string)

  const PdfMimeType: string := "application/pdf"

  /** `Array.from(files).filter(file => file.type === 'application/pdf')`. */
  function PdfFilter(files: seq<SelectedFile>): (pdfs: seq<SelectedFile>)
    ensures |pdfs| <= |files|
    ensures forall f :: f in pdfs <==> f in files && f.mimeType == PdfMimeType
  {
    if files == [] then []
    else (if files[0].mimeType == PdfMimeType then [files[0]] else []) + PdfFilter(files[1..])
  }

  /** The filter keeps the original order: it distributes over concatenation. */
  lemma {:induction false} PdfFilterAppend(a: seq<SelectedFile>, b: seq<SelectedFile>)
    ensures PdfFilter(a + b) == PdfFilter(a) + PdfFilter(b)
    decreases |a|
  {
    if a == [] {
      assert a + b == b;
    } else {
      assert (a + b)[0] == a[0];
      assert (a + b)[1..] == a[1..] + b;
      PdfFilterAppend(a[1..], b);
    }
  }

  /** Filtering a filtered list changes nothing. */
  lemma {:induction false} PdfFilterIdempotent(files: seq<SelectedFile>)
    ensures PdfFilter(PdfFilter(files)) == PdfFilter(files)
    decreases |files|
  {
    if files != [] {
      var head := if files[0].mimeType == PdfMimeType then [files[0]] else [];
      PdfFilterIdempotent(files[1..]);
      PdfFilterAppend(head, PdfFilter(files[1..]));
      assert PdfFilter(head) == head by {
        if head != [] { assert head[1..] == []; }
      }
    }
  }

  /** The uploader component's own state: the PDF files picked so far (`null` before any pick). */
  class ReceiptsUploader {
    var pdfFiles: Option<seq<SelectedFile>>

    constructor ()
      ensures pdfFiles == None
    {
      pdfFiles := None;
    }

    /** A pick replaces the kept files by the PDFs among the picked ones; no file list leaves them alone. */
    method HandleFileChange(selection: Option<seq<SelectedFile>>)
      modifies this
      ensures selection.None? ==> pdfFiles == old(pdfFiles)
      ensures selection.Some? ==> pdfFiles == Some(PdfFilter(selection.value))
    {
      if selection.None? {
        return;
      }
      var files := PdfFilter(selection.value);
      pdfFiles := Some(files);
    }

    /** The upload button: with files kept, the table is sized to show one placeholder row per file. */
    method HandleUploadV3() returns (tableSize: Option<nat>)
      ensures pdfFiles.None? ==> tableSize == None
      ensures pdfFiles.Some? ==> tableSize == Some(|pdfFiles.value|)
    {
      if pdfFiles.Some? {
        tableSize := Some(|pdfFiles.value|);
      } else {
        tableSize := None;
      }
    }
  }
}
