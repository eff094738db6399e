/**
 * The home page: what data the table is given, when the uploader is shown, and
 * a hard-coded test patch of one receipt. It is also where the two writers of
 * the shared receipt list meet: backend messages through the uploader and user
 * edits through the table's cells. Neither checks whether the other wrote in
 * between, so whichever writes last wins.
 */
module Home {
  import opened Receipts
  import opened Uploader
  import opened EditableCells
  import opened Columns

  /** The value `handleTeste` writes. */
  const TestIssValueInCents: int := 12345

  /**
   * `handleTeste`: set the withheld-tax value of the receipt with this id in
   * the list captured at the page's last render, if that list has one; with
   * no such receipt nothing is written.
   */
  method HandleTeste(store: ReceiptsStore, rendered: seq<Receipt>, id: string)
    modifies store
    ensures id in Ids(rendered) ==>
              store.receipts == SaveField(rendered, id, IssValueInCents, Some(Num(TestIssValueInCents)))
    ensures id !in Ids(rendered) ==> store.receipts == old(store.receipts)
  {
    var indexToChange := FindIndex(rendered, id);
    if indexToChange != -1 {
      var currentReceipts := rendered;
      currentReceipts := currentReceipts[indexToChange :=
        Set(currentReceipts[indexToChange], IssValueInCents, Some(Num(TestIssValueInCents)))];
      store.receipts := currentReceipts;
    }
  }

  /** The table's data: the receipts once there are any, otherwise `tableSize` empty placeholder rows. */
  function TableData(receipts: seq<Receipt>, tableSize: nat): (rows: seq<TableRow>)
    ensures |receipts| > 0 ==> |rows| == |receipts| && forall i :: 0 <= i < |rows| ==> rows[i] == Loaded(receipts[i])
    ensures |receipts| == 0 ==> |rows| == tableSize && forall i :: 0 <= i < |rows| ==> rows[i] == Blank
  {
    if |receipts| > 0 then seq(|receipts|, i requires 0 <= i < |receipts| => Loaded(receipts[i]))
    else seq(tableSize, _ => Blank)
  }

  /** The uploader is on the page only while the list is empty. */
  predicate ShowsUploader(receipts: seq<Receipt>)
  {
    |receipts| == 0
  }

  /** While no receipt has arrived (the uploader is shown), no cell of the table is editable, whatever the table size. */
  lemma NothingEditableBeforeFirstReceipt(tableSize: nat, i: int, c: Column)
    requires 0 <= i < tableSize && c in TableColumns
    ensures !RenderCell(c, TableData([], tableSize)[i]).EditorView?
  {
    BlankRowShowsPlaceholders(c);
  }

  /**
   * The upload button sizes the placeholder table by the kept PDFs: the empty
   * list then shows one blank, non-editable row per kept PDF.
   */
  lemma PlaceholderRowPerPdf(files: seq<SelectedFile>, c: Column, i: int)
    requires c in TableColumns && 0 <= i < |PdfFilter(files)|
    ensures |TableData([], |PdfFilter(files)|)| == |PdfFilter(files)| <= |files|
    ensures TableData([], |PdfFilter(files)|)[i] == Blank
    ensures !RenderCell(c, TableData([], |PdfFilter(files)|)[i]).EditorView?
  {
    BlankRowShowsPlaceholders(c);
  }

  /** The first processed receipt takes the uploader off the page and replaces the placeholder rows. */
  lemma FirstReceiptHidesUploader(receipts: seq<Receipt>, d: Receipt, tableSize: nat)
    ensures !ShowsUploader(AfterMessage(receipts, Process(d)))
    ensures TableData(AfterMessage(receipts, Process(d)), tableSize)[0].Loaded?
  {
  }

  /**
   * A commit made from the list the cell last rendered discards a receipt the
   * backend added in between: the commit writes the rendered list back.
   */
  lemma CommitDropsInterleavedInsert(rendered: seq<Receipt>, d: Receipt, rowId: string, f: Field, v: Option<Value>)
    requires d.id !in Ids(rendered)
    ensures d in AfterMessage(rendered, Process(d))
    ensures d !in SaveField(rendered, rowId, f, v)
  {
  }

  /**
   * A backend update of a receipt arriving after a user's edit of it replaces
   * the receipt whole: the edit is lost as if it had never been made.
   */
  lemma {:induction false} ProcessAfterCommitDiscardsEdit(receipts: seq<Receipt>, d: Receipt, f: Field, v: Option<Value>)
    ensures Upsert(SaveField(receipts, d.id, f, v), d) == Upsert(receipts, d)
  {
    var saved := SaveField(receipts, d.id, f, v);
    if d.id in Ids(receipts) {
      var i := FindIndex(receipts, d.id);
      assert IsFirstWithId(saved, i, d.id);
      var left, right := Upsert(saved, d), Upsert(receipts, d);
      assert |left| == |right|;
      forall j | 0 <= j < |left| ensures left[j] == right[j] {
        if j != i {
          assert !IsFirstWithId(saved, j, d.id);
          assert !IsFirstWithId(receipts, j, d.id);
        }
      }
    }
  }

  /** An upload of distinct receipts into the empty list lists them in submission order. */
  lemma FreshUploadIntoEmpty(batch: seq<Receipt>)
    requires Unique(batch)
    ensures AfterMessage([], Upload(batch)) == batch
  {
    UploadOfFreshAppends([], batch);
    assert [] + batch == batch;
  }

  /**
   * Batch order survives updates: receipts A, B, C announced by an upload and
   * B then processed leave the list as A, the new B, C.
   */
  lemma UploadThenProcessKeepsOrder(a: Receipt, b: Receipt, c: Receipt, b': Receipt)
    requires a.id != b.id && b.id != c.id && a.id != c.id && b'.id == b.id
    ensures AfterMessage(AfterMessage([], Upload([a, b, c])), Process(b')) == [a, b', c]
  {
    var batch := [a, b, c];
    FreshUploadIntoEmpty(batch);
    assert IsFirstWithId(batch, 1, b'.id);
    var processed := Upsert(batch, b');
    assert processed[0] == a && processed[1] == b' && processed[2] == c;
  }
}
