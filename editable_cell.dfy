/**
 * The editable table cell: the CNPJ (Brazilian company tax id) formatter it
 * displays supplier and customer columns with, the commit of one edited field
 * into the shared receipt list, and the cell's own small state machine.
 *
 * There is no version counter and no conflict check: a commit writes the draft
 * into the list the cell saw at its last render, so the last write wins.
 */
module EditableCells {
  import opened Receipts

  /** The display kind a cell is given. */
  datatype CellType = Text | Cnpj | Currency | Date

  /** The exception thrown when the cleaned tax id does not have 14 digits. */
  datatype CnpjError = NotFourteenDigits

  /** What an empty tax id is shown as. */
  const DefaultCnpj: string := "00.000.000/0000-00"

  /** A character that `\d` matches (no `u` flag: ASCII digits only). */
  predicate IsDigit(c: char)
  {
    '0' <= c <= '9'
  }

  predicate AllDigits(s: string)
  {
    forall i :: 0 <= i < |s| ==> IsDigit(s[i])
  }

  /** `s.replace(/\D/g, '')`: the digits of `s`, in order. */
  function Digits(s: string): (d: string)
    ensures AllDigits(d)
    ensures |d| <= |s|
  {
    if s == [] then [] else Kept(s[0]) + Digits(s[1..])
  }

  /** What the cleaning keeps of one character. */
  function Kept(c: char): string
  {
    if IsDigit(c) then [c] else []
  }

  lemma {:induction false} DigitsAppend(a: string, b: string)
    ensures Digits(a + b) == Digits(a) + Digits(b)
    decreases |a|
  {
    if a == [] {
      assert a + b == b;
    } else {
      var ab := a + b;
      assert ab[0] == a[0] && ab[1..] == a[1..] + b;
      DigitsAppend(a[1..], b);
      calc {
        Digits(ab);
        Kept(a[0]) + Digits(a[1..] + b);
        Kept(a[0]) + (Digits(a[1..]) + Digits(b));
        (Kept(a[0]) + Digits(a[1..])) + Digits(b);
      }
    }
  }

  /** Removing the non-digits of a string of digits leaves it as it is. */
  lemma {:induction false} DigitsOfDigits(s: string)
    requires AllDigits(s)
    ensures Digits(s) == s
    decreases |s|
  {
    if s != [] {
      DigitsOfDigits(s[1..]);
    }
  }

  /** The layout `DD.DDD.DDD/DDDD-DD`. */
  predicate IsCnpjShape(t: string)
  {
    && |t| == 18
    && t[2] == '.' && t[6] == '.' && t[10] == '/' && t[15] == '-'
    && AllDigits(t[..2]) && AllDigits(t[3..6]) && AllDigits(t[7..10])
    && AllDigits(t[11..15]) && AllDigits(t[16..])
  }

  /** The replacement `$1.$2.$3/$4-$5` applied to five captured digit groups. */
  function Join(a: string, b: string, c: string, d: string, e: string): string
  {
    a + "." + b + "." + c + "/" + d + "-" + e
  }

  /** The regex replace `(\d{2})(\d{3})(\d{3})(\d{4})(\d{2})` on exactly 14 digits. */
  function GroupCnpj(c: string): (t: string)
    requires |c| == 14
  {
    Join(c[..2], c[2..5], c[5..8], c[8..12], c[12..])
  }

  lemma DigitsAround(x: string, sep: char, y: string)
    requires !IsDigit(sep)
    ensures Digits(x + [sep] + y) == Digits(x) + Digits(y)
  {
    var s := [sep];
    assert s[1..] == [];
    assert Digits(s) == Kept(sep) + Digits([]);
    DigitsAppend(x + s, y);
    DigitsAppend(x, s);
  }

  /** Removing the punctuation of the joined groups gives back their digits. */
  lemma DigitsOfJoin(a: string, b: string, c: string, d: string, e: string)
    requires AllDigits(a) && AllDigits(b) && AllDigits(c) && AllDigits(d) && AllDigits(e)
    ensures Digits(Join(a, b, c, d, e)) == a + b + c + d + e
  {
    var ab := a + "." + b;
    var abc := ab + "." + c;
    var abcd := abc + "/" + d;
    assert Join(a, b, c, d, e) == abcd + "-" + e;
    DigitsOfDigits(a);
    DigitsOfDigits(b);
    DigitsOfDigits(c);
    DigitsOfDigits(d);
    DigitsOfDigits(e);
    DigitsAround(a, '.', b);
    DigitsAround(ab, '.', c);
    DigitsAround(abc, '/', d);
    DigitsAround(abcd, '-', e);
  }

  /** Grouping 14 digits gives the CNPJ layout, and its digits are the 14 digits again. */
  lemma GroupCnpjShape(c: string)
    requires |c| == 14 && AllDigits(c)
    ensures IsCnpjShape(GroupCnpj(c))
    ensures Digits(GroupCnpj(c)) == c
  {
    var a, b, cc, d, e := c[..2], c[2..5], c[5..8], c[8..12], c[12..];
    assert a + b + cc + d + e == c;
    DigitsOfJoin(a, b, cc, d, e);
    var t := GroupCnpj(c);
    assert t[..2] == a && t[3..6] == b && t[7..10] == cc && t[11..15] == d && t[16..] == e;
  }

  /** A string in the CNPJ layout is the grouping of its own 14 digits. */
  lemma ShapeIsGrouped(t: string)
    requires IsCnpjShape(t)
    ensures |Digits(t)| == 14 && GroupCnpj(Digits(t)) == t
  {
    var a, b, c, d, e := t[..2], t[3..6], t[7..10], t[11..15], t[16..];
    assert Join(a, b, c, d, e) == t;
    DigitsOfJoin(a, b, c, d, e);
    var digits := a + b + c + d + e;
    assert digits[..2] == a && digits[2..5] == b && digits[5..8] == c && digits[8..12] == d && digits[12..] == e;
  }

  /** `formatCNPJ`: the default for an empty id, an error unless 14 digits remain, else the grouped digits. */
  function FormatCnpj(cnpj: string): (r: Result<string, CnpjError>)
    ensures cnpj == "" ==> r == Ok(DefaultCnpj)
    ensures cnpj != "" ==> (r.Ok? <==> |Digits(cnpj)| == 14)
    ensures r.Ok? ==> IsCnpjShape(r.value)
    ensures cnpj != "" && r.Ok? ==> Digits(r.value) == Digits(cnpj)
  {
    if cnpj == "" then
      Ok(DefaultCnpj)
    else
      var cleaned := Digits(cnpj);
      if |cleaned| != 14 then Err(NotFourteenDigits)
      else GroupCnpjShape(cleaned); Ok(GroupCnpj(cleaned))
  }

  /** Formatting what the formatter produced gives it back unchanged. */
  lemma FormatCnpjIdempotent(cnpj: string)
    requires FormatCnpj(cnpj).Ok?
    ensures FormatCnpj(FormatCnpj(cnpj).value) == FormatCnpj(cnpj)
  {
    var t := FormatCnpj(cnpj).value;
    ShapeIsGrouped(t);
  }

  /**
   * `handleSave` on the list it read: the first receipt carrying `receiptId`
   * gets `valueName` set to the draft. With no such receipt the source writes
   * to index -1, which adds no element, so the elements are unchanged.
   */
  function SaveField(receipts: seq<Receipt>, receiptId: string, valueName: Field, value: Option<Value>): (saved: seq<Receipt>)
    ensures |saved| == |receipts|
    ensures forall j :: 0 <= j < |receipts| ==> saved[j].id == receipts[j].id
    ensures forall j :: 0 <= j < |receipts| && !IsFirstWithId(receipts, j, receiptId) ==> saved[j] == receipts[j]
    ensures forall i :: IsFirstWithId(receipts, i, receiptId) ==>
              saved[i].status == receipts[i].status && saved[i].items == receipts[i].items &&
              Get(saved[i], valueName) == value &&
              forall g :: g != valueName ==> Get(saved[i], g) == Get(receipts[i], g)
    ensures receiptId !in Ids(receipts) ==> saved == receipts
    ensures Unique(receipts) ==> Unique(saved)
  {
    var index := FindIndex(receipts, receiptId);
    if index == -1 then receipts
    else receipts[index := Set(receipts[index], valueName, value)]
  }

  /**
   * One editable cell. `isEditing` and the draft `value` are its own state;
   * the receipt list belongs to the shared store. The copy in the table's
   * column definitions commits on blur only; the stand-alone component also
   * commits on Enter (`commitsOnEnter`).
   */
  class EditableCell {
    const rowId: string
    const valueName: Field
    const cellType: CellType
    const commitsOnEnter: bool
    var isEditing: bool
    var value: Option<Value>

    /** A cell starts out showing the value, with the draft set to the cell's current value. */
    constructor (row: Receipt, valueName: Field, cellType: CellType, commitsOnEnter: bool)
      ensures this.rowId == row.id && this.valueName == valueName
      ensures this.cellType == cellType && this.commitsOnEnter == commitsOnEnter
      ensures !isEditing && value == Get(row, valueName)
    {
      this.rowId := row.id;
      this.valueName := valueName;
      this.cellType := cellType;
      this.commitsOnEnter := commitsOnEnter;
      isEditing := false;
      value := Get(row, valueName);
    }

    /** A click on the shown value opens the input; the draft is kept. */
    method Click()
      requires !isEditing
      modifies this
      ensures isEditing && value == old(value)
    {
      isEditing := true;
    }

    /** Typing replaces the draft with the input's text; the shared list is not touched. */
    method Change(text: string)
      requires isEditing
      modifies this
      ensures isEditing && value == Some(Str(text))
    {
      value := Some(Str(text));
    }

    /** `handleSave`: write the draft into the list seen at render time, then close the input. */
    method HandleSave(store: ReceiptsStore, rendered: seq<Receipt>)
      modifies this, store
      ensures store.receipts == SaveField(rendered, rowId, valueName, old(value))
      ensures !isEditing && value == old(value)
    {
      var index := FindIndex(rendered, rowId);
      var existing := rendered;
      if index != -1 {
        existing := existing[index := Set(rendered[index], valueName, value)];
      }
      store.receipts := existing;
      isEditing := false;
    }

    /** Losing focus commits. */
    method Blur(store: ReceiptsStore, rendered: seq<Receipt>)
      requires isEditing
      modifies this, store
      ensures store.receipts == SaveField(rendered, rowId, valueName, old(value))
      ensures !isEditing && value == old(value)
    {
      HandleSave(store, rendered);
    }

    /** Enter commits through the same path as blur, where the cell listens for keys; other keys do nothing. */
    method KeyDown(store: ReceiptsStore, rendered: seq<Receipt>, key: string)
      requires isEditing
      modifies this, store
      ensures commitsOnEnter && key == "Enter" ==>
                store.receipts == SaveField(rendered, rowId, valueName, old(value)) && !isEditing
      ensures !(commitsOnEnter && key == "Enter") ==>
                store.receipts == old(store.receipts) && isEditing
      ensures value == old(value)
    {
      if commitsOnEnter && key == "Enter" {
        HandleSave(store, rendered);
      }
    }
  }
}
