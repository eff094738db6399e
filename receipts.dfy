/**
 * The receipt record that the whole front end shares, and the context that
 * owns the list of them.
 *
 * A receipt is a partial record: only `id` and `status` are always present,
 * every other scalar field may be absent until the backend has processed the
 * document. A field value is a string or a number, because an edit writes the
 * text of the input box into any field, money fields included.
 */
module Receipts {

  datatype Option<+T> = None | Some(value: T)

  datatype Result<+T, +E> = Ok(value: T) | Err(error: E)

  /** A scalar field value: `string | number`. Numbers are integral cents or codes. */
  datatype Value = Str(s: string) | Num(n: int)

  /** One line of a receipt, as the backend sends it. */
  datatype LineItem = LineItem(
    id: string,
    code: string,
    name: string,
    purpose: int,
    costCenter: int,
    activity: int,
    quantity: int,
    unitPriceInCents: int)

  /** The optional scalar fields of a receipt, by the names the table uses. */
  datatype Field =
    | Supplier
    | Customer
    | ReceiptNumber
    | ReceiptValueInCents
    | IssValueInCents
    | IssueDate
    | AccrualDate
    | DocumentType
    | OperationCode

  datatype Receipt = Receipt(
    id: string,
    status: string,
    supplier: Option<Value>,
    customer: Option<Value>,
    receiptNumber: Option<Value>,
    receiptValueInCents: Option<Value>,
    issValueInCents: Option<Value>,
    issueDate: Option<Value>,
    accrualDate: Option<Value>,
    documentType: Option<Value>,
    operationCode: Option<Value>,
    items: Option<seq<LineItem>>)

  /** Reading a field by name: `receipt[valueName]`. */
  function Get(r: Receipt, f: Field): Option<Value>
  {
    match f
    case Supplier => r.supplier
    case Customer => r.customer
    case ReceiptNumber => r.receiptNumber
    case ReceiptValueInCents => r.receiptValueInCents
    case IssValueInCents => r.issValueInCents
    case IssueDate => r.issueDate
    case AccrualDate => r.accrualDate
    case DocumentType => r.documentType
    case OperationCode => r.operationCode
  }

  /** The object spread `{ ...r, [valueName]: v }`: a copy of `r` with one field overwritten. */
  function Set(r: Receipt, f: Field, v: Option<Value>): (r': Receipt)
    ensures r'.id == r.id && r'.status == r.status && r'.items == r.items
    ensures forall g :: Get(r', g) == if g == f then v else Get(r, g)
  {
    match f
    case Supplier => r.(supplier := v)
    case Customer => r.(customer := v)
    case ReceiptNumber => r.(receiptNumber := v)
    case ReceiptValueInCents => r.(receiptValueInCents := v)
    case IssValueInCents => r.(issValueInCents := v)
    case IssueDate => r.(issueDate := v)
    case AccrualDate => r.(accrualDate := v)
    case DocumentType => r.(documentType := v)
    case OperationCode => r.(operationCode := v)
  }

  /** JavaScript truthiness of an optional `string | number`: absent, `''` and `0` are falsy. */
  predicate Truthy(v: Option<Value>)
  {
    match v
    case None => false
    case Some(Str(s)) => s != ""
    case Some(Num(n)) => n != 0
  }

  /** The identities present in a list of receipts. */
  function Ids(s: seq<Receipt>): set<string>
  {
    set j | 0 <= j < |s| :: s[j].id
  }

  /** No two receipts of the list share an identity. */
  predicate Unique(s: seq<Receipt>)
  {
    forall i, j :: 0 <= i < j < |s| ==> s[i].id != s[j].id
  }

  /** Index `i` holds the first receipt of `s` whose identity is `id`. */
  predicate IsFirstWithId(s: seq<Receipt>, i: int, id: string)
  {
    0 <= i < |s| && s[i].id == id && forall j :: 0 <= j < i ==> s[j].id != id
  }

  /** `s.findIndex(receipt => receipt.id === id)`: the first match, or -1. */
  function FindIndex(s: seq<Receipt>, id: string): (i: int)
    ensures -1 <= i < |s|
    ensures i == -1 <==> id !in Ids(s)
    ensures i != -1 ==> IsFirstWithId(s, i, id)
  {
    if s == [] then -1
    else if s[0].id == id then 0
    else
      var k := FindIndex(s[1..], id);
      assert Ids(s) == {s[0].id} + Ids(s[1..]) by {
        forall x | x in Ids(s) ensures x in {s[0].id} + Ids(s[1..]) {
          var j :| 0 <= j < |s| && s[j].id == x;
          if j > 0 { assert s[1..][j - 1].id == x; }
        }
      }
      if k == -1 then -1 else k + 1
  }

  /**
   * The receipt list held by the page's context. Every component reads it and
   * replaces it through `setReceipts`; the list starts out empty.
   */
  class ReceiptsStore {
    var receipts: seq<Receipt>

    constructor ()
      ensures receipts == []
    {
      receipts := [];
    }
  }
}
