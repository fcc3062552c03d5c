/**
 * The transaction service: the row `create` inserts, the mapping `list`
 * applies to the rows of its query, the patch body `update` builds field by
 * field, and the extension check and storage path of `uploadReceipt`.
 * Backend calls are given outcomes.
 */
module TransactionService {
  import opened Text
  import opened Wrappers
  import opened TransactionType
  import opened Patch

  // ---------------------------------------------------------------- create

  datatype CreateInput = CreateInput(
    userId: string, amount: real, kind: TxType, categoryId: string, date: string,
    description: Field<string>, receiptUrl: Field<string>)

  /** A row of the `transactions` table as inserted; `None` is `null`. */
  datatype NewTransaction = NewTransaction(
    userId: string, amount: real, kind: TxType, categoryId: string, date: string,
    description: Option<string>, receiptUrl: Option<string>)

  /**
   * The row `create` inserts: the given fields copied, a missing description
   * or receipt stored as `null`.
   */
  function CreateRow(input: CreateInput): (row: NewTransaction)
    ensures row.userId == input.userId && row.amount == input.amount && row.kind == input.kind
    ensures row.categoryId == input.categoryId && row.date == input.date
    ensures row.description.None? <==> !input.description.Defined?
    ensures row.receiptUrl.None? <==> !input.receiptUrl.Defined?
    ensures row.description.Some? ==> row.description.value == input.description.value
    ensures row.receiptUrl.Some? ==> row.receiptUrl.value == input.receiptUrl.value
  {
    NewTransaction(input.userId, input.amount, input.kind, input.categoryId, input.date,
                   OrNull(input.description), OrNull(input.receiptUrl))
  }

  // ---------------------------------------------------------------- list

  /** The category embedded in a transaction row. */
  datatype CategoryRef = CategoryRef(id: string, name: string, kind: TxType)

  /**
   * A row of the `list` query.  The embedded `categories` is `null` when the
   * row has no category; description and receipt may be absent.
   */
  datatype QueryRow = QueryRow(
    id: string, userId: string, amount: real, kind: TxType, date: string,
    description: Field<string>, receiptUrl: Field<string>, categories: Option<CategoryRef>)

  /** A transaction as `list` returns it. */
  datatype ListedTransaction = ListedTransaction(
    id: string, userId: string, amount: real, kind: TxType, date: string,
    description: Option<string>, receiptUrl: Option<string>, category: Option<CategoryRef>)

  /** The mapping of one row. */
  function FromRow(row: QueryRow): (t: ListedTransaction)
    ensures t.id == row.id && t.userId == row.userId && t.amount == row.amount
    ensures t.kind == row.kind && t.date == row.date && t.category == row.categories
    ensures t.description.None? <==> !row.description.Defined?
    ensures t.receiptUrl.None? <==> !row.receiptUrl.Defined?
  {
    ListedTransaction(row.id, row.userId, row.amount, row.kind, row.date,
                      OrNull(row.description), OrNull(row.receiptUrl), row.categories)
  }

  /** `data?.map(...) ?? []`: every row mapped, in the query's order; no data gives the empty list. */
  function ListRows(data: Option<seq<QueryRow>>): (txs: seq<ListedTransaction>)
    ensures data.None? ==> txs == []
    ensures data.Some? ==> |txs| == |data.value|
    ensures data.Some? ==> forall i :: 0 <= i < |txs| ==> txs[i] == FromRow(data.value[i])
  {
    match data
    case None => []
    case Some(rows) => seq(|rows|, i requires 0 <= i < |rows| => FromRow(rows[i]))
  }

  /** `list(userId)`: the query's error is thrown, its rows are mapped. */
  function List(fetched: Result<Option<seq<QueryRow>>>): (r: Result<seq<ListedTransaction>>)
    ensures fetched.Err? ==> r == Err(fetched.message)
    ensures fetched.Ok? ==> r.Ok? && r.value == ListRows(fetched.value)
  {
    match fetched
    case Err(m) => Err(m)
    case Ok(data) => Ok(ListRows(data))
  }

  // ---------------------------------------------------------------- update

  datatype UpdateInput = UpdateInput(
    amount: Field<real>, kind: Field<TxType>, categoryId: Field<string>, date: Field<string>,
    description: Field<string>, receiptUrl: Field<string>)

  /** The columns an `update` may set. */
  const UpdateKeys: set<string> := {"amount", "type", "category_id", "date", "description", "receipt_url"}

  /**
   * `update`'s `body`: amount, type, category and date only when given and
   * not `null`; description and receipt whenever not `undefined`, so that an
   * explicit `null` clears them; no other key.
   */
  method UpdateBody(input: UpdateInput) returns (body: map<string, Value>)
    ensures body.Keys <= UpdateKeys
    ensures "amount" in body <==> input.amount.Defined?
    ensures "type" in body <==> input.kind.Defined?
    ensures "category_id" in body <==> input.categoryId.Defined?
    ensures "date" in body <==> input.date.Defined?
    ensures "description" in body <==> !input.description.Undefined?
    ensures "receipt_url" in body <==> !input.receiptUrl.Undefined?
    ensures "amount" in body ==> body["amount"] == Number(input.amount.value)
    ensures "type" in body ==> body["type"] == Kind(input.kind.value)
    ensures "category_id" in body ==> body["category_id"] == Text(input.categoryId.value)
    ensures "date" in body ==> body["date"] == Text(input.date.value)
    ensures "description" in body ==> (body["description"] == NullValue <==> input.description.Null?)
    ensures "description" in body && input.description.Defined? ==>
              body["description"] == Text(input.description.value)
    ensures "receipt_url" in body ==> (body["receipt_url"] == NullValue <==> input.receiptUrl.Null?)
    ensures "receipt_url" in body && input.receiptUrl.Defined? ==>
              body["receipt_url"] == Text(input.receiptUrl.value)
  {
    body := map[];
    if input.amount.Defined? {
      body := body["amount" := Number(input.amount.value)];
    }
    if input.kind.Defined? {
      body := body["type" := Kind(input.kind.value)];
    }
    if input.categoryId.Defined? {
      body := body["category_id" := Text(input.categoryId.value)];
    }
    if input.date.Defined? {
      body := body["date" := Text(input.date.value)];
    }
    if !input.description.Undefined? {
      body := body["description" := TextOrNull(input.description)];
    }
    if !input.receiptUrl.Undefined? {
      body := body["receipt_url" := TextOrNull(input.receiptUrl)];
    }
  }

  // ---------------------------------------------------------------- receipts

  const AllowedExtensions: seq<string> := ["png", "jpg", "jpeg", "pdf"]
  const BadExtension := "Only PNG, JPG, and PDF receipts are allowed."
  const NoBucket :=
    "Receipt storage is not configured. Please contact support or set up the storage bucket in Supabase."

  /** `file.name.split('.').pop()`, lower-cased: the text after the last `.`, or the whole name. */
  function Extension(name: string): (ext: string)
    ensures NoChar(ext, '.')
  {
    var parts := Split(name, '.');
    var last := parts[|parts| - 1];
    assert forall i :: 0 <= i < |last| ==> Lower(last)[i] == ToLowerChar(last[i]);
    Lower(last)
  }

  /** The extension of `a.b` is the lower-cased `b` when `b` holds no `.`. */
  lemma ExtensionAfterLastDot(a: string, b: string)
    requires NoChar(b, '.')
    ensures Extension(a + ['.'] + b) == Lower(b)
  {
    SplitLast(a, b, '.');
  }

  /** A name without `.` is its own extension. */
  lemma ExtensionOfDotless(name: string)
    requires NoChar(name, '.')
    ensures Extension(name) == Lower(name)
  {
    SplitNoSep(name, '.');
  }

  predicate IsAllowed(ext: string)
  {
    ext in AllowedExtensions
  }

  /** Where a receipt was stored. */
  datatype StoredReceipt = StoredReceipt(publicUrl: string, path: string)

  /** What `uploadReceipt` did: its result and the storage path it uploaded to, if any. */
  datatype UploadAttempt = UploadAttempt(result: Result<StoredReceipt>, uploadedTo: Option<string>)

  /** The storage path `${userId}/${now}-${name}`; `now` is the decimal text of the upload time. */
  function ReceiptPath(userId: string, now: string, name: string): string
  {
    userId + "/" + now + "-" + name
  }

  /**
   * `uploadReceipt(file, userId)`.  `uploaded` is the storage call's outcome
   * and `publicUrl` the URL the storage returns for the path.
   */
  function UploadReceipt(name: string, userId: string, now: string, uploaded: Result<()>, publicUrl: string)
    : (a: UploadAttempt)
    ensures !IsAllowed(Extension(name)) ==> a == UploadAttempt(Err(BadExtension), None)
    ensures IsAllowed(Extension(name)) ==> a.uploadedTo == Some(ReceiptPath(userId, now, name))
    ensures IsAllowed(Extension(name)) && uploaded.Ok? ==>
              a.result == Ok(StoredReceipt(publicUrl, ReceiptPath(userId, now, name)))
    ensures IsAllowed(Extension(name)) && uploaded.Err? && Contains(uploaded.message, "Bucket not found") ==>
              a.result == Err(NoBucket)
    ensures IsAllowed(Extension(name)) && uploaded.Err? && !Contains(uploaded.message, "Bucket not found") ==>
              a.result == Err(uploaded.message)
  {
    if !IsAllowed(Extension(name)) then UploadAttempt(Err(BadExtension), None)
    else
      var path := ReceiptPath(userId, now, name);
      match uploaded
      case Ok(_) => UploadAttempt(Ok(StoredReceipt(publicUrl, path)), Some(path))
      case Err(m) => UploadAttempt(Err(if Contains(m, "Bucket not found") then NoBucket else m), Some(path))
  }

  /**
   * For a name `a.b` whose last part `b` holds no `.`, the file is uploaded
   * exactly when `b`, in any letter case, is png, jpg, jpeg or pdf.
   */
  lemma UploadIffAllowed(a: string, b: string, userId: string, now: string, uploaded: Result<()>, publicUrl: string)
    requires NoChar(b, '.')
    ensures UploadReceipt(a + ['.'] + b, userId, now, uploaded, publicUrl).uploadedTo.Some?
        <==> Lower(b) in AllowedExtensions
  {
    ExtensionAfterLastDot(a, b);
  }

  /** A name with no `.` is checked as a whole, so `"pdf"` alone is accepted and `"receipt"` is not. */
  lemma UploadDotless(name: string, userId: string, now: string, uploaded: Result<()>, publicUrl: string)
    requires NoChar(name, '.')
    ensures UploadReceipt(name, userId, now, uploaded, publicUrl).uploadedTo.Some?
        <==> Lower(name) in AllowedExtensions
  {
    ExtensionOfDotless(name);
  }
}
