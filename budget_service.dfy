/**
 * The budget service: the row `create` inserts, the result of `list`, and
 * the patch body `update` builds.  Backend calls are given outcomes.
 */
module BudgetService {
  import opened Wrappers
  import opened Patch

  datatype CategoryName = CategoryName(id: string, name: string)

  /** A budget row, with its category when `list` embeds one. */
  datatype Budget = Budget(
    id: string, userId: string, categoryId: string, amount: real, period: string,
    startDate: string, endDate: string, description: Option<string>)

  datatype ListedBudget = ListedBudget(budget: Budget, categories: Option<CategoryName>)

  /** `list(userId)`: the query's error is thrown; no data is the empty list. */
  function List(fetched: Result<Option<seq<ListedBudget>>>): (r: Result<seq<ListedBudget>>)
    ensures fetched.Err? ==> r == Err(fetched.message)
    ensures fetched.Ok? && fetched.value.None? ==> r == Ok([])
    ensures fetched.Ok? && fetched.value.Some? ==> r == Ok(fetched.value.value)
  {
    match fetched
    case Err(m) => Err(m)
    case Ok(None) => Ok([])
    case Ok(Some(rows)) => Ok(rows)
  }

  datatype CreateInput = CreateInput(
    userId: string, categoryId: string, amount: real, period: string,
    startDate: string, endDate: string, description: Option<string>)

  datatype NewBudget = NewBudget(
    userId: string, categoryId: string, amount: real, period: string,
    startDate: string, endDate: string, description: Option<string>)

  /** `description || null`: a missing or empty description is stored as `null`. */
  function DescriptionOrNull(d: Option<string>): (r: Option<string>)
    ensures r.None? <==> d.None? || d.value == ""
    ensures r.Some? ==> r == d
  {
    if d.Some? && d.value != "" then d else None
  }

  /** The row `create` inserts: the given fields copied, the description through `|| null`. */
  function CreateRow(input: CreateInput): (row: NewBudget)
    ensures row.userId == input.userId && row.categoryId == input.categoryId && row.amount == input.amount
    ensures row.period == input.period && row.startDate == input.startDate && row.endDate == input.endDate
    ensures row.description.None? <==> input.description.None? || input.description.value == ""
    ensures row.description.Some? ==> row.description == input.description
  {
    NewBudget(input.userId, input.categoryId, input.amount, input.period,
              input.startDate, input.endDate, DescriptionOrNull(input.description))
  }

  datatype UpdateInput = UpdateInput(
    categoryId: Field<string>, amount: Field<real>, startDate: Field<string>, endDate: Field<string>,
    description: Field<string>)

  /** The columns an `update` may set. */
  const UpdateKeys: set<string> := {"category_id", "amount", "start_date", "end_date", "description"}

  /**
   * `update`'s `body`: category, amount and dates only when given and not
   * `null`; the description whenever it is not `undefined`, so that `null`
   * clears it; no other key.
   */
  method UpdateBody(input: UpdateInput) returns (body: map<string, Value>)
    ensures body.Keys <= UpdateKeys
    ensures "category_id" in body <==> input.categoryId.Defined?
    ensures "amount" in body <==> input.amount.Defined?
    ensures "start_date" in body <==> input.startDate.Defined?
    ensures "end_date" in body <==> input.endDate.Defined?
    ensures "description" in body <==> !input.description.Undefined?
    ensures "category_id" in body ==> body["category_id"] == Text(input.categoryId.value)
    ensures "amount" in body ==> body["amount"] == Number(input.amount.value)
    ensures "start_date" in body ==> body["start_date"] == Text(input.startDate.value)
    ensures "end_date" in body ==> body["end_date"] == Text(input.endDate.value)
    ensures "description" in body ==> (body["description"] == NullValue <==> input.description.Null?)
    ensures "description" in body && input.description.Defined? ==>
              body["description"] == Text(input.description.value)
  {
    body := map[];
    if input.categoryId.Defined? {
      body := body["category_id" := Text(input.categoryId.value)];
    }
    if input.amount.Defined? {
      body := body["amount" := Number(input.amount.value)];
    }
    if input.startDate.Defined? {
      body := body["start_date" := Text(input.startDate.value)];
    }
    if input.endDate.Defined? {
      body := body["end_date" := Text(input.endDate.value)];
    }
    if !input.description.Undefined? {
      body := body["description" := TextOrNull(input.description)];
    }
  }
}
