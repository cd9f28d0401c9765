/** `proposalFormSchema`: the project proposal form's fields, each checked on its own. */
module ProposalSchema {
  import opened Wrappers
  import opened Schema

  /** The closed set of budget brackets. */
  datatype Budget = Under1000 | From1000To5000 | From5000To10000 | Over10000 {
    function Label(): string {
      match this
      case Under1000 => "<1000"
      case From1000To5000 => "1000-5000"
      case From5000To10000 => "5000-10000"
      case Over10000 => ">10000"
    }
  }

  const BudgetLabels: seq<string> := ["<1000", "1000-5000", "5000-10000", ">10000"]

  /** The budget a label names, None for any other string. */
  function ParseBudget(s: string): (r: Option<Budget>)
    ensures r.Some? <==> s in BudgetLabels
    ensures r.Some? ==> r.value.Label() == s
  {
    if s == "<1000" then Some(Under1000)
    else if s == "1000-5000" then Some(From1000To5000)
    else if s == "5000-10000" then Some(From5000To10000)
    else if s == ">10000" then Some(Over10000)
    else None
  }

  /** Every budget is read back from its label. */
  lemma BudgetLabelRoundTrip(b: Budget)
    ensures b.Label() in BudgetLabels
    ensures ParseBudget(b.Label()) == Some(b)
  {
  }

  /** `ProposalFormData`: a body that passed the schema; `company` is None when it was absent. */
  datatype ProposalFormData = ProposalFormData(
    name: string, email: string, company: Option<string>,
    budget: Budget, deadline: string, description: string)

  const ProposalFields: set<string> := {"name", "email", "company", "budget", "deadline", "description"}

  function CheckName(v: Option<Json>): Result<string, Issue> { StringCheck(v, 2, Some(100)) }
  function CheckEmail(v: Option<Json>, isEmail: string -> bool): Result<string, Issue> { EmailCheck(v, isEmail) }
  function CheckBudget(v: Option<Json>): Result<Budget, Issue> { EnumCheck(v, ParseBudget) }
  function CheckDeadline(v: Option<Json>): Result<string, Issue> { StringCheck(v, 1, None) }
  function CheckDescription(v: Option<Json>): Result<string, Issue> { StringCheck(v, 20, Some(10000)) }

  /** `z.string().max(100).optional().or(z.literal(""))`. */
  function CheckCompany(v: Option<Json>): (r: Result<Option<string>, Issue>)
    ensures r.Ok? <==> v.None? || (v.value.JString? && |v.value.str| <= 100)
    ensures r.Ok? ==> (r.value.None? <==> v.None?) && (r.value.Some? ==> v == Some(JString(r.value.value)))
  {
    Union(OptionalMaxCheck(v, 100), EmptyLiteralCheck(v))
  }

  /** The `""` alternative accepts nothing that `max(100).optional()` does not already accept. */
  lemma EmptyAlternativeAddsNothing(v: Option<Json>)
    ensures CheckCompany(v) == OptionalMaxCheck(v, 100) || (CheckCompany(v).Err? && OptionalMaxCheck(v, 100).Err?)
    ensures CheckCompany(v).Ok? <==> OptionalMaxCheck(v, 100).Ok?
  {
  }

  /**
   * `proposalFormSchema.safeParse(body)`. A body that is not an object is rejected as a whole;
   * otherwise each field is checked independently, the rejection names exactly the failing
   * fields, and accepted data holds exactly the submitted strings.
   */
  function Validate(body: Json, isEmail: string -> bool): (r: Result<ProposalFormData, Details>)
    ensures !body.JObject? ==> r == Err(Details([ExpectedObject], map[]))
    ensures r.Ok? <==>
      body.JObject? &&
      CheckName(Field(body.fields, "name")).Ok? &&
      CheckEmail(Field(body.fields, "email"), isEmail).Ok? &&
      CheckCompany(Field(body.fields, "company")).Ok? &&
      CheckBudget(Field(body.fields, "budget")).Ok? &&
      CheckDeadline(Field(body.fields, "deadline")).Ok? &&
      CheckDescription(Field(body.fields, "description")).Ok?
    ensures r.Ok? ==>
      Field(body.fields, "name") == Some(JString(r.value.name)) &&
      Field(body.fields, "email") == Some(JString(r.value.email)) &&
      (r.value.company.None? <==> "company" !in body.fields) &&
      (r.value.company.Some? ==> Field(body.fields, "company") == Some(JString(r.value.company.value))) &&
      Field(body.fields, "budget") == Some(JString(r.value.budget.Label())) &&
      Field(body.fields, "deadline") == Some(JString(r.value.deadline)) &&
      Field(body.fields, "description") == Some(JString(r.value.description))
    ensures body.JObject? && r.Err? ==> r.error == Details([], FieldErrors(body.fields, isEmail))
  {
    match body
    case JObject(fields) =>
      var name := CheckName(Field(fields, "name"));
      var email := CheckEmail(Field(fields, "email"), isEmail);
      var company := CheckCompany(Field(fields, "company"));
      var budget := CheckBudget(Field(fields, "budget"));
      var deadline := CheckDeadline(Field(fields, "deadline"));
      var description := CheckDescription(Field(fields, "description"));
      if name.Ok? && email.Ok? && company.Ok? && budget.Ok? && deadline.Ok? && description.Ok? then
        Ok(ProposalFormData(name.value, email.value, company.value, budget.value, deadline.value, description.value))
      else
        Err(Details([], FieldErrors(fields, isEmail)))
    case _ => Err(Details([ExpectedObject], map[]))
  }

  /** The failing fields of an object body, each with its own issue. */
  function FieldErrors(fields: map<string, Json>, isEmail: string -> bool): (errors: map<string, Issue>)
    ensures errors.Keys <= ProposalFields
    ensures "name" in errors <==> CheckName(Field(fields, "name")).Err?
    ensures "email" in errors <==> CheckEmail(Field(fields, "email"), isEmail).Err?
    ensures "company" in errors <==> CheckCompany(Field(fields, "company")).Err?
    ensures "budget" in errors <==> CheckBudget(Field(fields, "budget")).Err?
    ensures "deadline" in errors <==> CheckDeadline(Field(fields, "deadline")).Err?
    ensures "description" in errors <==> CheckDescription(Field(fields, "description")).Err?
    ensures forall key :: key in errors ==> Some(errors[key]) == IssueOf(key, fields, isEmail)
  {
    map key | key in ProposalFields && IssueOf(key, fields, isEmail).Some? :: IssueOf(key, fields, isEmail).value
  }

  /** The issue the check of field `key` reports, if any. */
  function IssueOf(key: string, fields: map<string, Json>, isEmail: string -> bool): Option<Issue> {
    if key == "name" then IssueIn(CheckName(Field(fields, key)))
    else if key == "email" then IssueIn(CheckEmail(Field(fields, key), isEmail))
    else if key == "company" then IssueIn(CheckCompany(Field(fields, key)))
    else if key == "budget" then IssueIn(CheckBudget(Field(fields, key)))
    else if key == "deadline" then IssueIn(CheckDeadline(Field(fields, key)))
    else IssueIn(CheckDescription(Field(fields, key)))
  }

  /**
   * With the required fields strings and `company` absent or a string, the body passes exactly
   * when each field is within its bounds; the deadline only has to be non-empty.
   */
  lemma AcceptedIff(fields: map<string, Json>, isEmail: string -> bool)
    requires forall k :: k in ProposalFields && k != "company" ==> k in fields && fields[k].JString?
    requires "company" in fields ==> fields["company"].JString?
    ensures Validate(JObject(fields), isEmail).Ok? <==>
      2 <= |fields["name"].str| <= 100 &&
      isEmail(fields["email"].str) &&
      ("company" in fields ==> |fields["company"].str| <= 100) &&
      fields["budget"].str in BudgetLabels &&
      fields["deadline"].str != "" &&
      20 <= |fields["description"].str| <= 10000
  {
  }

  /** A required field that is missing or not a string is reported, and the body is rejected. */
  lemma MissingOrNonStringRejected(fields: map<string, Json>, key: string, isEmail: string -> bool)
    requires key in ProposalFields && key != "company"
    requires !IsString(Field(fields, key))
    ensures Validate(JObject(fields), isEmail).Err?
    ensures key in Validate(JObject(fields), isEmail).error.fieldErrors
  {
  }
}
