/** `contactFormSchema`: the contact form's fields, each checked on its own. */
module ContactSchema {
  import opened Wrappers
  import opened Schema

  /** The closed set of contact reasons. */
  datatype ContactType = Job | Freelance | Question | Other {
    function Label(): string {
      match this
      case Job => "job"
      case Freelance => "freelance"
      case Question => "question"
      case Other => "other"
    }
  }

  const TypeLabels: seq<string> := ["job", "freelance", "question", "other"]

  /** The contact type a label names, None for any other string. */
  function ParseType(s: string): (r: Option<ContactType>)
    ensures r.Some? <==> s in TypeLabels
    ensures r.Some? ==> r.value.Label() == s
  {
    if s == "job" then Some(Job)
    else if s == "freelance" then Some(Freelance)
    else if s == "question" then Some(Question)
    else if s == "other" then Some(Other)
    else None
  }

  /** Every contact type is read back from its label. */
  lemma TypeLabelRoundTrip(t: ContactType)
    ensures t.Label() in TypeLabels
    ensures ParseType(t.Label()) == Some(t)
  {
  }

  /** `ContactFormData`: a body that passed the schema. */
  datatype ContactFormData = ContactFormData(name: string, email: string, subject: string, kind: ContactType, message: string)

  const ContactFields: set<string> := {"name", "email", "subject", "type", "message"}

  function CheckName(v: Option<Json>): Result<string, Issue> { StringCheck(v, 2, Some(100)) }
  function CheckEmail(v: Option<Json>, isEmail: string -> bool): Result<string, Issue> { EmailCheck(v, isEmail) }
  function CheckSubject(v: Option<Json>): Result<string, Issue> { StringCheck(v, 3, Some(200)) }
  function CheckType(v: Option<Json>): Result<ContactType, Issue> { EnumCheck(v, ParseType) }
  function CheckMessage(v: Option<Json>): Result<string, Issue> { StringCheck(v, 10, Some(5000)) }

  /**
   * `contactFormSchema.safeParse(body)`. A body that is not an object is rejected as a whole;
   * otherwise each field is checked independently, the rejection names exactly the failing
   * fields, and accepted data holds exactly the submitted strings.
   */
  function Validate(body: Json, isEmail: string -> bool): (r: Result<ContactFormData, Details>)
    ensures !body.JObject? ==> r == Err(Details([ExpectedObject], map[]))
    ensures r.Ok? <==>
      body.JObject? &&
      CheckName(Field(body.fields, "name")).Ok? &&
      CheckEmail(Field(body.fields, "email"), isEmail).Ok? &&
      CheckSubject(Field(body.fields, "subject")).Ok? &&
      CheckType(Field(body.fields, "type")).Ok? &&
      CheckMessage(Field(body.fields, "message")).Ok?
    ensures r.Ok? ==>
      Field(body.fields, "name") == Some(JString(r.value.name)) &&
      Field(body.fields, "email") == Some(JString(r.value.email)) &&
      Field(body.fields, "subject") == Some(JString(r.value.subject)) &&
      Field(body.fields, "type") == Some(JString(r.value.kind.Label())) &&
      Field(body.fields, "message") == Some(JString(r.value.message))
    ensures body.JObject? && r.Err? ==> r.error == Details([], FieldErrors(body.fields, isEmail))
  {
    match body
    case JObject(fields) =>
      var name := CheckName(Field(fields, "name"));
      var email := CheckEmail(Field(fields, "email"), isEmail);
      var subject := CheckSubject(Field(fields, "subject"));
      var kind := CheckType(Field(fields, "type"));
      var message := CheckMessage(Field(fields, "message"));
      if name.Ok? && email.Ok? && subject.Ok? && kind.Ok? && message.Ok? then
        Ok(ContactFormData(name.value, email.value, subject.value, kind.value, message.value))
      else
        Err(Details([], FieldErrors(fields, isEmail)))
    case _ => Err(Details([ExpectedObject], map[]))
  }

  /** The failing fields of an object body, each with its own issue. */
  function FieldErrors(fields: map<string, Json>, isEmail: string -> bool): (errors: map<string, Issue>)
    ensures errors.Keys <= ContactFields
    ensures "name" in errors <==> CheckName(Field(fields, "name")).Err?
    ensures "email" in errors <==> CheckEmail(Field(fields, "email"), isEmail).Err?
    ensures "subject" in errors <==> CheckSubject(Field(fields, "subject")).Err?
    ensures "type" in errors <==> CheckType(Field(fields, "type")).Err?
    ensures "message" in errors <==> CheckMessage(Field(fields, "message")).Err?
    ensures forall key :: key in errors ==> Some(errors[key]) == IssueOf(key, fields, isEmail)
  {
    map key | key in ContactFields && IssueOf(key, fields, isEmail).Some? :: IssueOf(key, fields, isEmail).value
  }

  /** The issue the check of field `key` reports, if any. */
  function IssueOf(key: string, fields: map<string, Json>, isEmail: string -> bool): Option<Issue> {
    if key == "name" then IssueIn(CheckName(Field(fields, key)))
    else if key == "email" then IssueIn(CheckEmail(Field(fields, key), isEmail))
    else if key == "subject" then IssueIn(CheckSubject(Field(fields, key)))
    else if key == "type" then IssueIn(CheckType(Field(fields, key)))
    else IssueIn(CheckMessage(Field(fields, key)))
  }

  /** With every field a string, the body passes exactly when each field is within its bounds. */
  lemma AcceptedIff(fields: map<string, Json>, isEmail: string -> bool)
    requires forall k :: k in ContactFields ==> k in fields && fields[k].JString?
    ensures Validate(JObject(fields), isEmail).Ok? <==>
      2 <= |fields["name"].str| <= 100 &&
      isEmail(fields["email"].str) &&
      3 <= |fields["subject"].str| <= 200 &&
      fields["type"].str in TypeLabels &&
      10 <= |fields["message"].str| <= 5000
  {
  }

  /** A field that is missing or not a string is reported, and the body is rejected. */
  lemma MissingOrNonStringRejected(fields: map<string, Json>, key: string, isEmail: string -> bool)
    requires key in ContactFields
    requires !IsString(Field(fields, key))
    ensures Validate(JObject(fields), isEmail).Err?
    ensures key in Validate(JObject(fields), isEmail).error.fieldErrors
  {
  }

  /**
   * A valid name, subject and type next to an email the email check refuses and a
   * too-short message: exactly `email` and `message` are reported.
   */
  lemma RejectionNamesOnlyFailingFields(isEmail: string -> bool)
    requires !isEmail("bad-email")
    ensures var body := JObject(map["name" := JString("Al"), "email" := JString("bad-email"),
                                    "subject" := JString("Hi there"), "type" := JString("job"),
                                    "message" := JString("short")]);
            var r := Validate(body, isEmail);
            r.Err? && r.error.fieldErrors.Keys == {"email", "message"}
  {
    var fields := map["name" := JString("Al"), "email" := JString("bad-email"),
                      "subject" := JString("Hi there"), "type" := JString("job"),
                      "message" := JString("short")];
    var errors := Validate(JObject(fields), isEmail).error.fieldErrors;
    assert |"Al"| == 2 && |"Hi there"| == 8 && |"short"| == 5;
    assert "email" in errors && "message" in errors;
    assert "name" !in errors && "subject" !in errors && "type" !in errors;
  }
}
