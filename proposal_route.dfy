/** `POST /api/proposal`: the project proposal endpoint. */
module ProposalRoute {
  import opened Wrappers
  import opened Schema
  import opened Env
  import opened ProposalSchema
  import opened Strings
  import opened Intake
  import Supabase
  import Resend

  const Tag := "proposal"
  const Table := "project_proposals"
  const SubjectPrefix := "[Portfolio Proposal] New project from "
  const FallbackMessage := "[proposal] Fallback mode - proposal received:"

  /** `data.company || null`: an absent or empty company is stored as null. */
  function CompanyCell(company: Option<string>): (c: Cell)
    ensures c == Null <==> company.None? || company == Some("")
    ensures c != Null ==> c == Text(company.value)
  {
    if company.Some? && company.value != "" then Text(company.value) else Null
  }

  /** `data.company || "N/A"`: an absent or empty company reads "N/A" in the notification. */
  function CompanyText(company: Option<string>): (s: string)
    ensures company.None? || company == Some("") ==> s == "N/A"
    ensures company.Some? && company.value != "" ==> s == company.value
  {
    if company.Some? && company.value != "" then company.value else "N/A"
  }

  /** The inserted row. */
  function Row(d: ProposalFormData): (row: map<string, Cell>)
    ensures row.Keys == ProposalFields
  {
    map["name" := Text(d.name), "email" := Text(d.email), "company" := CompanyCell(d.company),
        "budget" := Text(d.budget.Label()), "deadline" := Text(d.deadline), "description" := Text(d.description)]
  }

  /** The logged fallback record: `company` as submitted, `undefined` when absent. */
  function FallbackRecord(d: ProposalFormData): (record: map<string, Cell>)
    ensures record.Keys == ProposalFields
    ensures record["name"] == Text(d.name) && record["email"] == Text(d.email) &&
            record["budget"] == Text(d.budget.Label()) && record["deadline"] == Text(d.deadline) &&
            record["description"] == Text(d.description)
    ensures record["company"] == Undefined <==> d.company.None?
    ensures d.company.Some? ==> record["company"] == Text(d.company.value)
    ensures d.company == Some("") ==> record["company"] != Row(d)["company"]
  {
    map["name" := Text(d.name), "email" := Text(d.email),
        "company" := if d.company.Some? then Text(d.company.value) else Undefined,
        "budget" := Text(d.budget.Label()), "deadline" := Text(d.deadline), "description" := Text(d.description)]
  }

  /** No header field of a proposal holds a line break. */
  predicate SingleLineHeader(d: ProposalFormData) {
    '\n' !in d.name && '\n' !in d.email && '\n' !in d.deadline &&
    (d.company.Some? ==> '\n' !in d.company.value)
  }

  /**
   * The lines of the notification text: nine header lines, each a single line when the
   * submitted header fields are, the company line saying "N/A" for a missing or empty company,
   * then the description, which comes last.
   */
  function MailLines(d: ProposalFormData): (r: seq<string>)
    ensures |r| == 10 && r[9] == d.description
    ensures r[4] == "Company: " + (if d.company.Some? && d.company.value != "" then d.company.value else "N/A")
    ensures SingleLineHeader(d) ==> forall i :: 0 <= i < 9 ==> '\n' !in r[i]
  {
    ["New project proposal from your portfolio:", "",
     "Name: " + d.name, "Email: " + d.email, "Company: " + CompanyText(d.company),
     "Budget: " + d.budget.Label(), "Deadline: " + d.deadline, "",
     "Description:", d.description]
  }

  /**
   * The notification: to the site owner, from `from`, with the subject naming the sender; when
   * no submitted field holds a line break, its text reads back line by line as `MailLines(d)`.
   */
  function Notification(d: ProposalFormData, from: string): (m: Mail)
    ensures m.to == NotifyAddress && m.from == from && m.subject == SubjectPrefix + d.name
    ensures SingleLineHeader(d) && '\n' !in d.description ==> Split(m.text, '\n') == MailLines(d)
  {
    var lines := MailLines(d);
    var m := Mail(from, NotifyAddress, SubjectPrefix + d.name, Join(lines, '\n'));
    if SingleLineHeader(d) && '\n' !in d.description then SplitJoin(lines, '\n'); m else m
  }

  function PlanFor(d: ProposalFormData, env: Config): (plan: Plan)
    ensures WellFormed(plan)
  {
    Plan(DbInsert(Table, Row(d)), EmailSend(Notification(d, FromEmail(env))), ConsoleLog(FallbackMessage, FallbackRecord(d)))
  }

  /** The request after `request.json()` (None when it threw) and `safeParse`. */
  function Submit(body: Option<Json>, isEmail: string -> bool, env: Config): Submission {
    match body
    case None => Malformed
    case Some(json) =>
      match Validate(json, isEmail)
      case Err(details) => Rejected(details)
      case Ok(data) => Accepted(PlanFor(data, env))
  }

  /**
   * The handler. `body` is the parsed request body (None when it is not JSON), `isEmail` the
   * email check, `env` the environment, `insert` and `email` how the two sink calls end, and
   * `db` and `mail` the module-level client slots the getters use.
   */
  method Post(body: Option<Json>, isEmail: string -> bool, env: Config, insert: CallOutcome, email: CallOutcome,
              db: Supabase.Slot, mail: Resend.Slot)
    returns (response: Response, trace: seq<Effect>)
    requires db.Valid() && mail.Valid()
    modifies db, mail
    ensures db.Valid() && mail.Valid()
    ensures (response, trace) ==
      Outcome(Tag, Submit(body, isEmail, env), SupabaseConfigured(env), ResendConfigured(env), insert, email)
    ensures !Submit(body, isEmail, env).Accepted? ==>
      db.instance == old(db.instance) && mail.instance == old(mail.instance)
    ensures !SupabaseConfigured(env) ==> db.instance == old(db.instance)
    ensures Submit(body, isEmail, env).Accepted? && SupabaseConfigured(env) ==> db.instance != null
    ensures old(db.instance) == null && Submit(body, isEmail, env).Accepted? && SupabaseConfigured(env) ==>
      db.instance.url == env.supabaseUrl.value && db.instance.key == env.supabaseServiceRoleKey.value
    ensures !ResendConfigured(env) || (SupabaseConfigured(env) && insert == Threw) ==> mail.instance == old(mail.instance)
    ensures Submit(body, isEmail, env).Accepted? && ResendConfigured(env) && !(SupabaseConfigured(env) && insert == Threw) ==>
      mail.instance != null
    ensures old(mail.instance) == null && Submit(body, isEmail, env).Accepted? && ResendConfigured(env) &&
            !(SupabaseConfigured(env) && insert == Threw) ==>
      mail.instance.apiKey == env.resendApiKey.value
    ensures old(db.instance) != null ==> db.instance == old(db.instance)
    ensures old(mail.instance) != null ==> mail.instance == old(mail.instance)
  {
    if body.None? {
      trace := [ConsoleError(UnexpectedLabel(Tag))];
      response := ServerError500;
      return;
    }
    var result := Validate(body.value, isEmail);
    if result.Err? {
      response, trace := Response(400, ValidationFailed(result.error)), [];
      return;
    }
    response, trace := Dispatch(Tag, PlanFor(result.value, env), env, insert, email, db, mail);
  }

  /**
   * The row of an accepted body: its required fields are the submitted strings, and `company`
   * is null exactly when it was absent or empty.
   */
  lemma RowHoldsSubmission(fields: map<string, Json>, isEmail: string -> bool)
    requires Validate(JObject(fields), isEmail).Ok?
    ensures forall k :: k in ProposalFields && k != "company" ==>
      k in fields && fields[k] == JString(Row(Validate(JObject(fields), isEmail).value)[k].text)
    ensures Row(Validate(JObject(fields), isEmail).value)["company"] == Null <==>
      "company" !in fields || fields["company"] == JString("")
    ensures Row(Validate(JObject(fields), isEmail).value)["company"] != Null ==>
      fields["company"] == JString(Row(Validate(JObject(fields), isEmail).value)["company"].text)
  {
    var d := Validate(JObject(fields), isEmail).value;
    var row := Row(d);
    assert row["name"] == Text(d.name) && row["email"] == Text(d.email) && row["deadline"] == Text(d.deadline);
    assert row["budget"] == Text(d.budget.Label()) && row["description"] == Text(d.description);
    assert row["company"] == CompanyCell(d.company);
  }

  /**
   * Whatever is inserted goes to `project_proposals`, and it is the row of a body that was an
   * object and passed validation.
   */
  lemma InsertedRowIsSubmission(body: Option<Json>, isEmail: string -> bool, env: Config,
                                dbReady: bool, mailReady: bool, insert: CallOutcome, email: CallOutcome,
                                table: string, row: map<string, Cell>)
    requires DbInsert(table, row) in Outcome(Tag, Submit(body, isEmail, env), dbReady, mailReady, insert, email).1
    ensures table == "project_proposals"
    ensures body.Some? && body.value.JObject? && Validate(body.value, isEmail).Ok?
    ensures row == Row(Validate(body.value, isEmail).value) && row.Keys == ProposalFields
  {
    var sub := Submit(body, isEmail, env);
    TraceDrawsFromPlan(Tag, sub, dbReady, mailReady, insert, email, DbInsert(table, row));
    assert sub.Accepted? && DbInsert(table, row) == sub.plan.insert;
  }

  /**
   * The notification for an accepted body goes to the site owner with the subject
   * "[Portfolio Proposal] New project from " and the submitted name, and its company line
   * reads "Company: N/A" when the company was absent or empty.
   */
  lemma NotificationOfSubmission(fields: map<string, Json>, isEmail: string -> bool, from: string)
    requires Validate(JObject(fields), isEmail).Ok?
    ensures Notification(Validate(JObject(fields), isEmail).value, from).to == NotifyAddress
    ensures "name" in fields && fields["name"].JString?
    ensures Notification(Validate(JObject(fields), isEmail).value, from).subject == SubjectPrefix + fields["name"].str
    ensures "company" !in fields || fields["company"] == JString("") ==>
      MailLines(Validate(JObject(fields), isEmail).value)[4] == "Company: N/A"
  {
  }

  /**
   * Whatever notification is sent comes from the configured sender and is the notification
   * for a body that was an object and passed validation.
   */
  lemma NotificationContents(body: Option<Json>, isEmail: string -> bool, env: Config,
                             dbReady: bool, mailReady: bool, insert: CallOutcome, email: CallOutcome, m: Mail)
    requires EmailSend(m) in Outcome(Tag, Submit(body, isEmail, env), dbReady, mailReady, insert, email).1
    ensures m.from == FromEmail(env)
    ensures body.Some? && body.value.JObject? && Validate(body.value, isEmail).Ok?
    ensures m == Notification(Validate(body.value, isEmail).value, FromEmail(env))
  {
    var sub := Submit(body, isEmail, env);
    TraceDrawsFromPlan(Tag, sub, dbReady, mailReady, insert, email, EmailSend(m));
    assert sub.Accepted? && EmailSend(m) == sub.plan.email;
  }
}
