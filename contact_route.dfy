/** `POST /api/contact`: the contact form endpoint. */
module ContactRoute {
  import opened Wrappers
  import opened Schema
  import opened Env
  import opened ContactSchema
  import opened Strings
  import opened Intake
  import Supabase
  import Resend

  const Tag := "contact"
  const Table := "contact_messages"
  const SubjectPrefix := "[Portfolio Contact] "
  const FallbackMessage := "[contact] Fallback mode - message received:"

  /** The inserted row (and the fallback record): exactly the five validated fields. */
  function Row(d: ContactFormData): (row: map<string, Cell>)
    ensures row.Keys == ContactFields
    ensures forall k :: k in row ==> row[k].Text?
  {
    map["name" := Text(d.name), "email" := Text(d.email), "subject" := Text(d.subject),
        "type" := Text(d.kind.Label()), "message" := Text(d.message)]
  }

  /**
   * The lines of the notification text: eight header lines, each a single line when the name,
   * email and subject are, then the message, which comes last.
   */
  function MailLines(d: ContactFormData): (r: seq<string>)
    ensures |r| == 9 && r[8] == d.message
    ensures '\n' !in d.name && '\n' !in d.email && '\n' !in d.subject ==>
      forall i :: 0 <= i < 8 ==> '\n' !in r[i]
  {
    ["New contact message from your portfolio:", "",
     "Name: " + d.name, "Email: " + d.email, "Type: " + d.kind.Label(), "Subject: " + d.subject, "",
     "Message:", d.message]
  }

  /**
   * The notification: to the site owner, from `from`, with the prefixed subject; when no
   * submitted field holds a line break, its text reads back line by line as `MailLines(d)`.
   */
  function Notification(d: ContactFormData, from: string): (m: Mail)
    ensures m.to == NotifyAddress && m.from == from && m.subject == SubjectPrefix + d.subject
    ensures '\n' !in d.name && '\n' !in d.email && '\n' !in d.subject && '\n' !in d.message ==>
      Split(m.text, '\n') == MailLines(d)
  {
    var lines := MailLines(d);
    var m := Mail(from, NotifyAddress, SubjectPrefix + d.subject, Join(lines, '\n'));
    if '\n' !in d.name && '\n' !in d.email && '\n' !in d.subject && '\n' !in d.message then
      SplitJoin(lines, '\n'); m
    else m
  }

  function PlanFor(d: ContactFormData, env: Config): (plan: Plan)
    ensures WellFormed(plan)
  {
    Plan(DbInsert(Table, Row(d)), EmailSend(Notification(d, FromEmail(env))), ConsoleLog(FallbackMessage, Row(d)))
  }

  /** The request after `request.json()` (None when it threw) and `safeParse`. */
  function Submit(body: Option<Json>, isEmail: string -> bool, env: Config): Submission {
    match body
    case None => Malformed
    case Some(json) =>
      match Validate(json, isEmail)
      case Err(details) => Rejected(details)
      case Ok(data) => Accepted(PlanFor(data, env))
  }

  /**
   * The handler. `body` is the parsed request body (None when it is not JSON), `isEmail` the
   * email check, `env` the environment, `insert` and `email` how the two sink calls end, and
   * `db` and `mail` the module-level client slots the getters use.
   */
  method Post(body: Option<Json>, isEmail: string -> bool, env: Config, insert: CallOutcome, email: CallOutcome,
              db: Supabase.Slot, mail: Resend.Slot)
    returns (response: Response, trace: seq<Effect>)
    requires db.Valid() && mail.Valid()
    modifies db, mail
    ensures db.Valid() && mail.Valid()
    ensures (response, trace) ==
      Outcome(Tag, Submit(body, isEmail, env), SupabaseConfigured(env), ResendConfigured(env), insert, email)
    ensures !Submit(body, isEmail, env).Accepted? ==>
      db.instance == old(db.instance) && mail.instance == old(mail.instance)
    ensures !SupabaseConfigured(env) ==> db.instance == old(db.instance)
    ensures Submit(body, isEmail, env).Accepted? && SupabaseConfigured(env) ==> db.instance != null
    ensures old(db.instance) == null && Submit(body, isEmail, env).Accepted? && SupabaseConfigured(env) ==>
      db.instance.url == env.supabaseUrl.value && db.instance.key == env.supabaseServiceRoleKey.value
    ensures !ResendConfigured(env) || (SupabaseConfigured(env) && insert == Threw) ==> mail.instance == old(mail.instance)
    ensures Submit(body, isEmail, env).Accepted? && ResendConfigured(env) && !(SupabaseConfigured(env) && insert == Threw) ==>
      mail.instance != null
    ensures old(mail.instance) == null && Submit(body, isEmail, env).Accepted? && ResendConfigured(env) &&
            !(SupabaseConfigured(env) && insert == Threw) ==>
      mail.instance.apiKey == env.resendApiKey.value
    ensures old(db.instance) != null ==> db.instance == old(db.instance)
    ensures old(mail.instance) != null ==> mail.instance == old(mail.instance)
  {
    if body.None? {
      trace := [ConsoleError(UnexpectedLabel(Tag))];
      response := ServerError500;
      return;
    }
    var result := Validate(body.value, isEmail);
    if result.Err? {
      response, trace := Response(400, ValidationFailed(result.error)), [];
      return;
    }
    response, trace := Dispatch(Tag, PlanFor(result.value, env), env, insert, email, db, mail);
  }

  /** The row of an accepted body holds exactly the five submitted strings. */
  lemma RowHoldsSubmission(fields: map<string, Json>, isEmail: string -> bool)
    requires Validate(JObject(fields), isEmail).Ok?
    ensures forall k :: k in ContactFields ==>
      k in fields && fields[k] == JString(Row(Validate(JObject(fields), isEmail).value)[k].text)
  {
    var d := Validate(JObject(fields), isEmail).value;
    var row := Row(d);
    assert row["name"] == Text(d.name) && row["email"] == Text(d.email) && row["subject"] == Text(d.subject);
    assert row["type"] == Text(d.kind.Label()) && row["message"] == Text(d.message);
  }

  /**
   * Whatever is inserted goes to `contact_messages`, and it is the row of a body that was an
   * object and passed validation.
   */
  lemma InsertedRowIsSubmission(body: Option<Json>, isEmail: string -> bool, env: Config,
                                dbReady: bool, mailReady: bool, insert: CallOutcome, email: CallOutcome,
                                table: string, row: map<string, Cell>)
    requires DbInsert(table, row) in Outcome(Tag, Submit(body, isEmail, env), dbReady, mailReady, insert, email).1
    ensures table == "contact_messages"
    ensures body.Some? && body.value.JObject? && Validate(body.value, isEmail).Ok?
    ensures row == Row(Validate(body.value, isEmail).value) && row.Keys == ContactFields
  {
    var sub := Submit(body, isEmail, env);
    TraceDrawsFromPlan(Tag, sub, dbReady, mailReady, insert, email, DbInsert(table, row));
    assert sub.Accepted? && DbInsert(table, row) == sub.plan.insert;
  }

  /**
   * Whatever notification is sent goes to the site owner, from the configured sender, with the
   * subject "[Portfolio Contact] " followed by the submitted subject.
   */
  lemma NotificationSubject(body: Option<Json>, isEmail: string -> bool, env: Config,
                            dbReady: bool, mailReady: bool, insert: CallOutcome, email: CallOutcome, m: Mail)
    requires EmailSend(m) in Outcome(Tag, Submit(body, isEmail, env), dbReady, mailReady, insert, email).1
    ensures m.to == NotifyAddress && m.from == FromEmail(env)
    ensures body.Some? && body.value.JObject? && "subject" in body.value.fields
    ensures m.subject == SubjectPrefix + body.value.fields["subject"].str
  {
    var sub := Submit(body, isEmail, env);
    TraceDrawsFromPlan(Tag, sub, dbReady, mailReady, insert, email, EmailSend(m));
    assert sub.Accepted? && EmailSend(m) == sub.plan.email;
  }
}
