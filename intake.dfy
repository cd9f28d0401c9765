/**
 * The request pipeline both form endpoints share: re-validate the body, insert a row when the
 * database is configured, send a notification when email is configured, log a fallback record
 * when neither is, and answer 200 unless validation failed (400) or something threw (500).
 * The side effects are recorded, in order, as a trace.
 */
module Intake {
  import opened Schema
  import opened Env
  import Supabase
  import Resend

  /** A column value of an inserted row or a logged record. */
  datatype Cell = Text(text: string) | Null | Undefined

  datatype Mail = Mail(from: string, to: string, subject: string, text: string)

  /** One side effect of a request. */
  datatype Effect =
    | DbInsert(table: string, row: map<string, Cell>)
    | EmailSend(mail: Mail)
    | ConsoleError(message: string)
    | ConsoleLog(message: string, record: map<string, Cell>)

  /** How an awaited sink call ends: normally, with an `{ error }` result, or by throwing. */
  datatype CallOutcome = Completed | ReturnedError | Threw

  /** The JSON response body: `{ success: true }`, `{ error: "Validation failed", details }`, `{ error: "Internal server error" }`. */
  datatype Reply = Success | ValidationFailed(details: Details) | InternalError

  datatype Response = Response(status: nat, reply: Reply)

  const Accepted200 := Response(200, Success)
  const ServerError500 := Response(500, InternalError)

  const NotifyAddress := "autantfelix@gmail.com"

  /** The three effects a validated submission can cause. */
  datatype Plan = Plan(insert: Effect, email: Effect, fallback: Effect)

  predicate WellFormed(plan: Plan) {
    plan.insert.DbInsert? && plan.email.EmailSend? && plan.fallback.ConsoleLog?
  }

  /** A request as the handler sees it after `request.json()` and `safeParse`. */
  datatype Submission = Malformed | Rejected(details: Details) | Accepted(plan: Plan)

  function InsertErrorLabel(tag: string): string { "[" + tag + "] Supabase insert error:" }
  function EmailErrorLabel(tag: string): string { "[" + tag + "] Resend email error:" }
  function UnexpectedLabel(tag: string): string { "[" + tag + "] Unexpected error:" }

  /** An awaited sink call, followed by the log line its outcome causes. */
  function SinkCall(call: Effect, outcome: CallOutcome, errorLabel: string, tag: string): seq<Effect> {
    [call] + match outcome
             case Completed => []
             case ReturnedError => [ConsoleError(errorLabel)]
             case Threw => [ConsoleError(UnexpectedLabel(tag))]
  }

  /** The three log labels of one handler differ, at the character after "[tag] ". */
  lemma LabelsDistinct(tag: string)
    ensures UnexpectedLabel(tag) != InsertErrorLabel(tag)
    ensures UnexpectedLabel(tag) != EmailErrorLabel(tag)
  {
    var k := |tag| + 3;
    assert UnexpectedLabel(tag)[k] == 'U';
    assert InsertErrorLabel(tag)[k] == 'S';
    assert EmailErrorLabel(tag)[k] == 'R';
  }

  /**
   * The response and the effect trace of one request. `dbReady` and `mailReady` say whether
   * the client getters returned a client; `insert` and `email` say how those calls end.
   * A request is answered 500 exactly when its trace holds the "Unexpected error" line, and
   * every other answer is 200 or the 400 carrying the rejection's details.
   */
  function Outcome(tag: string, sub: Submission, dbReady: bool, mailReady: bool,
                   insert: CallOutcome, email: CallOutcome): (r: (Response, seq<Effect>))
    ensures r.0 == ServerError500 || r.0 == Accepted200 ||
            (sub.Rejected? && r.0 == Response(400, ValidationFailed(sub.details)))
    ensures (sub.Accepted? ==> WellFormed(sub.plan)) ==>
      (r.0 == ServerError500 <==> ConsoleError(UnexpectedLabel(tag)) in r.1)
  {
    LabelsDistinct(tag);
    match sub
    case Malformed => (ServerError500, [ConsoleError(UnexpectedLabel(tag))])
    case Rejected(details) => (Response(400, ValidationFailed(details)), [])
    case Accepted(plan) =>
      var dbPart := if dbReady then SinkCall(plan.insert, insert, InsertErrorLabel(tag), tag) else [];
      if dbReady && insert == Threw then (ServerError500, dbPart)
      else
        var mailPart := if mailReady then SinkCall(plan.email, email, EmailErrorLabel(tag), tag) else [];
        if mailReady && email == Threw then (ServerError500, dbPart + mailPart)
        else (Accepted200, dbPart + mailPart + if !dbReady && !mailReady then [plan.fallback] else [])
  }

  /**
   * The steps after validation, shared by both handlers: the database insert when
   * `getSupabaseServer()` gives a client, the notification when `getResendClient()` does
   * (only reached if the insert did not throw), and the fallback log when neither does.
   */
  method Dispatch(tag: string, plan: Plan, env: Config, insert: CallOutcome, email: CallOutcome,
                  db: Supabase.Slot, mail: Resend.Slot)
    returns (response: Response, trace: seq<Effect>)
    requires db.Valid() && mail.Valid()
    modifies db, mail
    ensures db.Valid() && mail.Valid()
    ensures (response, trace) == Outcome(tag, Accepted(plan), SupabaseConfigured(env), ResendConfigured(env), insert, email)
    ensures !SupabaseConfigured(env) ==> db.instance == old(db.instance)
    ensures SupabaseConfigured(env) ==> db.instance != null
    ensures old(db.instance) == null && SupabaseConfigured(env) ==>
      db.instance.url == env.supabaseUrl.value && db.instance.key == env.supabaseServiceRoleKey.value
    ensures !ResendConfigured(env) || (SupabaseConfigured(env) && insert == Threw) ==> mail.instance == old(mail.instance)
    ensures ResendConfigured(env) && !(SupabaseConfigured(env) && insert == Threw) ==> mail.instance != null
    ensures old(mail.instance) == null && ResendConfigured(env) && !(SupabaseConfigured(env) && insert == Threw) ==>
      mail.instance.apiKey == env.resendApiKey.value
    ensures old(db.instance) != null ==> db.instance == old(db.instance)
    ensures old(mail.instance) != null ==> mail.instance == old(mail.instance)
  {
    trace := [];
    var supabase := db.GetSupabaseServer(env);
    if supabase != null {
      trace := trace + [plan.insert];
      if insert == Threw {
        trace := trace + [ConsoleError(UnexpectedLabel(tag))];
        assert trace == SinkCall(plan.insert, insert, InsertErrorLabel(tag), tag);
        response := ServerError500;
        return;
      }
      if insert == ReturnedError {
        trace := trace + [ConsoleError(InsertErrorLabel(tag))];
      }
    }
    ghost var dbPart := trace;
    assert dbPart == if SupabaseConfigured(env) then SinkCall(plan.insert, insert, InsertErrorLabel(tag), tag) else [];

    var resend := mail.GetResendClient(env);
    if resend != null {
      trace := trace + [plan.email];
      if email == Threw {
        trace := trace + [ConsoleError(UnexpectedLabel(tag))];
        assert trace == dbPart + SinkCall(plan.email, email, EmailErrorLabel(tag), tag);
        response := ServerError500;
        return;
      }
      if email == ReturnedError {
        trace := trace + [ConsoleError(EmailErrorLabel(tag))];
      }
    }

    ghost var mailPart := if ResendConfigured(env) then SinkCall(plan.email, email, EmailErrorLabel(tag), tag) else [];
    assert trace == dbPart + mailPart;
    if supabase == null && resend == null {
      trace := trace + [plan.fallback];
    }
    assert trace == dbPart + mailPart + if !SupabaseConfigured(env) && !ResendConfigured(env) then [plan.fallback] else [];
    response := Accepted200;
  }

  /** A rejected body is answered 400 with its details, and no effect at all happens. */
  lemma RejectionTouchesNoSink(tag: string, sub: Submission, dbReady: bool, mailReady: bool,
                               insert: CallOutcome, email: CallOutcome)
    requires sub.Rejected?
    ensures Outcome(tag, sub, dbReady, mailReady, insert, email) == (Response(400, ValidationFailed(sub.details)), [])
  {
  }

  /**
   * 400 exactly for a rejected body; 200 exactly for a validated one none of whose attempted
   * sink calls threw; 500 otherwise.
   */
  lemma StatusCodes(tag: string, sub: Submission, dbReady: bool, mailReady: bool,
                    insert: CallOutcome, email: CallOutcome)
    ensures var status := Outcome(tag, sub, dbReady, mailReady, insert, email).0.status;
      (status == 400 <==> sub.Rejected?) &&
      (status == 200 <==> sub.Accepted? && !(dbReady && insert == Threw) && !(mailReady && email == Threw)) &&
      (status == 500 <==> sub.Malformed? || (sub.Accepted? && ((dbReady && insert == Threw) || (mailReady && email == Threw))))
  {
  }

  /** An error returned by either sink changes the trace (a logged line) but never the response. */
  lemma ReturnedErrorsKeepResponse(tag: string, sub: Submission, dbReady: bool, mailReady: bool,
                                   insert: CallOutcome, email: CallOutcome,
                                   insert': CallOutcome, email': CallOutcome)
    requires insert != Threw && email != Threw && insert' != Threw && email' != Threw
    ensures Outcome(tag, sub, dbReady, mailReady, insert, email).0 == Outcome(tag, sub, dbReady, mailReady, insert', email').0
  {
  }

  /**
   * For a validated body, the insert-error line is logged exactly when the insert ran and
   * returned an error, and the email-error line exactly when the email was attempted and
   * returned an error.
   */
  lemma ReturnedErrorsLogged(tag: string, sub: Submission, dbReady: bool, mailReady: bool,
                             insert: CallOutcome, email: CallOutcome)
    requires sub.Accepted? && WellFormed(sub.plan)
    ensures var trace := Outcome(tag, sub, dbReady, mailReady, insert, email).1;
      (ConsoleError(InsertErrorLabel(tag)) in trace <==> dbReady && insert == ReturnedError) &&
      (ConsoleError(EmailErrorLabel(tag)) in trace <==> mailReady && email == ReturnedError && !(dbReady && insert == Threw))
  {
    LabelsDistinct(tag);
    var k := |tag| + 3;
    assert InsertErrorLabel(tag)[k] == 'S' && EmailErrorLabel(tag)[k] == 'R';
  }

  /**
   * With both sinks configured, the insert comes first and the email is still attempted
   * after an insert that returned an error.
   */
  lemma InsertBeforeEmail(tag: string, sub: Submission, insert: CallOutcome, email: CallOutcome)
    requires sub.Accepted? && WellFormed(sub.plan) && insert != Threw
    ensures var trace := Outcome(tag, sub, true, true, insert, email).1;
      |trace| > 0 && trace[0] == sub.plan.insert &&
      (exists k :: 0 < k < |trace| && trace[k] == sub.plan.email) &&
      forall i, j :: 0 <= i < |trace| && 0 <= j < |trace| && trace[i].DbInsert? && trace[j].EmailSend? ==> i < j
  {
    var trace := Outcome(tag, sub, true, true, insert, email).1;
    var dbPart := SinkCall(sub.plan.insert, insert, InsertErrorLabel(tag), tag);
    assert trace[|dbPart|] == sub.plan.email;
  }

  /**
   * For a validated body, the insert is attempted exactly when the database is configured, and
   * the email exactly when Resend is configured and the insert did not throw.
   */
  lemma SinkAttemptedIffConfigured(tag: string, sub: Submission, dbReady: bool, mailReady: bool,
                                   insert: CallOutcome, email: CallOutcome)
    requires sub.Accepted? && WellFormed(sub.plan)
    ensures var trace := Outcome(tag, sub, dbReady, mailReady, insert, email).1;
      (sub.plan.insert in trace <==> dbReady) &&
      (sub.plan.email in trace <==> mailReady && !(dbReady && insert == Threw))
  {
  }

  /** The fallback record is logged exactly when the body was valid and neither sink is configured. */
  lemma FallbackIffNoSink(tag: string, sub: Submission, dbReady: bool, mailReady: bool,
                          insert: CallOutcome, email: CallOutcome)
    requires sub.Accepted? ==> WellFormed(sub.plan)
    ensures var trace := Outcome(tag, sub, dbReady, mailReady, insert, email).1;
      (exists i :: 0 <= i < |trace| && trace[i].ConsoleLog?) <==> sub.Accepted? && !dbReady && !mailReady
  {
    var trace := Outcome(tag, sub, dbReady, mailReady, insert, email).1;
    if sub.Accepted? && !dbReady && !mailReady {
      assert trace[0].ConsoleLog?;
    }
  }

  /**
   * A throw ends the request: an unparsable body, or an insert that throws, is logged as
   * unexpected, answered 500, and no later step (email, fallback) happens.
   */
  lemma ThrowStopsLaterSteps(tag: string, sub: Submission, dbReady: bool, mailReady: bool,
                             insert: CallOutcome, email: CallOutcome)
    requires sub.Malformed? || (sub.Accepted? && dbReady && insert == Threw)
    ensures var (response, trace) := Outcome(tag, sub, dbReady, mailReady, insert, email);
      response == ServerError500 &&
      trace == (if sub.Malformed? then [] else [sub.plan.insert]) + [ConsoleError(UnexpectedLabel(tag))]
  {
  }

  /**
   * Every effect of a request is one of its plan's, or a log line; a request that was not
   * validated reaches no sink.
   */
  lemma TraceDrawsFromPlan(tag: string, sub: Submission, dbReady: bool, mailReady: bool,
                           insert: CallOutcome, email: CallOutcome, e: Effect)
    requires e in Outcome(tag, sub, dbReady, mailReady, insert, email).1
    ensures e.ConsoleError? || (sub.Accepted? && (e == sub.plan.insert || e == sub.plan.email || e == sub.plan.fallback))
  {
  }
}
