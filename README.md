# Portfolio site core: form intake, client slots, data queries, locale switching

This project models, in Dafny, the parts of a bilingual (French/English) portfolio site built on
Next.js whose behaviour can be stated precisely:

- **Form validation.** There are two zod schemas: the contact form (`name`, `email`, `subject`,
  `type`, `message`) and the project proposal form (`name`, `email`, optional `company`, `budget`,
  `deadline`, `description`). Each field check is modelled:
  - the length bounds and closed enums;
  - a missing field (`Required`) and a non-string field (`ExpectedString`);
  - the `company` union `z.string().max(100).optional().or(z.literal(""))`;
  - the flattened error details: one issue per failing field, and a form-level issue for a body
    that is not an object.

  The email shape check is a parameter `isEmail`.
- **The two `POST` handlers** (`/api/contact`, `/api/proposal`). A request comes in as:
  - the parsed body, or None when `request.json()` throws;
  - the environment;
  - how each sink call ends: completes, returns an `{ error }`, or throws.

  `Intake.Outcome` is the specification. It gives the response (status and JSON body) and the
  ordered trace of side effects: database insert, notification email, `console.error` lines, and
  the fallback `console.log`. `ContactRoute.Post` and `ProposalRoute.Post` are methods that run
  the steps in the source's order. They call the client getters on the module-level client slots
  and are proved equal to that specification.
- **Lazy client singletons.** `getSupabaseServer` and `getResendClient` are classes holding the
  module-level `let` slot as a nullable field. A ghost counter records how many clients were
  created.
- **Static data.** The `projects` table and the `skillCategories` table are modelled with the
  queries over them: `filter`, `find`, `[...new Set(...)]` and `flatMap`. The project queries take
  the table as a parameter, and `Projects.AllProjects` is the table itself. The table invariants
  are proved: distinct project ids, distinct skill category keys, 29 skills in all, and every
  level in 1..5 (by the `Skills.Level` type).
- **The projects section.** This covers:
  - which projects the active filter shows;
  - the filter buttons;
  - the first-five technology badges and the "+n" overflow badge;
  - whether the description and role are shown in English or French.
- **The language switcher.** The path is split at `/`, and the locale segment is replaced or
  inserted. The segments are then joined again.

`Wrappers`, `Seqs` and `Strings` hold the shared `Option`/`Result` types, the array operations
and `split`/`join`.

## Model

| member | source | states |
|---|---|---|
| Schema.StringCheck | lib/validations/contact.ts:4 | `z.string().min(lo).max(hi)` accepts exactly a string whose length is within the bounds, and returns it unchanged. A missing value is `Required`, a non-string is `ExpectedString`, a string too short is `TooSmall(lo)` and one too long is `TooBig(hi)`. |
| Schema.EmailCheck | lib/validations/contact.ts:5 | `z.string().email()` accepts exactly a string the email predicate accepts, and returns it unchanged. A missing value is `Required`, a non-string is `ExpectedString`, and a refused string is `InvalidEmail`. |
| Schema.EnumCheck | lib/validations/contact.ts:7 | `z.enum` accepts exactly a string its parser maps to a value, and returns that value. A missing value is `Required`, a non-string is `ExpectedString`, and any other string is `InvalidEnumValue`. |
| Schema.OptionalMaxCheck | lib/validations/proposal.ts:6 | `z.string().max(n).optional()` accepts an absent value or a string of length at most n. Absent stays absent; a string is returned as given. |
| Schema.EmptyLiteralCheck | lib/validations/proposal.ts:6 | `z.literal("")` accepts exactly the empty string and returns it; anything else is an invalid literal. |
| Schema.Union | lib/validations/proposal.ts:6 | `.or` succeeds iff one alternative does. The first alternative's success wins, and when only the second succeeds its result is returned. A failure reports the first alternative's field-level issue, else the second's, else an invalid union. |
| ContactSchema.ParseType | lib/validations/contact.ts:7 | A `type` string parses iff it is one of "job", "freelance", "question", "other", and the parsed value's label is that string. |
| ContactSchema.TypeLabelRoundTrip | lib/validations/contact.ts:7 | Every contact type's label is in the enum and parses back to that type. |
| ContactSchema.Validate | lib/validations/contact.ts:3-9 | A non-object body fails as a whole. Otherwise the body passes iff all five field checks pass, and the accepted data are exactly the submitted strings. A rejection lists exactly the per-field errors. |
| ContactSchema.FieldErrors | lib/validations/contact.ts:3-9 | A field is reported iff its own check fails, with that check's issue. Fields are independent of each other. |
| ContactSchema.AcceptedIff | lib/validations/contact.ts:4-8 | With all fields strings, the body passes iff: name length is 2..100, email passes the email check, subject length is 3..200, `type` is one of the four labels, and message length is 10..5000. |
| ContactSchema.MissingOrNonStringRejected | lib/validations/contact.ts:3-9 | A missing or non-string field is reported, and the body is rejected. |
| ContactSchema.RejectionNamesOnlyFailingFields | lib/validations/contact.ts:3-9 | A body with a bad email and a short message, whose other fields are fine, reports exactly `email` and `message`. |
| ProposalSchema.ParseBudget | lib/validations/proposal.ts:7 | A budget parses iff it is one of "<1000", "1000-5000", "5000-10000", ">10000", and the parsed value's label is that string. |
| ProposalSchema.BudgetLabelRoundTrip | lib/validations/proposal.ts:7 | Every budget's label is in the enum and parses back to that budget. |
| ProposalSchema.CheckCompany | lib/validations/proposal.ts:6 | `company` passes iff it is absent or a string of at most 100 characters. An absent company stays absent; a present one is kept as given. |
| ProposalSchema.EmptyAlternativeAddsNothing | lib/validations/proposal.ts:6 | The `""` alternative accepts nothing that `max(100).optional()` does not already accept, and changes no accepted value. |
| ProposalSchema.Validate | lib/validations/proposal.ts:3-10 | A non-object body fails as a whole. Otherwise the body passes iff all six field checks pass. The accepted data are the submitted strings, and the company is absent iff it was not sent. A rejection lists exactly the per-field errors. |
| ProposalSchema.FieldErrors | lib/validations/proposal.ts:3-10 | A field is reported iff its own check fails, with that check's issue. |
| ProposalSchema.AcceptedIff | lib/validations/proposal.ts:4-9 | With string fields, the body passes iff: name is 2..100, email passes the check, company is at most 100, budget is one of the four labels, deadline is non-empty (no date format is checked), and description is 20..10000. |
| ProposalSchema.MissingOrNonStringRejected | lib/validations/proposal.ts:3-10 | A missing or non-string required field is reported, and the body is rejected. |
| Env.FromEmail | app/api/contact/route.ts:41-42 | The sender is `RESEND_FROM_EMAIL` when it is set and non-empty, otherwise "onboarding@resend.dev". |
| Supabase.Slot.constructor | lib/supabase.ts:3 | The slot starts empty, with no client created. |
| Supabase.Slot.GetSupabaseServer | lib/supabase.ts:5-18 | Returns null iff the URL or the key is missing or empty, and then leaves the slot unchanged. Otherwise it returns the slot's client: a filled slot is never replaced, and an empty slot gets a fresh client built from the URL and the key. |
| Supabase.CallRepeatedly | lib/supabase.ts:13-17 | Over any sequence of calls, at most one client is ever created, and every non-null result is that same instance, whatever the later URL or key. |
| Resend.Slot.constructor | lib/resend.ts:3 | The slot starts empty, with no client created. |
| Resend.Slot.GetResendClient | lib/resend.ts:5-17 | Returns null iff the API key is missing or empty, and then leaves the slot unchanged. Otherwise it returns the cached client, which is created only on the first configured call. |
| Resend.CallRepeatedly | lib/resend.ts:12-16 | At most one client is ever constructed, and every later configured call returns it, even after the key changed. |
| Intake.LabelsDistinct | app/api/contact/route.ts:34-79 | The "Unexpected error" label differs from the insert-error and email-error labels of the same handler. |
| Intake.Outcome | app/api/contact/route.ts:6-85 | The answer is 500, 200, or the 400 carrying a rejection's details. For a well-formed submission, it is 500 exactly when the trace holds the "Unexpected error" log line. |
| Intake.Dispatch | app/api/contact/route.ts:20-77 | The steps after validation yield exactly the response and trace `Intake.Outcome` specifies. A slot is untouched when its service is not configured. When configured, and for email reached (the insert did not throw), the slot holds a client: the existing one, or a new one built from the environment's URL and key (or API key). |
| Intake.RejectionTouchesNoSink | app/api/contact/route.ts:10-16 | A rejected body is answered 400 "Validation failed" with its details, and no effect at all happens. |
| Intake.StatusCodes | app/api/contact/route.ts:6-85 | The status is 400 iff validation failed. It is 200 iff the body validated and no attempted sink call threw. It is 500 otherwise. |
| Intake.ReturnedErrorsKeepResponse | app/api/contact/route.ts:33-77 | An error returned by the insert or the email never changes the response; it is only logged. |
| Intake.SinkAttemptedIffConfigured | app/api/contact/route.ts:21-40 | For a validated body, the insert is attempted iff the database is configured. The email is attempted iff Resend is configured and the insert did not throw. |
| Intake.ReturnedErrorsLogged | app/api/contact/route.ts:33-63 | For a validated body, the insert-error line is logged iff the insert ran and returned an error. The email-error line is logged iff the email was attempted and returned an error. |
| Intake.InsertBeforeEmail | app/api/contact/route.ts:21-64 | With both sinks configured, the insert is the first effect and the email comes after it. The email is attempted even when the insert returned an error. |
| Intake.FallbackIffNoSink | app/api/contact/route.ts:66-75 | The fallback record is logged iff the body validated and neither sink is configured. |
| Intake.ThrowStopsLaterSteps | app/api/contact/route.ts:78-84 | Malformed JSON, or an insert that throws, gives 500 and an "Unexpected error" log line, and no later email or fallback happens. |
| Intake.TraceDrawsFromPlan | app/api/contact/route.ts:20-75 | Every effect is a log line or one of the validated submission's own insert, email or fallback. |
| ContactRoute.Row | app/api/contact/route.ts:25-31 | The inserted row has exactly the five schema fields, all of them strings. |
| ContactRoute.MailLines | app/api/contact/route.ts:48-58 | The notification text has nine lines, the message last. The eight header lines are single lines when the name, email and subject are. |
| ContactRoute.Notification | app/api/contact/route.ts:44-59 | The mail goes to the site owner from the given sender, with the subject "[Portfolio Contact] " followed by the submitted subject. When no field holds a line break, splitting its text at line breaks gives back exactly the nine lines. |
| ContactRoute.Post | app/api/contact/route.ts:6-85 | The handler's response and trace equal `Intake.Outcome` for the parsed and validated body. A body that was not accepted leaves both client slots unchanged. For an accepted body, each configured slot reached holds a client: the existing one, or one built from the environment. |
| ContactRoute.RowHoldsSubmission | app/api/contact/route.ts:23-31 | Each column of the row for an accepted body is the submitted string of that field. |
| ContactRoute.InsertedRowIsSubmission | app/api/contact/route.ts:21-31 | Any insert goes to `contact_messages` and is the row of a body that was an object and passed validation. |
| ContactRoute.NotificationSubject | app/api/contact/route.ts:44-47 | Any email goes to the site owner from the configured sender, with the subject "[Portfolio Contact] " followed by the submitted subject. |
| ProposalRoute.CompanyCell | app/api/proposal/route.ts:28 | The stored company is null iff it was absent or empty, and otherwise the submitted string. |
| ProposalRoute.CompanyText | app/api/proposal/route.ts:54 | The notification shows "N/A" for an absent or empty company, and otherwise the submitted string. |
| ProposalRoute.Row | app/api/proposal/route.ts:25-32 | The inserted row has exactly the six schema fields. |
| ProposalRoute.FallbackRecord | app/api/proposal/route.ts:70-77 | The logged record has exactly the six schema fields, each the submitted value. `company` is undefined iff it was not sent, so an empty company is logged as "" where the row stores null. |
| ProposalRoute.MailLines | app/api/proposal/route.ts:49-60 | The notification text has ten lines, the description last. The company line says "N/A" for a missing or empty company. The nine header lines are single lines when the submitted header fields are. |
| ProposalRoute.Notification | app/api/proposal/route.ts:45-61 | The mail goes to the site owner from the given sender, with the subject "[Portfolio Proposal] New project from " followed by the name. When no field holds a line break, splitting its text at line breaks gives back exactly the ten lines. |
| ProposalRoute.Post | app/api/proposal/route.ts:6-88 | The handler's response and trace equal `Intake.Outcome` for the parsed and validated body. A body that was not accepted leaves both client slots unchanged. For an accepted body, each configured slot reached holds a client: the existing one, or one built from the environment. |
| ProposalRoute.RowHoldsSubmission | app/api/proposal/route.ts:25-32 | The required columns of an accepted body's row are the submitted strings. `company` is null iff it was absent or empty, and otherwise the submitted string. |
| ProposalRoute.InsertedRowIsSubmission | app/api/proposal/route.ts:21-32 | Any insert goes to `project_proposals` and is the row of a body that was an object and passed validation. |
| ProposalRoute.NotificationOfSubmission | app/api/proposal/route.ts:45-60 | The notification goes to the site owner with the subject "[Portfolio Proposal] New project from " followed by the name. Its company line is "Company: N/A" when the company was absent or empty. |
| ProposalRoute.NotificationContents | app/api/proposal/route.ts:40-61 | Any email comes from the configured sender and is the notification of a body that was an object and passed validation. |
| Projects.ProjectIdsDistinct | data/projects.ts:24-120 | No two projects of the table share an id. |
| Projects.GetFeaturedProjects | data/projects.ts:122-124 | Exactly the featured projects, each as often as in the table, in table order. |
| Projects.GetProjectsByCategory | data/projects.ts:126-128 | Exactly the projects of the category, each as often as in the table, in table order. |
| Projects.GetProjectById | data/projects.ts:130-132 | `undefined` iff no project has the id; otherwise the first project that has it. |
| Projects.LookupFindsTheProject | data/projects.ts:130-132 | With distinct ids, the lookup by a project's id returns that project. |
| Projects.CategoryColumn | data/projects.ts:135 | `map` to the category, position by position. |
| Projects.GetAllCategories | data/projects.ts:134-136 | No duplicates. A category is present iff some project has it. Categories come in the order of their first occurrence in the table. |
| Skills.CategoryKeysDistinct | data/skills.ts:13-73 | No two skill categories share a key. |
| Skills.SkillLists | data/skills.ts:76 | `map` to each category's skill list, position by position. |
| Skills.FlatSkills | data/skills.ts:75-77 | The concatenation of each category's skills in category order. Its length is the sum of the category lengths, each category's skills sit at its offset, and a skill is present iff some category has it. |
| Skills.SkillBlocks | data/skills.ts:76 | Each category's skills are the slice of the flattened list at that category's offset. |
| Skills.SkillMembers | data/skills.ts:76 | A skill is in the flattened list iff some category lists it. |
| Skills.GetAllSkills | data/skills.ts:75-77 | Every category's skills, in table order, each at its category's offset. A skill is listed iff some category lists it. |
| Skills.SkillCount | data/skills.ts:13-77 | `getAllSkills()` returns 29 skills, the sum of the six category sizes 4, 9, 2, 5, 5, 4. |
| Skills.GetFeaturedSkills | data/skills.ts:79-81 | Exactly the skills whose `featured` flag is `true`, in order; a skill without the flag is not featured. |
| ProjectsSection.AllIsNoCategory | components/sections/ProjectsSection.tsx:23-26 | The filter value "all" is not the name of any category. |
| ProjectsSection.CategoryNamesDistinct | data/projects.ts:13 | Two categories have the same name iff they are the same category. |
| ProjectsSection.CategoryNameFilter | components/sections/ProjectsSection.tsx:26 | Filtering by a category's name selects exactly `getProjectsByCategory` of that category, and no category is named "all". |
| ProjectsSection.FilteredProjects | components/sections/ProjectsSection.tsx:23-26 | "all" shows the whole table in order. A category's name shows exactly `getProjectsByCategory` of that category. Any other value shows nothing. |
| ProjectsSection.ShowsNoProjects | components/sections/ProjectsSection.tsx:87-91 | The "noProjects" message shows iff no project matches the active filter ("all" matches every project). |
| ProjectsSection.FilterKeys | components/sections/ProjectsSection.tsx:51-65 | The buttons are "all" and then one per category, in the categories' order. |
| ProjectsSection.FilterKeysDistinct | components/sections/ProjectsSection.tsx:51-65 | No button value repeats when no category repeats. |
| ProjectsSection.FilterKeysMembers | components/sections/ProjectsSection.tsx:51-65 | The button values are "all" and the category names, and nothing else. |
| ProjectsSection.FilterButtons | components/sections/ProjectsSection.tsx:21-65 | The rendered buttons are "all" followed by `getAllCategories()` in order, with no value twice. A value is a button iff it is "all" or the category of some project. |
| ProjectsSection.EveryFilterShowsProjects | components/sections/ProjectsSection.tsx:51-91 | Over a non-empty table, no filter button leads to the "noProjects" message. |
| ProjectsSection.VisibleTechnologies | components/sections/ProjectsSection.tsx:180 | The badges are the first technologies: all of them when there are five or fewer, exactly the first five otherwise. |
| ProjectsSection.OverflowBadge | components/sections/ProjectsSection.tsx:185-189 | The "+n" badge appears iff there are more than five technologies, and then n is the number of technologies beyond the fifth. |
| ProjectsSection.BadgesCountEveryTechnology | components/sections/ProjectsSection.tsx:180-189 | Shown badges plus the overflow count equal the number of technologies; the shown ones are a prefix. |
| ProjectsSection.Localize | components/sections/ProjectsSection.tsx:125-126 | The card's description is the English text iff the locale is exactly "en", and the French text for every other locale. |
| ProjectsSection.CardRole | components/sections/ProjectsSection.tsx:127-131 | No role iff the project has none; otherwise the role, localised by the same rule. |
| LanguageSwitcher.Relocalized | components/LanguageSwitcher.tsx:20-24 | Segment 1 becomes the new locale. If it was a known locale it is replaced, with the same length and every other segment unchanged. Otherwise the locale is inserted at index 1 and the original segments follow unchanged. |
| LanguageSwitcher.SwitchedPath | components/LanguageSwitcher.tsx:17-27 | The target path is the relocalised segments joined by "/". It always contains a "/", so the `\|\| "/"` fallback is never taken. |
| LanguageSwitcher.SwitchLocale | components/LanguageSwitcher.tsx:17-27 | The in-place segment edit and join compute exactly `SwitchedPath`, the plain join of the relocalised segments. |
| LanguageSwitcher.SwitchedSegments | components/LanguageSwitcher.tsx:18-26 | Read back into segments, the switched path is exactly the relocalised segment list. Segment 1 is the new locale, and the segment count grows by at most one. |
| LanguageSwitcher.RelocalizedTwice | components/LanguageSwitcher.tsx:20-24 | On segments, switching to a known locale and then to another is switching straight to the second. |
| LanguageSwitcher.LastSwitchWins | components/LanguageSwitcher.tsx:17-27 | Switching to `a` and then to `b` gives the path of switching straight to `b`. |
| LanguageSwitcher.SwitchIdempotent | components/LanguageSwitcher.tsx:17-27 | Switching to the same locale twice gives the path of switching once. |
| Strings.Split | components/LanguageSwitcher.tsx:18 | `split("/")` gives at least one segment, and no segment contains the separator. |
| Strings.Join | components/LanguageSwitcher.tsx:26 | `join("/")` of two or more segments contains the separator. |
| Strings.JoinSplit | components/LanguageSwitcher.tsx:18-26 | Joining the split segments gives back the original path. |
| Strings.SplitJoin | components/LanguageSwitcher.tsx:18-26 | Splitting the join of separator-free segments gives back those segments. |
| Seqs.Filter | data/projects.ts:123 | `filter` keeps exactly the elements satisfying the predicate, each as often as before, as a subsequence. |
| Seqs.FilterCongruent | components/sections/ProjectsSection.tsx:26 | Two predicates that agree on every element filter to the same result. |
| Seqs.Find | data/projects.ts:131 | `find` gives `undefined` iff no element matches, and otherwise the first element that does. |
| Seqs.Dedupe | data/projects.ts:135 | `[...new Set(s)]` has no duplicates and holds exactly the elements of `s`. |
| Seqs.DedupeFirstOccurrenceOrder | data/projects.ts:135 | The elements of `[...new Set(s)]` come in the order of their first occurrences in `s`. |
| Seqs.Flatten | data/skills.ts:76 | `flat()` has the total length of the pieces. |
| Seqs.FlattenBlock | data/skills.ts:76 | Piece `i` sits in the flattened sequence right after the pieces before it. |
| Seqs.FlattenMembers | data/skills.ts:76 | An element is in the flattened sequence iff it is in one of the pieces. |

## Left out

- A sink call that throws, rather than returning `{ error }`, ends the handler's `try`: the email
  and the fallback are skipped and the answer is 500 (`Intake.ThrowStopsLaterSteps`,
  `Intake.StatusCodes`). Only an `{ error }` result is logged and passed over.
- zod's email regex is not modelled; it is the parameter `isEmail`.
- Lengths are counted in Dafny characters (Unicode scalar values). zod counts UTF-16 code units,
  so a string with characters outside the Basic Multilingual Plane can be counted differently.
- zod's error messages are not modelled. `flatten()` is modelled as one issue code per failing
  field and a form-level issue for a non-object body. zod can attach several messages to one
  field; the model keeps one.
- `NextResponse`, HTTP framing, `console` formatting and the error objects passed to
  `console.error` are left out. The trace keeps the log label and the logged record.
- The Supabase and Resend clients are opaque objects holding their constructor arguments.
  `createClient` or `new Resend` throwing is not modelled. What an insert or a send does remotely
  is not modelled either; only how the awaited call ends is a parameter.
- Each request runs on its own, and concurrency between requests is not modelled. There is no
  retry or outbox to model.
- `router.push` is navigation I/O and is left out. `locales` comes from the i18n configuration,
  which is not part of this model, so it is a parameter.
- LanguageSwitcher.SwitchedSegments, LanguageSwitcher.LastSwitchWins and
  LanguageSwitcher.SwitchIdempotent require a new locale without `/`. The last two also require
  the first locale to be one of `locales`, as every locale button's is. With a `/` in the locale,
  the join would create extra segments.
- LanguageSwitcher.SwitchLocale edits a local segment list held as a value. No other code sees the
  array, so in-place update and aliasing do not arise.
- ProjectsSection.EveryFilterShowsProjects requires a non-empty table, which the real table is:
  with no projects, the "all" button shows nothing.
- The rest of the interface is not modelled: markup, `categoryLabels`/`categoryColors`, animations
  (framer-motion, gsap, three.js), the loading screen, the form submit UI, the other sections and
  the configuration files. None of it holds decision logic beyond rendering.
- Optional project fields (`image`, `githubUrl`, `demoUrl`) and the long descriptions are kept in
  the table but used by no query.
