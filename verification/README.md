# Convrt.ai onboarding and diagnostics: a Dafny model

This project models the stateful core of the Convrt.ai web application: the
four-step onboarding wizard, the nine-check system verification page, the
table probe page, the connection test page, and two HTTP endpoints. One is
the welcome e-mail endpoint. The other is the auth callback that trades a
sign-in code for a session.

Every call into the storage service, the auth service or the e-mail
provider is left out. Its outcome is a parameter of the operation that
makes it: `Response<T>` is either a reply `Responded(error, data)` or an
exception `Threw(message)`. Environment variables are parameters too. The
pages' state objects are classes whose methods change their fields. The two
endpoints are pure functions from the request and the call outcomes to the
answer.

Files:

- `common.dfy` (`Common`): optional values and JavaScript truthiness
  (`x || y`, `x || "fallback"`), call outcomes, e-mail requests, and the
  decimal rendering of counts with its round trip.
- `onboarding.dfy` (`Onboarding`): the form, the platform toggle, the
  completion record and e-mail, the wizard's buttons, and the `Wizard` class.
- `verify.dfy` (`Verify`): the checklist and its updates by name, the verdict
  of each check, the counts and derived flags, and the `VerifyPage` class
  whose run is proved to leave each check at its own verdict.
- `database_test.dfy` (`DatabaseTest`): the four table entries and the
  probing loop.
- `test_connection.dfy` (`TestConnection`): the connection status record and
  its run.
- `send_welcome_email.dfy` (`SendWelcomeEmail`) and `auth_callback.dfy`
  (`AuthCallback`): the two route handlers.

The auth callback reads as always ending in a redirect, but
`exchangeCodeForSession` is not inside any `try`. An exception it throws
therefore escapes the handler, and no redirect is produced. The model
follows the code as written: `AuthCallback.Get` answers `Unhandled` then.

## Model

| member | source | states |
|---|---|---|
| Common.Decimal | app/verify/page.tsx:165 | A count renders as a non-empty string of decimal digits, with no leading zero except for 0 itself |
| Common.DecimalRoundTrip | app/verify/page.tsx:165 | Reading the rendered digits back gives the count, so the "N records" detail carries the exact count |
| Common.DecimalInjective | app/verify/page.tsx:165 | Different counts render differently |
| Common.Or | app/test-connection/page.tsx:88 | JavaScript's `or` of two optional strings is the first operand when it is non-empty and the second otherwise, so it is truthy iff either operand is |
| Common.CountOrZero | app/verify/page.tsx:165 | `count || 0`: the count when one came back, otherwise 0 (also app/database-test/page.tsx:48) |
| Common.OrElse | app/onboarding/page.tsx:72 | JavaScript's `or` with a fallback string gives the value when it is non-empty and the fallback otherwise |
| Onboarding.With | app/onboarding/page.tsx:155-260 | Editing one form field sets that field and leaves every other field and the platform list unchanged |
| Onboarding.RemoveAll | app/onboarding/page.tsx:100 | Filtering out a platform keeps exactly the other elements, with their multiplicities and in their order |
| Onboarding.Toggle | app/onboarding/page.tsx:96-103 | The platform is selected afterwards iff it was not before; an absent platform is appended at the end; the rest of the list is unaffected; a duplicate-free list stays duplicate-free |
| Onboarding.ToggleKeepsOthers | app/onboarding/page.tsx:96-103 | A toggle does not change how often any other platform occurs |
| Onboarding.ToggleTwiceSameSelection | app/onboarding/page.tsx:96-103 | Toggling twice gives back the same set of platforms, and the same multiset on a duplicate-free list |
| Onboarding.ToggleTwiceSequence | app/onboarding/page.tsx:96-103 | On a duplicate-free list, toggling twice moves a selected platform to the end, and it restores the exact list iff the platform was absent or already last |
| Onboarding.NewRecord | app/onboarding/page.tsx:54-66 | The inserted row has the fresh id, the user's id, every form field copied and `is_completed` set |
| Onboarding.CompletionEmail | app/onboarding/page.tsx:72 | The completion e-mail goes to the profile's address and greets the full name when it is non-empty, otherwise "there" |
| Onboarding.NextButtonFor | app/onboarding/page.tsx:332-333 | The Next button is enabled iff not loading; its label is "Setting up..." iff loading, "Complete Setup" iff idle on step 4, and "Next" otherwise |
| Onboarding.Wizard.constructor | app/onboarding/page.tsx:18-29 | The wizard starts on step 1 with the initial form, not loading |
| Onboarding.Wizard.ClickBack | app/onboarding/page.tsx:329 | Back does nothing on step 1 and otherwise goes one step back; the step stays within 1 to 4 |
| Onboarding.Wizard.BackEnabled | app/onboarding/page.tsx:329 | The Back button is enabled exactly off step 1 |
| Onboarding.Wizard.SetField | app/onboarding/page.tsx:155-260 | An input edit changes its own field only |
| Onboarding.Wizard.TogglePlatform | app/onboarding/page.tsx:96-103 | A platform card click toggles that platform; the selection stays duplicate-free |
| Onboarding.Wizard.HandleNext | app/onboarding/page.tsx:40-46 | Steps 1 to 3 advance by one and change nothing else; step 4 stays on step 4 and runs the completion with its effects |
| Onboarding.Wizard.HandleComplete | app/onboarding/page.tsx:48-94 | Without a user or profile nothing happens. Otherwise exactly one row built from the form is inserted. On insert failure there is no e-mail and no navigation. On success the completion e-mail is requested and the page goes to /dashboard whatever the e-mail outcome. Loading ends off |
| Verify.InitialChecks | app/verify/page.tsx:36-91 | The checklist starts with the nine named, described checks, all pending with no error or details |
| Verify.NamesDistinct | app/verify/page.tsx:36-91 | The nine check names are pairwise distinct |
| Verify.TableProbesAreChecks | app/verify/page.tsx:150-155 | The loop's four table checks are checks 4 to 7 of the checklist, in order |
| Verify.UpdatedByName | app/verify/page.tsx:101-103 | An update by name sets status, error and details on the checks with that name and leaves all others unchanged |
| Verify.UpdateOne | app/verify/page.tsx:101-103 | On the checklist, an update by a check's name changes that check alone |
| Verify.ResetAll | app/verify/page.tsx:108-109 | The reset makes every check pending with no error or details, keeping names and descriptions |
| Verify.Prefix | app/verify/page.tsx:122 | `substring(0, n)` yields the prefix of exactly min(n, length) characters |
| Verify.EnvVerdict | app/verify/page.tsx:115-123 | The environment check fails iff the storage URL or key is missing, with the stated message; on success its details show the URL's first 30 characters |
| Verify.Caught | app/verify/page.tsx:129-135 | A check around a call passes iff the call replied without error; a reported error or a thrown exception becomes the check's error message |
| Verify.ConnectionVerdict | app/verify/page.tsx:125-135 | The connection check passes iff the profiles query replied without error, with details "Connected successfully"; otherwise it fails with the reported or thrown message |
| Verify.AuthVerdict | app/verify/page.tsx:137-147 | The auth check passes iff the session call replied without error, with details "User logged in" when a user is signed in and "Service available" otherwise; otherwise it fails with the reported or thrown message |
| Verify.TableVerdict | app/verify/page.tsx:157-169 | A table check passes iff its count query replied without error, with details the count (zero when absent) followed by " records"; otherwise it fails with the reported or thrown message |
| Verify.EmailVerdict | app/verify/page.tsx:171-179 | The e-mail check fails iff the provider key is missing |
| Verify.SampleVerdict | app/verify/page.tsx:181-196 | The sample check passes iff the query succeeded and returned at least one row; an empty result fails with "No sample data found"; a failure carries its message |
| Verify.Verdicts | app/verify/page.tsx:105-199 | Every check of a run ends with a final verdict, and each table check depends only on its own query |
| Verify.Settled | app/verify/page.tsx:105-199 | The settled checklist is the catalogue with each check carrying its own verdict |
| Verify.TraceOfFirst | app/verify/page.tsx:105-199 | The first n checks of a run make exactly 2n status updates |
| Verify.TraceOfFirstAt | app/verify/page.tsx:112-195 | Each check is set running and then set to its verdict, in checklist order |
| Verify.Count | app/verify/page.tsx:227-228 | A status count never exceeds the number of checks |
| Verify.SuccessCount | app/verify/page.tsx:227 | `successCount`: the number of checks whose status is success |
| Verify.ErrorCount | app/verify/page.tsx:228 | `errorCount`: the number of checks whose status is error |
| Verify.CompletedCount | app/verify/page.tsx:96-99 | The progress numerator never exceeds the number of checks |
| Verify.AllTestsComplete | app/verify/page.tsx:229 | `allTestsComplete`: every check's status is success or error |
| Verify.ShowStartUsing | app/verify/page.tsx:294 | The "Start Using" link's condition: every check complete and `successCount` equal to the number of checks |
| Verify.StatusPartition | app/verify/page.tsx:254 | The four statuses partition the list, so the "pending" figure counts exactly the pending or running checks |
| Verify.CompletedIsPassedPlusFailed | app/verify/page.tsx:97 | The progress numerator equals passed plus failed |
| Verify.AllCompleteIffFullProgress | app/verify/page.tsx:229 | All checks are complete iff progress has reached the number of checks |
| Verify.AllPassedIffCount | app/verify/page.tsx:245 | "N/N tests passed" holds iff every check passed |
| Verify.StartUsingIffAllPassed | app/verify/page.tsx:294 | The "Start Using" link is shown iff every check passed |
| Verify.ResetClearsProgress | app/verify/page.tsx:108-109 | After the reset nothing has passed or failed and progress is zero |
| Verify.NoneWith | app/verify/page.tsx:227-228 | A status no check has is counted zero times |
| Verify.SettledIsComplete | app/verify/page.tsx:198 | After a run every check is complete, progress is full, and the link shows iff every verdict is a pass |
| Verify.VerifyPage.constructor | app/verify/page.tsx:36-94 | The page starts with the initial checklist and not running |
| Verify.VerifyPage.UpdateTestStatus | app/verify/page.tsx:101-103 | The checklist becomes its update by name and one transition is recorded |
| Verify.VerifyPage.ResetTests | app/verify/page.tsx:108-109 | The reset sets every check pending and clears error and details, and is recorded as one change |
| Verify.VerifyPage.Record | app/verify/page.tsx:101-103 | Setting a check by its name changes that check alone |
| Verify.VerifyPage.RunCheck | app/verify/page.tsx:125-135 | A check is set running and then to its verdict, and no other check changes |
| Verify.VerifyPage.RunServiceChecks | app/verify/page.tsx:111-147 | Checks 1 to 3 end with their verdicts, the others are untouched, and the transitions are in order |
| Verify.VerifyPage.RunTableChecks | app/verify/page.tsx:149-169 | The loop gives each table check its own verdict; a failing table does not stop the later ones |
| Verify.VerifyPage.RunTableCheck | app/verify/page.tsx:157-169 | One pass of the table loop runs the table's check to its verdict, changes no other check, and records running then the verdict |
| Verify.VerifyPage.RunFinalChecks | app/verify/page.tsx:171-196 | Checks 8 and 9 end with their verdicts and the earlier checks are untouched |
| Verify.VerifyPage.RunChecks | app/verify/page.tsx:111-196 | The nine checks run in order, each ending with its own verdict, the transitions recorded check after check |
| Verify.VerifyPage.RunVerification | app/verify/page.tsx:105-199 | After a run, each check holds its own verdict. The run's changes were the reset of every check to pending, then for each check in order, running and then its verdict. All checks are complete and the page is not running |
| DatabaseTest.InitialTables | app/database-test/page.tsx:19-24 | The page starts with the four tables, all loading, with no count or error |
| DatabaseTest.Probed | app/database-test/page.tsx:38-66 | A probed entry succeeds iff the query replied without error. A reply sets the count (0 when none) and the error. A throw fails the entry with its message and keeps the old count. The name never changes and the entry is no longer loading |
| DatabaseTest.ProbedByName | app/database-test/page.tsx:42-53 | The update by name probes the matching entries and leaves the others unchanged |
| DatabaseTest.ProbeOne | app/database-test/page.tsx:42-65 | On the four listed tables a probe by name changes that table's entry alone |
| DatabaseTest.DatabaseTestPage.constructor | app/database-test/page.tsx:19-24 | The page starts with the initial table list |
| DatabaseTest.DatabaseTestPage.TestAllTables | app/database-test/page.tsx:30-68 | Each table is probed with its own outcome whatever happened before; afterwards all tables work iff every query replied without error |
| DatabaseTest.AllTablesWorking | app/database-test/page.tsx:92 | `allTablesWorking`: every table entry's status is success |
| TestConnection.EnvStatus | app/test-connection/page.tsx:43 | The environment status is success iff both URL and key are non-empty |
| TestConnection.DatabaseStatus | app/test-connection/page.tsx:85 | The database fails iff any of the three queries reported an error |
| TestConnection.FirstErrorMessage | app/test-connection/page.tsx:88 | The recorded error is the first non-empty message of the three queries, in query order |
| TestConnection.FirstThrow | app/test-connection/page.tsx:67-109 | The exception that ends the `try` is the first thrown in call order; none is caught iff no call throws |
| TestConnection.Attempted | app/test-connection/page.tsx:67-109 | The calls made are those up to and including the first that throws, or all of them when none throws |
| TestConnection.FirstThrownInOrder | app/test-connection/page.tsx:67-109 | The exception ending the `try` is the first thrown among the profiles, onboarding and opportunities queries and the session call, in that order |
| TestConnection.CallsMadeInOrder | app/test-connection/page.tsx:67-109 | The calls made are the prefix of profiles, onboarding, opportunities, session that ends at the first throw |
| TestConnection.ConnectionPage.RunCalls | app/test-connection/page.tsx:67-109 | The queries run in order, each recorded as a call, stopping at the first throw; a throw fails both services with its message, otherwise database, auth and error come from the replies; the database result is set while auth is still loading; nothing is left loading and the environment details are kept |
| TestConnection.ConnectionPage.constructor | app/test-connection/page.tsx:11-25 | The record starts all loading with empty details |
| TestConnection.ConnectionPage.FailBoth | app/test-connection/page.tsx:99-109 | The `catch`: database and auth fail, the exception's message becomes the recorded error, and the rest of the details is kept |
| TestConnection.ConnectionPage.TestConnection | app/test-connection/page.tsx:31-110 | The record is first set to all loading with no details, then to the environment status and details from the environment. An incomplete environment fails both services with "Missing environment variables" and makes no call. Otherwise the calls are made in order up to the first that throws, which fails both services with its message. With no throw, the database and auth statuses and the error come from the replies, and auth is still loading in the record set while the session is awaited. Nothing is left loading |
| SendWelcomeEmail.Post | app/api/send-welcome-email/route.ts:4-23 | An unreadable body gives 500 "Internal server error". A missing or empty field gives 400 and no send. Otherwise the welcome e-mail is sent to the body's address and name, answering 200 iff the provider succeeded and 500 "Failed to send email" if not |
| SendWelcomeEmail.EmptyBodyRefused | app/api/send-welcome-email/route.ts:8-10 | An empty object is refused with 400 and nothing is sent |
| SendWelcomeEmail.DeliveryOnlyAffectsReply | app/api/send-welcome-email/route.ts:12-18 | The provider's outcome changes only the answer to a complete body, never what is sent |
| SendWelcomeEmail.Complete | app/api/send-welcome-email/route.ts:8 | A body passes the guard iff it has a non-empty address and a non-empty name |
| AuthCallback.RedirectTarget | app/api/auth/callback/route.ts:10 | The redirect target is `next` when non-empty, and "/onboarding" otherwise |
| AuthCallback.Get | app/api/auth/callback/route.ts:7-34 | The code is exchanged iff it is non-empty. The welcome e-mail is requested iff the exchange gave no error and a user with an address, greeting the full name or "there". The answer redirects to the target unless the exchange threw |
| AuthCallback.NoCodeNoExchange | app/api/auth/callback/route.ts:12-30 | Without a code, the exchange's outcome is irrelevant: nothing is exchanged or sent and the request is redirected |
| AuthCallback.WelcomesUser | app/api/auth/callback/route.ts:18-22 | The welcome guard: the exchange reported no error and gave a user with a non-empty address |

## Left out

- The storage, auth and e-mail SDKs (`lib/supabase.ts`, `lib/resend.ts`) are not part of this model. Their outcomes are parameters. The e-mail wrappers are taken to report failure as a result rather than throw.
- The HTML e-mail templates and every rendered element: icons, badges, toasts, spinners and step indicators.
- The floating-point progress percentage (`completed / length * 100`). Only its numerator, `Verify.CompletedCount`, is modelled.
- The `setTimeout` delays between checks, and any interleaving of asynchronous handlers. Each handler is one sequential run.
- `crypto.randomUUID()`: the row id is a parameter of `Onboarding.Wizard.HandleComplete`.
- The onboarding page's redirect of signed-out visitors to `/auth/login`, and its loading placeholder.
- URL parsing and resolution with `new URL(...)`: the callback's code and `next` arrive as optional strings, and the redirect carries the target path unresolved.
- JSON field values other than strings in the welcome e-mail request body.
- TestConnection.ConnectionPage.TestConnection: `shown` lists every value the record is set to, not the frames drawn. React batches the updates made before the first `await` into one render, so the all-loading value is set but never drawn on its own.
- Verify.Prefix: counts Dafny characters, not UTF-16 code units as JavaScript's `substring` does.
- Onboarding.Wizard.HandleNext: the Next button's `disabled` guard is not part of the method. The class invariant keeps loading off between handlers, so the guard never blocks.
- Common.Decimal: counts are unbounded integers written as plain digits; JavaScript writes numbers from 1e21 up in exponent form, which the model does not.
- The dashboard and landing pages and the auth provider are not part of this model.
