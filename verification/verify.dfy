/** The system-verification checklist of app/verify/page.tsx: nine uniquely
    named checks, each moved from pending to running and then to success or
    error by a single sequential run, updated by name, with counts and
    "all complete" / "all passed" derived from the list. Environment values
    and the outcomes of the storage and auth calls are parameters. */
module Verify {
  import opened Common

  datatype Status = Pending | Running | Success | Error

  /** One row of the checklist (its icon is left out). */
  datatype Check = Check(name: string, description: string, status: Status,
                         error: Option<string>, details: Option<string>)

  const Names: seq<string> := [
    "Environment Variables", "Database Connection", "Authentication Service",
    "Profiles Table", "Onboarding Table", "Opportunities Table", "AI Comments Table",
    "Email Service", "Sample Data"]

  const Descriptions: seq<string> := [
    "Check Supabase URL and API keys", "Test connection to Supabase", "Verify auth functionality",
    "Test user profiles table", "Test onboarding data table", "Test opportunities data table",
    "Test AI comments table", "Test Resend email integration", "Verify sample opportunities exist"]

  /** The four table checks run by the loop, each with the table it counts. */
  const TableProbes: seq<(string, string)> := [
    ("Profiles Table", "profiles"), ("Onboarding Table", "onboarding"),
    ("Opportunities Table", "opportunities"), ("AI Comments Table", "ai_comments")]

  /** The checklist holds the nine checks, in their order, with their
      descriptions. */
  predicate Catalogued(ts: seq<Check>)
  {
    |ts| == |Names| && forall i | 0 <= i < |ts| :: ts[i].name == Names[i] && ts[i].description == Descriptions[i]
  }

  /** The list the page starts with: every check pending, no error, no details. */
  function InitialChecks(): (ts: seq<Check>)
    ensures Catalogued(ts)
    ensures forall i | 0 <= i < |ts| :: ts[i].status == Pending && ts[i].error.None? && ts[i].details.None?
  {
    seq(|Names|, i requires 0 <= i < |Names| => Check(Names[i], Descriptions[i], Pending, None, None))
  }

  /** No two checks share a name, so an update by name touches one check. */
  lemma NamesDistinct()
    ensures forall i, j | 0 <= i < j < |Names| :: Names[i] != Names[j]
  {
  }

  /** The loop's i-th table check is the checklist's (3 + i)-th. */
  lemma TableProbesAreChecks()
    ensures |TableProbes| == 4
    ensures forall i | 0 <= i < 4 :: TableProbes[i].0 == Names[3 + i]
  {
  }

  // ---------------------------------------------------------------------
  // Updates on the list
  // ---------------------------------------------------------------------

  /** `updateTestStatus`'s map: every check named `name` gets the status,
      error and details; its name and description and every other check
      stay as they were. */
  function UpdatedByName(ts: seq<Check>, name: string, status: Status,
                         error: Option<string>, details: Option<string>): (r: seq<Check>)
    ensures |r| == |ts|
    ensures forall i | 0 <= i < |ts| ::
              r[i] == if ts[i].name == name then Check(ts[i].name, ts[i].description, status, error, details)
                      else ts[i]
  {
    if ts == [] then []
    else
      var head := if ts[0].name == name then ts[0].(status := status, error := error, details := details)
                  else ts[0];
      [head] + UpdatedByName(ts[1..], name, status, error, details)
  }

  /** On the catalogued list an update by a check's name changes that check
      alone. */
  lemma UpdateOne(ts: seq<Check>, k: nat, status: Status, error: Option<string>, details: Option<string>)
    requires Catalogued(ts) && k < |Names|
    ensures UpdatedByName(ts, Names[k], status, error, details)
            == ts[k := Check(Names[k], Descriptions[k], status, error, details)]
  {
    NamesDistinct();
    var r := UpdatedByName(ts, Names[k], status, error, details);
    forall i | 0 <= i < |ts|
      ensures r[i] == ts[k := Check(Names[k], Descriptions[k], status, error, details)][i]
    {
      if i != k {
        assert ts[i].name != Names[k] by {
          if i < k { assert Names[i] != Names[k]; } else { assert Names[k] != Names[i]; }
        }
      }
    }
  }

  /** The reset at the start of a run: every check pending, error and
      details cleared, names and descriptions kept. */
  function ResetAll(ts: seq<Check>): (r: seq<Check>)
    ensures |r| == |ts|
    ensures forall i | 0 <= i < |ts| ::
              r[i].name == ts[i].name && r[i].description == ts[i].description
              && r[i].status == Pending && r[i].error.None? && r[i].details.None?
  {
    if ts == [] then []
    else [ts[0].(status := Pending, error := None, details := None)] + ResetAll(ts[1..])
  }

  // ---------------------------------------------------------------------
  // The outcome of each check
  // ---------------------------------------------------------------------

  /** What a finished check records: its final status, an error message or
      details. */
  datatype Verdict = Verdict(status: Status, error: Option<string>, details: Option<string>)

  /** A finished check either passed with details and no error, or failed
      with an error message and no details. */
  predicate Final(v: Verdict)
  {
    (v.status == Success && v.error.None? && v.details.Some?)
    || (v.status == Error && v.error.Some? && v.details.None?)
  }

  /** The environment as the page reads it. */
  datatype Env = Env(supabaseUrl: Option<string>, supabaseAnonKey: Option<string>, resendApiKey: Option<string>)

  function Min(a: int, b: int): int { if a <= b then a else b }

  /** `s.substring(0, n)` for a non-negative `n`. */
  function Prefix(s: string, n: nat): (r: string)
    ensures |r| == Min(n, |s|) && r <= s
    ensures |s| <= n ==> r == s
  {
    s[..Min(n, |s|)]
  }

  /** Check 1: fails exactly when the storage URL or its public key is
      missing; on success the details show the URL's first 30 characters. */
  function EnvVerdict(env: Env): (v: Verdict)
    ensures Final(v)
    ensures v.status == Error <==> !Truthy(env.supabaseUrl) || !Truthy(env.supabaseAnonKey)
    ensures v.status == Error ==> v.error == Some("Missing Supabase environment variables")
    ensures v.status == Success ==> v.details == Some("URL: " + Prefix(env.supabaseUrl.value, 30) + "...")
  {
    if !Truthy(env.supabaseUrl) || !Truthy(env.supabaseAnonKey) then
      Verdict(Error, Some("Missing Supabase environment variables"), None)
    else
      Verdict(Success, None, Some("URL: " + Prefix(env.supabaseUrl.value, 30) + "..."))
  }

  /** The verdict of a `try { if (error) throw error; pass } catch (e) { fail(e.message) }`. */
  function Caught<T>(r: Response<T>, passed: string): (v: Verdict)
    ensures Final(v)
    ensures v.status == Success <==> r.Ok()
    ensures v.status == Success ==> v.details == Some(passed)
    ensures r.Responded? && r.error.Some? ==> v.error == r.error
    ensures r.Threw? ==> v.error == Some(r.message)
  {
    if r.Ok() then Verdict(Success, None, Some(passed)) else Verdict(Error, Some(r.FailureMessage()), None)
  }

  /** Check 2: the `profiles` count query; it passes iff the query replies
      without an error, with "Connected successfully". */
  function ConnectionVerdict(r: Response<()>): (v: Verdict)
    ensures Final(v)
    ensures v.status == Success <==> r.Ok()
    ensures r.Ok() ==> v.details == Some("Connected successfully")
    ensures !r.Ok() ==> v.error == Some(r.FailureMessage())
  {
    Caught(r, "Connected successfully")
  }

  /** Check 3: session retrieval; it passes iff the retrieval replies
      without an error, and the details then say whether a user is signed
      in. */
  function AuthVerdict(r: Response<()>, userSignedIn: bool): (v: Verdict)
    ensures Final(v)
    ensures v.status == Success <==> r.Ok()
    ensures r.Ok() && userSignedIn ==> v.details == Some("User logged in")
    ensures r.Ok() && !userSignedIn ==> v.details == Some("Service available")
    ensures !r.Ok() ==> v.error == Some(r.FailureMessage())
  {
    Caught(r, if userSignedIn then "User logged in" else "Service available")
  }

  /** Checks 4-7: a table's exact-count query; on success the details give
      the count, 0 when none came back. */
  function TableVerdict(r: Response<Option<nat>>): (v: Verdict)
    ensures Final(v)
    ensures v.status == Success <==> r.Ok()
    ensures r.Ok() ==> v.details == Some(Decimal(CountOrZero(r.data)) + " records")
    ensures !r.Ok() ==> v.error == Some(r.FailureMessage())
  {
    Caught(r, if r.Responded? then Decimal(CountOrZero(r.data)) + " records" else "")
  }

  /** Check 8: fails exactly when the e-mail provider's key is missing. */
  function EmailVerdict(env: Env): (v: Verdict)
    ensures Final(v)
    ensures v.status == Error <==> !Truthy(env.resendApiKey)
  {
    if !Truthy(env.resendApiKey) then Verdict(Error, Some("RESEND_API_KEY not found"), None)
    else Verdict(Success, None, Some("API key configured"))
  }

  /** Check 9: passes exactly when the query for up to three opportunities
      reports no error and returns at least one row (`data` is the number
      of rows, `None` for a null result); an empty answer fails with "No
      sample data found". */
  function SampleVerdict(r: Response<Option<nat>>): (v: Verdict)
    ensures Final(v)
    ensures v.status == Success <==> r.Ok() && r.data.Some? && r.data.value > 0
    ensures r.Ok() && v.status == Error ==> v.error == Some("No sample data found")
    ensures !r.Ok() ==> v.error == Some(r.FailureMessage())
  {
    if !r.Ok() then Verdict(Error, Some(r.FailureMessage()), None)
    else if r.data.Some? && r.data.value > 0 then
      Verdict(Success, None, Some(Decimal(r.data.value) + " sample opportunities found"))
    else Verdict(Error, Some("No sample data found"), None)
  }

  /** The outcomes of the calls a run makes, in the order it makes them;
      `tables` holds the four table queries of the loop. */
  datatype Replies = Replies(connection: Response<()>, session: Response<()>,
                             tables: seq<Response<Option<nat>>>, sample: Response<Option<nat>>)

  /** The verdict of every check after one run, in checklist order. Each
      table check depends only on its own query. */
  function Verdicts(env: Env, userSignedIn: bool, rs: Replies): (vs: seq<Verdict>)
    requires |rs.tables| == 4
    ensures |vs| == |Names|
    ensures forall k | 0 <= k < |vs| :: Final(vs[k])
    ensures forall i | 0 <= i < 4 :: vs[3 + i] == TableVerdict(rs.tables[i])
  {
    [EnvVerdict(env), ConnectionVerdict(rs.connection), AuthVerdict(rs.session, userSignedIn),
     TableVerdict(rs.tables[0]), TableVerdict(rs.tables[1]), TableVerdict(rs.tables[2]),
     TableVerdict(rs.tables[3]), EmailVerdict(env), SampleVerdict(rs.sample)]
  }

  /** Check `k` of the catalogue carrying the `k`-th verdict. */
  function Checked(vs: seq<Verdict>, k: nat): Check
    requires |vs| == |Names| && k < |Names|
  {
    Check(Names[k], Descriptions[k], vs[k].status, vs[k].error, vs[k].details)
  }

  /** A checklist whose every check carries its own verdict is the settled one. */
  lemma SettledFrom(ts: seq<Check>, vs: seq<Verdict>)
    requires |vs| == |Names| && |ts| == |Names|
    requires forall k | 0 <= k < |Names| :: ts[k] == Checked(vs, k)
    ensures ts == Settled(vs)
  {
  }

  /** The checklist once every check has its verdict. */
  function Settled(vs: seq<Verdict>): (ts: seq<Check>)
    requires |vs| == |Names|
    ensures Catalogued(ts)
    ensures forall k | 0 <= k < |ts| :: Verdict(ts[k].status, ts[k].error, ts[k].details) == vs[k]
    ensures |ts| == |Names| && forall k | 0 <= k < |ts| :: ts[k] == Checked(vs, k)
  {
    seq(|Names|, k requires 0 <= k < |Names| => Checked(vs, k))
  }

  /** One change of the checklist in a run: a call of `updateTestStatus`,
      as a status transition of one check, or the reset of every check to
      pending that starts the run. */
  datatype Transition = Transition(name: string, status: Status) | ResetToPending

  /** The two transitions of check `k` in a run: set running, then set to
      its verdict's status. */
  function CheckSteps(vs: seq<Verdict>, k: nat): seq<Transition>
    requires |vs| == |Names| && k < |Names|
  {
    [Transition(Names[k], Running), Transition(Names[k], vs[k].status)]
  }

  /** The transitions of the first `n` checks of a run, in order. */
  function TraceOfFirst(vs: seq<Verdict>, n: nat): (tr: seq<Transition>)
    requires |vs| == |Names| && n <= |Names|
    ensures |tr| == 2 * n
  {
    if n == 0 then [] else TraceOfFirst(vs, n - 1) + CheckSteps(vs, n - 1)
  }

  /** In the transitions of a run, check `k` is set running at position
      `2k` and to its verdict's status at position `2k + 1`. */
  lemma {:induction false} TraceOfFirstAt(vs: seq<Verdict>, n: nat, k: nat)
    requires |vs| == |Names| && k < n <= |Names|
    ensures TraceOfFirst(vs, n)[2 * k] == Transition(Names[k], Running)
    ensures TraceOfFirst(vs, n)[2 * k + 1] == Transition(Names[k], vs[k].status)
  {
    if k < n - 1 {
      TraceOfFirstAt(vs, n - 1, k);
    }
  }

  /** The transitions of one run: each check in turn is set running and then
      to its final status, and nothing else happens. */
  function RunTrace(vs: seq<Verdict>): seq<Transition>
    requires |vs| == |Names|
  {
    TraceOfFirst(vs, |Names|)
  }

  // ---------------------------------------------------------------------
  // Counts and the derived flags
  // ---------------------------------------------------------------------

  /** How many checks have status `st` (`tests.filter(...).length`). */
  function Count(ts: seq<Check>, st: Status): (n: nat)
    ensures n <= |ts|
  {
    if ts == [] then 0 else (if ts[0].status == st then 1 else 0) + Count(ts[1..], st)
  }

  function SuccessCount(ts: seq<Check>): nat { Count(ts, Success) }

  function ErrorCount(ts: seq<Check>): nat { Count(ts, Error) }

  /** The progress numerator: the checks whose status is success or error. */
  function CompletedCount(ts: seq<Check>): (n: nat)
    ensures n <= |ts|
  {
    if ts == [] then 0
    else (if ts[0].status == Success || ts[0].status == Error then 1 else 0) + CompletedCount(ts[1..])
  }

  /** `allTestsComplete` */
  predicate AllTestsComplete(ts: seq<Check>)
  {
    forall i | 0 <= i < |ts| :: ts[i].status == Success || ts[i].status == Error
  }

  /** The "Start Using" link: every check complete and every one passed. */
  predicate ShowStartUsing(ts: seq<Check>)
  {
    AllTestsComplete(ts) && SuccessCount(ts) == |ts|
  }

  /** The four statuses partition the list, so the "pending" figure the page
      shows, length minus passed minus failed, counts exactly the checks
      still pending or running. */
  lemma {:induction false} StatusPartition(ts: seq<Check>)
    ensures Count(ts, Pending) + Count(ts, Running) + Count(ts, Success) + Count(ts, Error) == |ts|
    ensures |ts| - SuccessCount(ts) - ErrorCount(ts) == Count(ts, Pending) + Count(ts, Running)
  {
    if ts != [] {
      StatusPartition(ts[1..]);
    }
  }

  /** The progress numerator is passed plus failed. */
  lemma {:induction false} CompletedIsPassedPlusFailed(ts: seq<Check>)
    ensures CompletedCount(ts) == SuccessCount(ts) + ErrorCount(ts)
  {
    if ts != [] {
      CompletedIsPassedPlusFailed(ts[1..]);
    }
  }

  /** Every check is complete exactly when the progress numerator reaches
      the list's length. */
  lemma {:induction false} AllCompleteIffFullProgress(ts: seq<Check>)
    ensures AllTestsComplete(ts) <==> CompletedCount(ts) == |ts|
  {
    if ts != [] {
      AllCompleteIffFullProgress(ts[1..]);
      assert AllTestsComplete(ts) <==> (ts[0].status == Success || ts[0].status == Error) && AllTestsComplete(ts[1..]) by {
        if AllTestsComplete(ts[1..]) {
          forall i | 0 <= i < |ts| && i > 0 ensures ts[i].status == Success || ts[i].status == Error {
            assert ts[i] == ts[1..][i - 1];
          }
        }
        if AllTestsComplete(ts) {
          forall i | 0 <= i < |ts[1..]| ensures ts[1..][i].status == Success || ts[1..][i].status == Error {
            assert ts[1..][i] == ts[i + 1];
          }
        }
      }
    }
  }

  /** As many passes as checks means every check passed, and back. */
  lemma {:induction false} AllPassedIffCount(ts: seq<Check>)
    ensures SuccessCount(ts) == |ts| <==> forall i | 0 <= i < |ts| :: ts[i].status == Success
  {
    if ts != [] {
      AllPassedIffCount(ts[1..]);
      if forall i | 0 <= i < |ts[1..]| :: ts[1..][i].status == Success {
        forall i | 0 <= i < |ts| && i > 0 ensures ts[i].status == Success {
          assert ts[i] == ts[1..][i - 1];
        }
      }
      if forall i | 0 <= i < |ts| :: ts[i].status == Success {
        forall i | 0 <= i < |ts[1..]| ensures ts[1..][i].status == Success {
          assert ts[1..][i] == ts[i + 1];
        }
      }
    }
  }

  /** The "Start Using" link appears exactly when every check passed. */
  lemma StartUsingIffAllPassed(ts: seq<Check>)
    ensures ShowStartUsing(ts) <==> forall i | 0 <= i < |ts| :: ts[i].status == Success
  {
    AllPassedIffCount(ts);
  }

  /** After a reset nothing is complete: no pass, no failure, no progress. */
  lemma ResetClearsProgress(ts: seq<Check>)
    ensures SuccessCount(ResetAll(ts)) == 0 && ErrorCount(ResetAll(ts)) == 0
    ensures CompletedCount(ResetAll(ts)) == 0
  {
    var r := ResetAll(ts);
    NoneWith(r, Success);
    NoneWith(r, Error);
    CompletedIsPassedPlusFailed(r);
  }

  /** A status no check has is counted zero times. */
  lemma {:induction false} NoneWith(ts: seq<Check>, st: Status)
    requires forall i | 0 <= i < |ts| :: ts[i].status != st
    ensures Count(ts, st) == 0
  {
    if ts != [] {
      assert forall i | 0 <= i < |ts[1..]| :: ts[1..][i] == ts[i + 1];
      NoneWith(ts[1..], st);
    }
  }

  /** After a run the checklist is complete, and the "Start Using" link
      shows exactly when every verdict is a pass. */
  lemma SettledIsComplete(vs: seq<Verdict>)
    requires |vs| == |Names| && forall k | 0 <= k < |vs| :: Final(vs[k])
    ensures AllTestsComplete(Settled(vs))
    ensures CompletedCount(Settled(vs)) == |Names|
    ensures ShowStartUsing(Settled(vs)) <==> forall k | 0 <= k < |vs| :: vs[k].status == Success
  {
    var ts := Settled(vs);
    assert forall k | 0 <= k < |ts| :: ts[k].status == vs[k].status;
    AllCompleteIffFullProgress(ts);
    StartUsingIffAllPassed(ts);
  }

  // ---------------------------------------------------------------------
  // The page
  // ---------------------------------------------------------------------

  /** The page's state: the checklist and the running flag. `trace` records
      every `updateTestStatus` call in order; it is an observation, not page
      state. */
  class VerifyPage {
    var tests: seq<Check>
    var isRunning: bool
    ghost var trace: seq<Transition>

    ghost predicate Valid()
      reads this
    {
      Catalogued(tests)
    }

    constructor ()
      ensures Valid() && tests == InitialChecks() && !isRunning && trace == []
    {
      tests := InitialChecks();
      isRunning := false;
      trace := [];
    }

    /** `updateTestStatus` */
    method UpdateTestStatus(name: string, status: Status, error: Option<string>, details: Option<string>)
      requires Valid()
      modifies this`tests, this`trace
      ensures Valid()
      ensures tests == UpdatedByName(old(tests), name, status, error, details)
      ensures trace == old(trace) + [Transition(name, status)]
    {
      tests := UpdatedByName(tests, name, status, error, details);
      trace := trace + [Transition(name, status)];
    }

    /** The reset that starts a run: every check pending, error and details
        cleared, recorded as one change. */
    method ResetTests()
      requires Valid()
      modifies this`tests, this`trace
      ensures Valid()
      ensures tests == ResetAll(old(tests))
      ensures trace == old(trace) + [ResetToPending]
    {
      tests := ResetAll(tests);
      trace := trace + [ResetToPending];
    }

    /** Sets check `k` to the given verdict by its name. */
    method Record(k: nat, v: Verdict)
      requires Valid() && k < |Names|
      modifies this`tests, this`trace
      ensures Valid()
      ensures tests == old(tests)[k := Check(Names[k], Descriptions[k], v.status, v.error, v.details)]
      ensures trace == old(trace) + [Transition(Names[k], v.status)]
    {
      UpdateOne(tests, k, v.status, v.error, v.details);
      UpdateTestStatus(Names[k], v.status, v.error, v.details);
    }

    /** Runs check `k`: running first, then its verdict. */
    method RunCheck(k: nat, v: Verdict)
      requires Valid() && k < |Names|
      modifies this`tests, this`trace
      ensures Valid()
      ensures tests == old(tests)[k := Check(Names[k], Descriptions[k], v.status, v.error, v.details)]
      ensures trace == old(trace) + [Transition(Names[k], Running), Transition(Names[k], v.status)]
    {
      Record(k, Verdict(Running, None, None));
      Record(k, v);
    }

    /** Checks 1 to 3: environment, database connection, auth service. */
    method RunServiceChecks(env: Env, userSignedIn: bool, connection: Response<()>, session: Response<()>,
                            ghost vs: seq<Verdict>, ghost t0: seq<Transition>)
      requires Valid() && |vs| == |Names| && trace == t0
      requires vs[0] == EnvVerdict(env) && vs[1] == ConnectionVerdict(connection)
      requires vs[2] == AuthVerdict(session, userSignedIn)
      modifies this`tests, this`trace
      ensures Valid()
      ensures forall k | 0 <= k < 3 :: tests[k] == Checked(vs, k)
      ensures forall k | 3 <= k < |Names| :: tests[k] == old(tests)[k]
      ensures trace == t0 + TraceOfFirst(vs, 3)
    {
      RunCheck(0, EnvVerdict(env));
      assert trace == t0 + TraceOfFirst(vs, 1);
      RunCheck(1, ConnectionVerdict(connection));
      assert trace == t0 + TraceOfFirst(vs, 2);
      RunCheck(2, AuthVerdict(session, userSignedIn));
    }

    /** The loop over the four table checks (checks 4 to 7): each is run by
        its name, and a failing query does not stop the ones after it. */
    method RunTableChecks(tables: seq<Response<Option<nat>>>, ghost vs: seq<Verdict>, ghost t0: seq<Transition>)
      requires Valid() && |tables| == 4 && |vs| == |Names|
      requires forall i | 0 <= i < 4 :: vs[3 + i] == TableVerdict(tables[i])
      requires trace == t0 + TraceOfFirst(vs, 3)
      modifies this`tests, this`trace
      ensures Valid()
      ensures forall k | 3 <= k < 7 :: tests[k] == Checked(vs, k)
      ensures forall k | 0 <= k < |Names| && !(3 <= k < 7) :: tests[k] == old(tests)[k]
      ensures trace == t0 + TraceOfFirst(vs, 7)
    {
      for i := 0 to 4
        invariant |tests| == |Names|
        invariant forall k | 0 <= k < |Names| :: tests[k] == if 3 <= k < 3 + i then Checked(vs, k) else old(tests)[k]
        invariant trace == t0 + TraceOfFirst(vs, 3 + i)
      {
        RunTableCheck(i, tables[i], vs, t0);
      }
    }

    /** One pass of the table loop: the `i`-th table's check, run by its
        name with the verdict of its own count query. */
    method RunTableCheck(i: nat, r: Response<Option<nat>>, ghost vs: seq<Verdict>, ghost t0: seq<Transition>)
      requires Valid() && i < |TableProbes| && |vs| == |Names| && vs[3 + i] == TableVerdict(r)
      requires trace == t0 + TraceOfFirst(vs, 3 + i)
      modifies this`tests, this`trace
      ensures Valid()
      ensures tests == old(tests)[3 + i := Checked(vs, 3 + i)]
      ensures trace == t0 + TraceOfFirst(vs, 3 + i + 1)
    {
      TableProbesAreChecks();
      var (name, _) := TableProbes[i];
      assert name == Names[3 + i];
      RunCheck(3 + i, TableVerdict(r));
    }

    /** Checks 8 and 9: the e-mail key and the sample opportunities. */
    method RunFinalChecks(env: Env, sample: Response<Option<nat>>, ghost vs: seq<Verdict>, ghost t0: seq<Transition>)
      requires Valid() && |vs| == |Names| && trace == t0 + TraceOfFirst(vs, 7)
      requires vs[7] == EmailVerdict(env) && vs[8] == SampleVerdict(sample)
      modifies this`tests, this`trace
      ensures Valid()
      ensures forall k | 7 <= k < |Names| :: tests[k] == Checked(vs, k)
      ensures forall k | 0 <= k < 7 :: tests[k] == old(tests)[k]
      ensures trace == t0 + RunTrace(vs)
    {
      RunCheck(7, EmailVerdict(env));
      assert trace == t0 + TraceOfFirst(vs, 8);
      RunCheck(8, SampleVerdict(sample));
    }

    /** The nine checks of a run, one after the other, each ending at its
        own verdict. */
    method RunChecks(env: Env, userSignedIn: bool, rs: Replies, ghost vs: seq<Verdict>, ghost t0: seq<Transition>)
      requires Valid() && |rs.tables| == 4 && |vs| == |Names| && trace == t0
      requires vs[0] == EnvVerdict(env) && vs[1] == ConnectionVerdict(rs.connection)
      requires vs[2] == AuthVerdict(rs.session, userSignedIn)
      requires forall i | 0 <= i < 4 :: vs[3 + i] == TableVerdict(rs.tables[i])
      requires vs[7] == EmailVerdict(env) && vs[8] == SampleVerdict(rs.sample)
      modifies this`tests, this`trace
      ensures Valid()
      ensures tests == Settled(vs)
      ensures trace == t0 + RunTrace(vs)
    {
      RunServiceChecks(env, userSignedIn, rs.connection, rs.session, vs, t0);
      RunTableChecks(rs.tables, vs, t0);
      RunFinalChecks(env, rs.sample, vs, t0);
      SettledFrom(tests, vs);
    }

    /** `runVerification`: reset every check, then run the nine checks one
        after the other, none stopping the ones after it. Afterwards each
        check holds its own verdict; the run's changes were the reset of
        every check to pending followed by, check after check, running and
        then that verdict; nothing is pending or running; the run is over. */
    method RunVerification(env: Env, userSignedIn: bool, rs: Replies)
      requires Valid() && |rs.tables| == 4
      modifies this`tests, this`trace, this`isRunning
      ensures Valid() && !isRunning
      ensures tests == Settled(Verdicts(env, userSignedIn, rs))
      ensures trace == old(trace) + [ResetToPending] + RunTrace(Verdicts(env, userSignedIn, rs))
      ensures AllTestsComplete(tests)
    {
      ghost var vs := Verdicts(env, userSignedIn, rs);
      isRunning := true;
      ResetTests();
      RunChecks(env, userSignedIn, rs, vs, trace);
      isRunning := false;
      SettledIsComplete(vs);
    }
  }
}
