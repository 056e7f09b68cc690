/** The connection test of app/test-connection/page.tsx: a status record for
    the environment, the database and the auth service, filled in by one
    sequential run that stops early when the environment is incomplete and
    otherwise queries three tables and the session. Environment values and
    the outcomes of the calls are parameters. */
module TestConnection {
  import opened Common

  datatype Status = Loading | Success | Error

  /** The record's `details`: the URL shown (or "Missing"), whether the
      public key is present, and an error message. */
  datatype Details = Details(supabaseUrl: Option<string>, hasAnonKey: Option<bool>, error: Option<string>)

  const NoDetails := Details(None, None, None)

  /** The environment is usable exactly when both the storage URL and its
      public key are present and non-empty. */
  function EnvStatus(url: Option<string>, anonKey: Option<string>): (s: Status)
    ensures s != Loading
    ensures s == Success <==> Truthy(url) && Truthy(anonKey)
  {
    if Truthy(url) && Truthy(anonKey) then Success else Error
  }

  /** The database is failing exactly when any of the three table queries
      reported an error. */
  function DatabaseStatus(profiles: Option<string>, onboarding: Option<string>, opportunities: Option<string>): (s: Status)
    ensures s != Loading
    ensures s == Error <==> profiles.Some? || onboarding.Some? || opportunities.Some?
  {
    if profiles.Some? || onboarding.Some? || opportunities.Some? then Error else Success
  }

  /** `profilesError?.message || onboardingError?.message ||
      opportunitiesError?.message`: the first non-empty message in that
      order; when there is none, the last query's message as it is. */
  function FirstErrorMessage(profiles: Option<string>, onboarding: Option<string>, opportunities: Option<string>): (m: Option<string>)
    ensures Truthy(m) <==> Truthy(profiles) || Truthy(onboarding) || Truthy(opportunities)
    ensures Truthy(profiles) ==> m == profiles
    ensures !Truthy(profiles) && Truthy(onboarding) ==> m == onboarding
    ensures !Truthy(profiles) && !Truthy(onboarding) ==> m == opportunities
  {
    Or(Or(profiles, onboarding), opportunities)
  }

  /** The message of the first call, in the order they are made, that
      throws; the calls after it are never made. `None` when none throws. */
  function FirstThrow(calls: seq<Response<()>>): (m: Option<string>)
    ensures m.None? <==> forall i | 0 <= i < |calls| :: !calls[i].Threw?
    ensures m.Some? ==> exists i | 0 <= i < |calls| ::
              calls[i] == Threw(m.value) && forall j | 0 <= j < i :: !calls[j].Threw?
  {
    if calls == [] then None
    else if calls[0].Threw? then Some(calls[0].message)
    else
      var m := FirstThrow(calls[1..]);
      if m.Some? then
        ghost var i :| 0 <= i < |calls[1..]| && calls[1..][i] == Threw(m.value)
                       && forall j | 0 <= j < i :: !calls[1..][j].Threw?;
        assert calls[i + 1] == Threw(m.value);
        assert forall j | 0 <= j < i + 1 :: !calls[j].Threw? by {
          forall j | 0 <= j < i + 1 ensures !calls[j].Threw? {
            if j > 0 { assert calls[j] == calls[1..][j - 1]; }
          }
        }
        m
      else
        assert forall i | 0 <= i < |calls| :: !calls[i].Threw? by {
          forall i | 0 <= i < |calls| ensures !calls[i].Threw? {
            if i > 0 { assert calls[i] == calls[1..][i - 1]; }
          }
        }
        m
  }

  /** The calls of a run after the environment check, in the order they are
      made: the three table queries, then the session retrieval. */
  const Calls: seq<string> := ["profiles", "onboarding", "opportunities", "session"]

  /** How many of the calls are made: every one up to and including the
      first that throws, or all of them when none does. */
  function Attempted(calls: seq<Response<()>>): (n: nat)
    ensures n <= |calls|
    ensures forall i | 0 <= i < n - 1 :: !calls[i].Threw?
    ensures n < |calls| ==> 0 < n && calls[n - 1].Threw?
    ensures FirstThrow(calls).None? ==> n == |calls|
  {
    if calls == [] then 0
    else if calls[0].Threw? then 1
    else
      var m := Attempted(calls[1..]);
      assert forall i | 0 <= i < m :: !calls[i].Threw? by {
        forall i | 0 <= i < m ensures !calls[i].Threw? {
          if i > 0 { assert calls[i] == calls[1..][i - 1]; }
        }
      }
      1 + m
  }

  /** Unfolds `Attempted` by one call. */
  lemma AttemptedCons(c: Response<()>, rest: seq<Response<()>>)
    ensures Attempted([c] + rest) == if c.Threw? then 1 else 1 + Attempted(rest)
  {
    assert ([c] + rest)[1..] == rest;
  }

  /** Unfolds `FirstThrow` by one call. */
  lemma FirstThrowCons(c: Response<()>, rest: seq<Response<()>>)
    ensures FirstThrow([c] + rest) == if c.Threw? then Some(c.message) else FirstThrow(rest)
  {
    assert ([c] + rest)[1..] == rest;
  }

  /** One value the `connectionStatus` record is set to. */
  datatype ConnectionStatus = ConnectionStatus(envVars: Status, database: Status, auth: Status, details: Details)

  /** The four calls of a run, case by case: the message of the first that
      throws, if any. `FirstThrow` says the same of any list of calls; this
      spelled-out copy keeps the page's proof small, and
      `FirstThrownInOrder` shows the two agree. */
  function FirstThrown(profiles: Response<()>, onboarding: Response<()>,
                       opportunities: Response<()>, session: Response<()>): Option<string>
  {
    if profiles.Threw? then Some(profiles.message)
    else if onboarding.Threw? then Some(onboarding.message)
    else if opportunities.Threw? then Some(opportunities.message)
    else if session.Threw? then Some(session.message)
    else None
  }

  /** The four calls of a run, case by case: those made, in order. The
      spelled-out counterpart of `Calls[..Attempted(...)]`, which
      `CallsMadeInOrder` shows it equals. */
  function CallsMade(profiles: Response<()>, onboarding: Response<()>,
                     opportunities: Response<()>, session: Response<()>): seq<string>
  {
    if profiles.Threw? then ["profiles"]
    else if onboarding.Threw? then ["profiles", "onboarding"]
    else if opportunities.Threw? then ["profiles", "onboarding", "opportunities"]
    else Calls
  }

  /** The case-by-case exception of a run is the first in call order. */
  lemma FirstThrownInOrder(profiles: Response<()>, onboarding: Response<()>,
                           opportunities: Response<()>, session: Response<()>)
    ensures FirstThrown(profiles, onboarding, opportunities, session)
            == FirstThrow([profiles, onboarding, opportunities, session])
  {
    FirstThrowCons(session, []);
    FirstThrowCons(opportunities, [session]);
    FirstThrowCons(onboarding, [opportunities, session]);
    FirstThrowCons(profiles, [onboarding, opportunities, session]);
  }

  /** The case-by-case calls of a run are those up to and including the
      first that throws. */
  lemma CallsMadeInOrder(profiles: Response<()>, onboarding: Response<()>,
                         opportunities: Response<()>, session: Response<()>)
    ensures CallsMade(profiles, onboarding, opportunities, session)
            == Calls[..Attempted([profiles, onboarding, opportunities, session])]
  {
    AttemptedCons(profiles, [onboarding, opportunities, session]);
    if !profiles.Threw? {
      AttemptedCons(onboarding, [opportunities, session]);
      if !onboarding.Threw? {
        AttemptedCons(opportunities, [session]);
        if !opportunities.Threw? {
          AttemptedCons(session, []);
          assert Attempted([]) == 0;
        }
      }
    }
  }

  /** The page's state: the `connectionStatus` record. `shown` records, in
      order, every value the record is set to, and `called` every call made
      to the storage or auth service; they are observations, not page
      state. */
  class ConnectionPage {
    var envVars: Status
    var database: Status
    var auth: Status
    var details: Details
    ghost var shown: seq<ConnectionStatus>
    ghost var called: seq<string>

    function Current(): ConnectionStatus
      reads this
    {
      ConnectionStatus(envVars, database, auth, details)
    }

    constructor ()
      ensures envVars == Loading && database == Loading && auth == Loading && details == NoDetails
      ensures shown == [] && called == []
    {
      envVars, database, auth, details := Loading, Loading, Loading, NoDetails;
      shown, called := [], [];
    }

    /** The `catch` of a run: both services fail and the exception's message
        is recorded. */
    method FailBoth(message: string)
      modifies this`database, this`auth, this`details, this`shown
      ensures database == Error && auth == Error
      ensures details == old(details).(error := Some(message))
      ensures shown == old(shown) + [Current()]
    {
      database, auth := Error, Error;
      details := details.(error := Some(message));
      shown := shown + [Current()];
    }

    /** The `try` of a run: the profiles, onboarding and opportunities
        queries, then the database status and error, then the session
        retrieval and the auth status. The first call that throws ends it,
        and the calls after it are not made. */
    method RunCalls(profiles: Response<()>, onboarding: Response<()>,
                    opportunities: Response<()>, session: Response<()>)
      modifies this`database, this`auth, this`details, this`shown, this`called
      ensures details.supabaseUrl == old(details.supabaseUrl) && details.hasAnonKey == old(details.hasAnonKey)
      ensures FirstThrown(profiles, onboarding, opportunities, session).Some? ==>
                database == Error && auth == Error
                && details.error == FirstThrown(profiles, onboarding, opportunities, session)
      ensures FirstThrown(profiles, onboarding, opportunities, session).None? ==>
                database == DatabaseStatus(profiles.error, onboarding.error, opportunities.error)
                && details.error == FirstErrorMessage(profiles.error, onboarding.error, opportunities.error)
                && (auth == Error <==> session.error.Some?)
      ensures database != Loading && auth != Loading
      ensures |shown| > |old(shown)| && old(shown) <= shown && shown[|shown| - 1] == Current()
      ensures !profiles.Threw? && !onboarding.Threw? && !opportunities.Threw? ==>
                shown[|old(shown)|].auth == old(auth)
      ensures called == old(called) + CallsMade(profiles, onboarding, opportunities, session)
    {
      called := called + ["profiles"];
      if profiles.Threw? {
        FailBoth(profiles.message);
        return;
      }
      called := called + ["onboarding"];
      if onboarding.Threw? {
        FailBoth(onboarding.message);
        return;
      }
      called := called + ["opportunities"];
      if opportunities.Threw? {
        FailBoth(opportunities.message);
        return;
      }
      database := DatabaseStatus(profiles.error, onboarding.error, opportunities.error);
      details := details.(error := FirstErrorMessage(profiles.error, onboarding.error, opportunities.error));
      shown := shown + [Current()];

      called := called + ["session"];
      if session.Threw? {
        FailBoth(session.message);
        return;
      }
      auth := if session.error.Some? then Error else Success;
      shown := shown + [Current()];
    }

    /** `testConnection`. Every status is first set loading and the details
        cleared, and the record is set so. The environment status and the
        URL and key details come from the environment alone, and are set
        while database and auth are still loading. An incomplete environment
        fails the database and auth with "Missing environment variables" and
        no call is made. Otherwise the profiles, onboarding and opportunities
        queries and then the session retrieval are made in that order, up to
        the first that throws: if one throws, both services fail with its
        message; if none does, the database fails exactly when a query
        reported an error, the recorded error is the first message among
        them, and auth, still loading while the session is retrieved, fails
        exactly when the retrieval reported one. No status is left loading,
        and the last record set is the final one. */
    method TestConnection(url: Option<string>, anonKey: Option<string>,
                          profiles: Response<()>, onboarding: Response<()>,
                          opportunities: Response<()>, session: Response<()>)
      modifies this
      ensures envVars == EnvStatus(url, anonKey)
      ensures details.supabaseUrl == Some(OrElse(url, "Missing"))
      ensures details.hasAnonKey == Some(Truthy(anonKey))
      ensures envVars == Error ==>
                database == Error && auth == Error && details.error == Some("Missing environment variables")
      ensures envVars == Success && FirstThrow([profiles, onboarding, opportunities, session]).Some? ==>
                database == Error && auth == Error
                && details.error == FirstThrow([profiles, onboarding, opportunities, session])
      ensures envVars == Success && !profiles.Threw? && !onboarding.Threw? && !opportunities.Threw? && !session.Threw? ==>
                database == DatabaseStatus(profiles.error, onboarding.error, opportunities.error)
                && details.error == FirstErrorMessage(profiles.error, onboarding.error, opportunities.error)
                && (auth == Error <==> session.error.Some?)
      ensures envVars != Loading && database != Loading && auth != Loading
      ensures |shown| >= |old(shown)| + 3 && shown[|shown| - 1] == Current()
      ensures shown[|old(shown)|] == ConnectionStatus(Loading, Loading, Loading, NoDetails)
      ensures shown[|old(shown)| + 1] ==
                ConnectionStatus(EnvStatus(url, anonKey), Loading, Loading,
                                 Details(Some(OrElse(url, "Missing")), Some(Truthy(anonKey)), None))
      ensures envVars == Success && !profiles.Threw? && !onboarding.Threw? && !opportunities.Threw? ==>
                shown[|old(shown)| + 2].auth == Loading
      ensures envVars == Error ==> called == old(called)
      ensures envVars == Success ==>
                called == old(called) + Calls[..Attempted([profiles, onboarding, opportunities, session])]
    {
      envVars, database, auth, details := Loading, Loading, Loading, NoDetails;
      shown := shown + [Current()];

      var envStatus := EnvStatus(url, anonKey);
      envVars := envStatus;
      details := Details(Some(OrElse(url, "Missing")), Some(Truthy(anonKey)), None);
      shown := shown + [Current()];

      if envStatus == Error {
        database, auth := Error, Error;
        details := details.(error := Some("Missing environment variables"));
        shown := shown + [Current()];
        return;
      }

      FirstThrownInOrder(profiles, onboarding, opportunities, session);
      CallsMadeInOrder(profiles, onboarding, opportunities, session);
      RunCalls(profiles, onboarding, opportunities, session);
    }
  }
}
