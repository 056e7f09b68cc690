/** The four-step onboarding wizard of app/onboarding/page.tsx: a step
    counter moved by Next and Back, a form object edited field by field, a
    platform multi-select toggled as list membership, and the completion
    handler that inserts one onboarding record, asks for a completion e-mail
    and moves on to the dashboard. The storage and e-mail calls are not
    modelled; their outcomes are parameters. */
module Onboarding {
  import opened Common

  /** The wizard's form object. */
  datatype Form = Form(
    company: string,
    role: string,
    industry: string,
    teamSize: string,
    icpDescription: string,
    keywords: string,
    tone: string,
    platforms: seq<string>)

  /** The form the wizard starts with: every text empty, tone
      "professional", no platform selected. */
  const InitialForm := Form("", "", "", "", "", "", "professional", [])

  /** The single-valued fields of the form; each is set by its own input. */
  datatype Field = Company | Role | Industry | TeamSize | IcpDescription | Keywords | Tone

  function Get(f: Form, field: Field): string
  {
    match field
    case Company => f.company
    case Role => f.role
    case Industry => f.industry
    case TeamSize => f.teamSize
    case IcpDescription => f.icpDescription
    case Keywords => f.keywords
    case Tone => f.tone
  }

  /** `setFormData((prev) => ({ ...prev, <field>: value }))`: the field gets
      the value, every other field and the platform list are kept. */
  function With(f: Form, field: Field, value: string): (r: Form)
    ensures Get(r, field) == value
    ensures forall g :: g != field ==> Get(r, g) == Get(f, g)
    ensures r.platforms == f.platforms
  {
    match field
    case Company => f.(company := value)
    case Role => f.(role := value)
    case Industry => f.(industry := value)
    case TeamSize => f.(teamSize := value)
    case IcpDescription => f.(icpDescription := value)
    case Keywords => f.(keywords := value)
    case Tone => f.(tone := value)
  }

  // ---------------------------------------------------------------------
  // Platform multi-select
  // ---------------------------------------------------------------------

  /** No platform is listed twice. */
  predicate NoDup(s: seq<string>)
  {
    forall i, j | 0 <= i < j < |s| :: s[i] != s[j]
  }

  /** `a` can be obtained from `b` by deleting elements, keeping the order of
      the rest. */
  ghost predicate IsSubsequence(a: seq<string>, b: seq<string>)
    decreases |b|
  {
    if b == [] then a == []
    else (a != [] && a[0] == b[0] && IsSubsequence(a[1..], b[1..])) || IsSubsequence(a, b[1..])
  }

  /** `s.filter((x) => x !== p)`: every occurrence of `p` is dropped, every
      other element is kept, as often as it occurred and in its order. */
  function RemoveAll(s: seq<string>, p: string): (r: seq<string>)
    ensures forall x :: x in r <==> x in s && x != p
    ensures multiset(r) == multiset(s)[p := 0]
    ensures IsSubsequence(r, s)
  {
    if s == [] then []
    else
      var t := RemoveAll(s[1..], p);
      assert s == [s[0]] + s[1..];
      if s[0] == p then t
      else
        assert ([s[0]] + t)[1..] == t;
        [s[0]] + t
  }

  /** Removing a platform that is not there changes nothing. */
  lemma {:induction false} RemoveAllAbsent(s: seq<string>, p: string)
    requires p !in s
    ensures RemoveAll(s, p) == s
  {
    if s != [] {
      RemoveAllAbsent(s[1..], p);
    }
  }

  /** Removal distributes over concatenation. */
  lemma {:induction false} RemoveAllAppend(a: seq<string>, b: seq<string>, p: string)
    ensures RemoveAll(a + b, p) == RemoveAll(a, p) + RemoveAll(b, p)
  {
    if a == [] {
      assert a + b == b;
    } else {
      assert (a + b)[1..] == a[1..] + b;
      RemoveAllAppend(a[1..], b, p);
    }
  }

  /** Removing `p` from a list that ends in `p` and has `p` nowhere else
      gives back the list without its last element. */
  lemma RemoveAllOfAppended(s: seq<string>, p: string)
    requires p !in s
    ensures RemoveAll(s + [p], p) == s
  {
    RemoveAllAppend(s, [p], p);
    assert RemoveAll([p], p) == [];
    RemoveAllAbsent(s, p);
  }

  /** Appending an absent element keeps a list duplicate-free. */
  lemma NoDupAppend(s: seq<string>, p: string)
    requires NoDup(s) && p !in s
    ensures NoDup(s + [p])
  {
    var t := s + [p];
    forall i, j | 0 <= i < j < |t| ensures t[i] != t[j] {
      if j == |s| {
        assert t[i] == s[i];
      } else {
        assert t[i] == s[i] && t[j] == s[j];
      }
    }
  }

  /** Every element of a subsequence occurs in the sequence. */
  lemma {:induction false} SubsequenceMembers(a: seq<string>, b: seq<string>)
    requires IsSubsequence(a, b)
    ensures forall x :: x in a ==> x in b
    decreases |b|
  {
    if b != [] {
      if a != [] && a[0] == b[0] && IsSubsequence(a[1..], b[1..]) {
        SubsequenceMembers(a[1..], b[1..]);
        assert a == [a[0]] + a[1..];
        assert b == [b[0]] + b[1..];
      } else {
        SubsequenceMembers(a, b[1..]);
        assert b == [b[0]] + b[1..];
      }
    }
  }

  /** A subsequence of a duplicate-free list is duplicate-free. */
  lemma {:induction false} NoDupSubsequence(a: seq<string>, b: seq<string>)
    requires IsSubsequence(a, b) && NoDup(b)
    ensures NoDup(a)
    decreases |b|
  {
    if b != [] {
      assert NoDup(b[1..]) by {
        forall i, j | 0 <= i < j < |b[1..]| ensures b[1..][i] != b[1..][j] {
          assert b[1..][i] == b[i + 1] && b[1..][j] == b[j + 1];
        }
      }
      if a != [] && a[0] == b[0] && IsSubsequence(a[1..], b[1..]) {
        NoDupSubsequence(a[1..], b[1..]);
        SubsequenceMembers(a[1..], b[1..]);
        assert b[0] !in b[1..] by {
          forall k | 0 <= k < |b[1..]| ensures b[1..][k] != b[0] {
            assert b[1..][k] == b[k + 1];
          }
        }
        forall i, j | 0 <= i < j < |a| ensures a[i] != a[j] {
          assert a[j] == a[1..][j - 1];
          if i > 0 {
            assert a[i] == a[1..][i - 1];
          }
        }
      } else {
        NoDupSubsequence(a, b[1..]);
      }
    }
  }

  /** `togglePlatform`: `p` is removed, every occurrence of it, when the
      list includes it, and appended at the end when it does not; the other
      platforms keep their order, and a duplicate-free list stays so. */
  function Toggle(s: seq<string>, p: string): (r: seq<string>)
    ensures p in r <==> p !in s
    ensures p !in s ==> r == s + [p]
    ensures RemoveAll(r, p) == RemoveAll(s, p)
    ensures NoDup(s) ==> NoDup(r)
  {
    if p in s then
      var r := RemoveAll(s, p);
      RemoveAllAbsent(r, p);
      assert NoDup(s) ==> NoDup(r) by {
        if NoDup(s) { NoDupSubsequence(r, s); }
      }
      r
    else
      RemoveAllOfAppended(s, p);
      RemoveAllAbsent(s, p);
      assert NoDup(s) ==> NoDup(s + [p]) by {
        if NoDup(s) { NoDupAppend(s, p); }
      }
      s + [p]
  }

  /** Toggling only ever changes how often `p` occurs. */
  lemma ToggleKeepsOthers(s: seq<string>, p: string, x: string)
    requires x != p
    ensures multiset(Toggle(s, p))[x] == multiset(s)[x]
  {
    var r := Toggle(s, p);
    assert multiset(RemoveAll(r, p)) == multiset(RemoveAll(s, p));
  }

  /** In a duplicate-free list an element occurs at most once. */
  lemma {:induction false} NoDupCount(s: seq<string>, p: string)
    requires NoDup(s)
    ensures multiset(s)[p] <= 1
  {
    if s != [] {
      assert s == [s[0]] + s[1..];
      assert NoDup(s[1..]) by {
        forall i, j | 0 <= i < j < |s[1..]| ensures s[1..][i] != s[1..][j] {
          assert s[1..][i] == s[i + 1] && s[1..][j] == s[j + 1];
        }
      }
      NoDupCount(s[1..], p);
      if s[0] == p {
        assert p !in s[1..] by {
          forall k | 0 <= k < |s[1..]| ensures s[1..][k] != p {
            assert s[1..][k] == s[k + 1];
          }
        }
      }
    }
  }

  /** Toggling the same platform twice gives back the same selection as a
      set, and on a duplicate-free list the same multiset. */
  lemma ToggleTwiceSameSelection(s: seq<string>, p: string)
    ensures forall x :: x in Toggle(Toggle(s, p), p) <==> x in s
    ensures NoDup(s) ==> multiset(Toggle(Toggle(s, p), p)) == multiset(s)
  {
    var t := Toggle(s, p);
    var u := Toggle(t, p);
    if p in s {
      assert t == RemoveAll(s, p);
      assert u == t + [p];
      if NoDup(s) {
        NoDupCount(s, p);
        assert multiset(s)[p] == 1;
      }
    } else {
      RemoveAllOfAppended(s, p);
    }
  }

  /** A duplicate-free list that ends in `p` is the rest followed by `p`,
      with `p` nowhere in the rest. */
  lemma LastOnly(s: seq<string>, p: string)
    requires NoDup(s) && s != [] && s[|s| - 1] == p
    ensures p !in s[..|s| - 1] && s == s[..|s| - 1] + [p]
  {
    var t := s[..|s| - 1];
    forall i | 0 <= i < |t| ensures t[i] != p {
      assert t[i] == s[i];
    }
  }

  /** Toggling a platform twice restores the very same list exactly when the
      platform was absent or already the last one; otherwise the platform
      moves to the end and the rest keeps its order. */
  lemma ToggleTwiceSequence(s: seq<string>, p: string)
    requires NoDup(s)
    ensures p in s ==> Toggle(Toggle(s, p), p) == RemoveAll(s, p) + [p]
    ensures Toggle(Toggle(s, p), p) == s <==> p !in s || s[|s| - 1] == p
  {
    var u := Toggle(Toggle(s, p), p);
    if p in s {
      assert u == RemoveAll(s, p) + [p];
      if s[|s| - 1] == p {
        LastOnly(s, p);
        RemoveAllOfAppended(s[..|s| - 1], p);
        assert RemoveAll(s, p) == s[..|s| - 1];
      } else {
        assert u[|u| - 1] == p;
      }
    } else {
      RemoveAllOfAppended(s, p);
    }
  }

  // ---------------------------------------------------------------------
  // The completion record
  // ---------------------------------------------------------------------

  datatype User = User(id: string)

  /** The signed-in user's profile row; `fullName` is nullable. */
  datatype Profile = Profile(id: string, email: string, fullName: Option<string>)

  /** The row inserted into the `onboarding` table. */
  datatype OnboardingRecord = OnboardingRecord(
    id: string,
    userId: string,
    company: string,
    role: string,
    industry: string,
    teamSize: string,
    icpDescription: string,
    keywords: string,
    tone: string,
    platforms: seq<string>,
    isCompleted: bool)

  /** The form an onboarding row was made from. */
  function FormOf(r: OnboardingRecord): Form
  {
    Form(r.company, r.role, r.industry, r.teamSize, r.icpDescription, r.keywords, r.tone, r.platforms)
  }

  /** The row built at completion: a fresh id, the user's id, every form
      field copied, and the completion flag always set. */
  function NewRecord(id: string, userId: string, f: Form): (r: OnboardingRecord)
    ensures r.id == id && r.userId == userId && r.isCompleted
    ensures FormOf(r) == f
  {
    OnboardingRecord(id, userId, f.company, f.role, f.industry, f.teamSize,
                     f.icpDescription, f.keywords, f.tone, f.platforms, true)
  }

  /** The e-mail asked for after a successful insert: the completion message
      to the profile's address, greeting its full name or "there". */
  function CompletionEmail(p: Profile): (e: EmailRequest)
    ensures e.kind == OnboardingComplete && e.to == p.email
    ensures e.name != ""
    ensures Truthy(p.fullName) ==> e.name == p.fullName.value
    ensures !Truthy(p.fullName) ==> e.name == "there"
  {
    EmailRequest(OnboardingComplete, p.email, OrElse(p.fullName, "there"))
  }

  // ---------------------------------------------------------------------
  // The wizard's buttons
  // ---------------------------------------------------------------------

  /** The Next/Complete button: whether it can be clicked, and its text. */
  datatype NextButton = NextButton(enabled: bool, caption: string)

  /** The button is disabled while a completion is in progress and then
      reads "Setting up..."; otherwise it reads "Complete Setup" on the last
      step and "Next" before it. */
  function NextButtonFor(step: int, isLoading: bool): (b: NextButton)
    ensures b.enabled <==> !isLoading
    ensures b.caption == "Setting up..." <==> isLoading
    ensures b.caption == "Complete Setup" <==> !isLoading && step == 4
    ensures b.caption == "Next" <==> !isLoading && step != 4
  {
    NextButton(!isLoading, if isLoading then "Setting up..." else if step == 4 then "Complete Setup" else "Next")
  }

  /** The wizard page's state. `inserts` and `emails` record, in order, the
      rows handed to the storage service and the messages handed to the
      e-mail provider; they are observations, not page state. */
  class Wizard {
    var step: int
    var form: Form
    var isLoading: bool
    var navigatedTo: Option<string>
    ghost var inserts: seq<OnboardingRecord>
    ghost var emails: seq<EmailRequest>

    /** Between handlers: the step is one of the four steps, no platform is
        selected twice, and no completion is in progress (each handler is
        one sequential run, so loading is only ever on inside it). */
    ghost predicate Valid()
      reads this
    {
      1 <= step <= 4 && NoDup(form.platforms) && !isLoading
    }

    constructor ()
      ensures Valid()
      ensures step == 1 && form == InitialForm && !isLoading
      ensures navigatedTo == None && inserts == [] && emails == []
    {
      step := 1;
      form := InitialForm;
      isLoading := false;
      navigatedTo := None;
      inserts := [];
      emails := [];
    }

    function BackEnabled(): bool
      reads this
    {
      step != 1
    }

    /** A click on Back: the button is disabled on the first step, and
        otherwise moves one step back. */
    method ClickBack()
      requires Valid()
      modifies this`step
      ensures Valid()
      ensures old(step) == 1 ==> step == 1
      ensures old(step) != 1 ==> step == old(step) - 1
    {
      if BackEnabled() {
        step := step - 1;
      }
    }

    /** An edit of one form field. */
    method SetField(field: Field, value: string)
      requires Valid()
      modifies this`form
      ensures Valid()
      ensures form == With(old(form), field, value)
    {
      form := With(form, field, value);
    }

    /** A click on a platform card. */
    method TogglePlatform(p: string)
      requires Valid()
      modifies this`form
      ensures Valid()
      ensures form == old(form).(platforms := Toggle(old(form.platforms), p))
    {
      form := form.(platforms := Toggle(form.platforms, p));
    }

    /** `handleNext`: on steps 1 to 3 the step goes up by one; on step 4 the
        step stays and the completion handler runs, with the given outcomes
        of its calls. */
    method HandleNext(user: Option<User>, profile: Option<Profile>, newId: string,
                      insert: Response<()>, emailDelivered: bool)
      requires Valid()
      modifies this
      ensures Valid() && form == old(form)
      ensures old(step) < 4 ==> step == old(step) + 1 && navigatedTo == old(navigatedTo)
                                && inserts == old(inserts) && emails == old(emails)
                                && isLoading == old(isLoading)
      ensures old(step) == 4 ==> step == 4 && !isLoading
      ensures old(step) == 4 && (user.None? || profile.None?) ==> inserts == old(inserts)
      ensures old(step) == 4 && user.Some? && profile.Some? ==>
                inserts == old(inserts) + [NewRecord(newId, user.value.id, form)]
      ensures old(step) == 4 && user.Some? && profile.Some? && insert.Ok() ==>
                navigatedTo == Some("/dashboard") && emails == old(emails) + [CompletionEmail(profile.value)]
      ensures old(step) == 4 && (user.None? || profile.None? || !insert.Ok()) ==>
                navigatedTo == old(navigatedTo) && emails == old(emails)
    {
      if step < 4 {
        step := step + 1;
      } else {
        HandleComplete(user, profile, newId, insert, emailDelivered);
      }
    }

    /** `handleComplete`. Without a user or a profile nothing happens.
        Otherwise one row built from the form is inserted; when the insert
        reports an error or throws, nothing else is attempted and the wizard
        stays where it was; when it succeeds, the completion e-mail is asked
        for and the page moves to "/dashboard" whether or not the e-mail
        goes out. Loading is off again afterwards in every case. */
    method HandleComplete(user: Option<User>, profile: Option<Profile>, newId: string,
                          insert: Response<()>, emailDelivered: bool)
      requires Valid()
      modifies this`isLoading, this`navigatedTo, this`inserts, this`emails
      ensures Valid()
      ensures user.None? || profile.None? ==>
                isLoading == old(isLoading) && navigatedTo == old(navigatedTo)
                && inserts == old(inserts) && emails == old(emails)
      ensures user.Some? && profile.Some? ==>
                !isLoading && inserts == old(inserts) + [NewRecord(newId, user.value.id, form)]
      ensures user.Some? && profile.Some? && !insert.Ok() ==>
                navigatedTo == old(navigatedTo) && emails == old(emails)
      ensures user.Some? && profile.Some? && insert.Ok() ==>
                navigatedTo == Some("/dashboard")
                && emails == old(emails) + [CompletionEmail(profile.value)]
    {
      if user.None? || profile.None? {
        return;
      }
      isLoading := true;
      inserts := inserts + [NewRecord(newId, user.value.id, form)];
      if insert.Ok() {
        // The provider's failure is logged and swallowed: `emailDelivered`
        // decides nothing below.
        emails := emails + [CompletionEmail(profile.value)];
        navigatedTo := Some("/dashboard");
      }
      isLoading := false;
    }
  }
}
