/** The state of the profile page and how `fetchUserProfile` changes it:
    three pieces of state (`loading`, `error`, `profile`), the updates a
    fetch makes to them in its try/catch/finally, and the choice of what the
    page shows. The HTTP call is abstracted to its outcome. */
module ProfileState {
  import opened Js
  import opened ProfileDisplay

  /** A value thrown inside the try block: an `Error` object, which carries
      a message, or anything else. */
  datatype Thrown = ErrorObject(message: string) | OtherValue

  /** What one request to the directory endpoint comes to: a response with
      `response.ok` and its parsed body (None for a falsy body such as
      `null`), a response that is not ok, or a throw (from `fetch` itself
      or from `response.json()`). */
  datatype FetchOutcome = Ok(data: Option<UserProfile>) | NotOk | Threw(thrown: Thrown)

  /** How the try block of `fetchUserProfile` ends: with the parsed body, or
      by throwing. */
  datatype Attempt = Completed(data: Option<UserProfile>) | Raised(thrown: Thrown)

  const FetchFailedMessage: string := "Failed to fetch profile data"
  const GenericErrorMessage: string := "An error occurred"

  /** The try block: a response that is not ok is turned into a thrown
      `Error` with the fixed message; everything else passes through. */
  function RunAttempt(outcome: FetchOutcome): (a: Attempt)
    ensures a.Completed? <==> outcome.Ok?
    ensures outcome.Ok? ==> a.data == outcome.data
    ensures outcome.NotOk? ==> a == Raised(ErrorObject(FetchFailedMessage))
    ensures outcome.Threw? ==> a == Raised(outcome.thrown)
  {
    match outcome
    case Ok(data) => Completed(data)
    case NotOk => Raised(ErrorObject(FetchFailedMessage))
    case Threw(t) => Raised(t)
  }

  /** `err instanceof Error ? err.message : "An error occurred"`. */
  function CaughtMessage(t: Thrown): (m: string)
    ensures t.ErrorObject? ==> m == t.message
    ensures t.OtherValue? ==> m == GenericErrorMessage
  {
    match t
    case ErrorObject(message) => message
    case OtherValue => GenericErrorMessage
  }

  // ---------------------------------------------------------------------
  // The page state and its transitions

  /** `loading`, `error` (None for `null`) and `profile` (None for `null`). */
  datatype PageState = PageState(loading: bool, error: Option<string>, profile: Option<UserProfile>)

  /** The state the page is mounted with. */
  const InitialState: PageState := PageState(true, None, None)

  /** `setLoading(true)`. */
  function StartLoading(s: PageState): (t: PageState)
    ensures t.loading && t.error == s.error && t.profile == s.profile
  {
    s.(loading := true)
  }

  /** `setProfile(data)`. */
  function StoreProfile(s: PageState, data: Option<UserProfile>): (t: PageState)
    ensures t.profile == data && t.loading == s.loading && t.error == s.error
  {
    s.(profile := data)
  }

  /** `setError(...)` in the catch block. */
  function StoreError(s: PageState, t: Thrown): (u: PageState)
    ensures u.error == Some(CaughtMessage(t)) && u.loading == s.loading && u.profile == s.profile
  {
    s.(error := Some(CaughtMessage(t)))
  }

  /** `setLoading(false)` in the finally block. */
  function StopLoading(s: PageState): (t: PageState)
    ensures !t.loading && t.error == s.error && t.profile == s.profile
  {
    s.(loading := false)
  }

  /** The state after one complete run of `fetchUserProfile` with the given
      outcome. Loading is over whatever happened; a successful response
      changes only the profile, a failure only the error; the error is never
      cleared and a failure never clears the profile. */
  function AfterFetch(s: PageState, outcome: FetchOutcome): (t: PageState)
    ensures !t.loading
    ensures outcome.Ok? ==> t.profile == outcome.data && t.error == s.error
    ensures outcome.NotOk? ==> t.error == Some(FetchFailedMessage) && t.profile == s.profile
    ensures outcome == Threw(OtherValue) ==> t.error == Some(GenericErrorMessage) && t.profile == s.profile
    ensures outcome.Threw? && outcome.thrown.ErrorObject? ==>
      t.error == Some(outcome.thrown.message) && t.profile == s.profile
    ensures s.error.Some? ==> t.error.Some?
  {
    var started := StartLoading(s);
    var settled :=
      match RunAttempt(outcome)
      case Completed(data) => StoreProfile(started, data)
      case Raised(thrown) => StoreError(started, thrown);
    StopLoading(settled)
  }

  // ---------------------------------------------------------------------
  // What the page shows

  /** The four things the page can show. */
  datatype View = Spinner | ErrorView(message: string) | NoProfile | Loaded(view: ProfileView)

  /** The early returns of the component, in order: the spinner while
      loading, then the error when it is truthy, then the "no profile"
      message when the profile is missing, and only then the profile. */
  function SelectView(s: PageState): (v: View)
    ensures v.Spinner? <==> s.loading
    ensures v.ErrorView? <==> !s.loading && Truthy(s.error)
    ensures v.ErrorView? ==> v.message == s.error.value && v.message != ""
    ensures v.NoProfile? <==> !s.loading && !Truthy(s.error) && s.profile.None?
    ensures v.Loaded? <==> !s.loading && !Truthy(s.error) && s.profile.Some?
    ensures v.Loaded? ==> v.view == Render(s.profile.value)
  {
    if s.loading then Spinner
    else if Truthy(s.error) then ErrorView(s.error.value)
    else if s.profile.None? then NoProfile
    else Loaded(Render(s.profile.value))
  }

  /** After any complete fetch the spinner is gone. */
  lemma FetchAlwaysEndsLoading(s: PageState, outcome: FetchOutcome)
    ensures !SelectView(AfterFetch(s, outcome)).Spinner?
  {
  }

  /** Once an error is shown, "Try Again" cannot get the profile on screen:
      a retry that succeeds leaves the old error in place, so the page shows
      that error again. */
  lemma RetryKeepsError(s: PageState, data: Option<UserProfile>)
    requires Truthy(s.error)
    ensures SelectView(AfterFetch(s, Ok(data))) == ErrorView(s.error.value)
  {
  }

  /** A thrown `Error` with an empty message is stored but is falsy, so the
      page falls through to the profile (or "no profile") view. This holds
      from every state, in particular on "Try Again" while an earlier error
      is shown: the empty message replaces it and the error view goes away. */
  lemma EmptyErrorMessageNotShown(s: PageState)
    ensures var v := SelectView(AfterFetch(s, Threw(ErrorObject(""))));
      && !v.ErrorView?
      && (s.profile.None? ==> v == NoProfile)
      && (s.profile.Some? ==> v == Loaded(Render(s.profile.value)))
  {
  }

  /** From the mounted state, the first fetch decides the view: a profile
      gives the loaded page, a falsy body "no profile", a response that is
      not ok the fixed message. */
  lemma FirstFetch(outcome: FetchOutcome)
    ensures SelectView(InitialState) == Spinner
    ensures outcome.Ok? && outcome.data.Some? ==>
      SelectView(AfterFetch(InitialState, outcome)) == Loaded(Render(outcome.data.value))
    ensures outcome == Ok(None) ==> SelectView(AfterFetch(InitialState, outcome)) == NoProfile
    ensures outcome == NotOk ==>
      SelectView(AfterFetch(InitialState, outcome)) == ErrorView(FetchFailedMessage)
    ensures outcome.Threw? ==>
      SelectView(AfterFetch(InitialState, outcome)) ==
        if CaughtMessage(outcome.thrown) != "" then ErrorView(CaughtMessage(outcome.thrown)) else NoProfile
  {
  }

  /** The state a sequence of fetches leaves, one after another. */
  function AfterFetches(s: PageState, outcomes: seq<FetchOutcome>): (t: PageState)
    ensures outcomes == [] ==> t == s
    ensures outcomes != [] ==> !t.loading
    ensures s.error.Some? ==> t.error.Some?
    ensures outcomes != [] && outcomes[|outcomes| - 1] == NotOk ==> t.error == Some(FetchFailedMessage)
    ensures outcomes != [] && outcomes[|outcomes| - 1] == Threw(OtherValue) ==> t.error == Some(GenericErrorMessage)
    decreases |outcomes|
  {
    if outcomes == [] then s
    else AfterFetches(AfterFetch(s, outcomes[0]), outcomes[1..])
  }

  /** Running one more fetch after a sequence is running it last: the state
      after the last click is `AfterFetch` of the state before it, so every
      cell after any number of clicks follows from `AfterFetch`. */
  lemma {:induction false} AfterFetchesSnoc(s: PageState, outcomes: seq<FetchOutcome>, x: FetchOutcome)
    ensures AfterFetches(s, outcomes + [x]) == AfterFetch(AfterFetches(s, outcomes), x)
    decreases |outcomes|
  {
    if outcomes == [] {
      assert outcomes + [x] == [x];
    } else {
      assert (outcomes + [x])[0] == outcomes[0];
      assert (outcomes + [x])[1..] == outcomes[1..] + [x];
      AfterFetchesSnoc(AfterFetch(s, outcomes[0]), outcomes[1..], x);
    }
  }

  /** Once a fetch has failed with a non-empty message, the error view is
      shown after every later fetch for good, whatever those fetches bring,
      as long as none throws an `Error` with an empty message. */
  lemma {:induction false} ErrorIsSticky(s: PageState, outcomes: seq<FetchOutcome>)
    requires Truthy(s.error) && !s.loading
    requires forall i :: 0 <= i < |outcomes| ==> outcomes[i] != Threw(ErrorObject(""))
    ensures Truthy(AfterFetches(s, outcomes).error)
    ensures SelectView(AfterFetches(s, outcomes)).ErrorView?
    decreases |outcomes|
  {
    if outcomes != [] {
      ErrorIsSticky(AfterFetch(s, outcomes[0]), outcomes[1..]);
    }
  }

  // ---------------------------------------------------------------------
  // The component

  /** The component's state cells and `fetchUserProfile`, which updates them
      one setter at a time. */
  class ProfilePage {
    var loading: bool
    var error: Option<string>
    var profile: Option<UserProfile>

    /** The three cells as one value. */
    function State(): PageState
      reads this
    {
      PageState(loading, error, profile)
    }

    /** `useState(null)`, `useState(true)`, `useState(null)`. */
    constructor ()
      ensures State() == InitialState
    {
      loading := true;
      error := None;
      profile := None;
    }

    /** `setLoading(true)`. */
    method Begin()
      modifies this
      ensures State() == StartLoading(old(State()))
    {
      loading := true;
    }

    /** `setProfile(data)`. */
    method Succeed(data: Option<UserProfile>)
      modifies this
      ensures State() == StoreProfile(old(State()), data)
    {
      profile := data;
    }

    /** `setError(err instanceof Error ? err.message : "An error occurred")`. */
    method Fail(t: Thrown)
      modifies this
      ensures State() == StoreError(old(State()), t)
    {
      error := Some(CaughtMessage(t));
    }

    /** `setLoading(false)`. */
    method Finish()
      modifies this
      ensures State() == StopLoading(old(State()))
    {
      loading := false;
    }

    /** One run of `fetchUserProfile` whose request comes to `outcome`:
        loading is set, the try block either stores the body or throws, the
        catch block stores the message, and the finally block clears
        loading. */
    method FetchUserProfile(outcome: FetchOutcome)
      modifies this
      ensures State() == AfterFetch(old(State()), outcome)
      ensures !loading
      ensures old(error).Some? ==> error.Some?
      ensures outcome.Threw? || outcome.NotOk? ==> profile == old(profile)
    {
      Begin();
      var attempt := RunAttempt(outcome);
      match attempt {
        case Completed(data) =>
          Succeed(data);
        case Raised(thrown) =>
          Fail(thrown);
      }
      Finish();
    }

    /** What the page renders in its current state. */
    function CurrentView(): (v: View)
      reads this
      ensures v.Spinner? <==> loading
    {
      SelectView(State())
    }
  }
}
