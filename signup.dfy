/**
 * One submission of the signup form: the duplicate-account pre-check against
 * the profile store, the call that creates the account, the classification of
 * its failures, and the toast and navigation that close the submission.
 *
 * The results of the external calls (the profile query, account creation and
 * the error-message lookup) are inputs here. A submission is described twice:
 * by its outcome (which of the four ways it ended) and by the sequence of
 * effects it has on the outside world, in order.
 */
module Signup {
  import opened Strings

  datatype Option<T> = None | Some(value: T)

  // ---------------------------------------------------------------------------
  // Data model

  datatype Role = Customer | Artist

  /** The values of the signup form's fields. */
  datatype SignupFormData = SignupFormData(
    email: string,
    password: string,
    confirmPassword: string,
    username: string,
    fullName: string,
    role: Role,
    acceptTerms: bool)

  /** The values the form starts with. */
  const DefaultFormValues := SignupFormData("", "", "", "", "", Customer, false)

  /** The projection of a stored profile that the pre-check reads. */
  datatype ProfileRecord = ProfileRecord(email: string)

  /** An error reported by the profile store's query layer. */
  datatype PostgrestError = PostgrestError(code: string, message: string)

  /** What the duplicate-account query reports: a matching record, if any, and an error, if any. */
  datatype ProfileQuery = ProfileQuery(existingUser: Option<ProfileRecord>, checkError: Option<PostgrestError>)

  /**
   * A value thrown inside the submission: the store's query error, an
   * `AuthApiError` (an error response of the authentication API), any other
   * `AuthError`, or a value that is not an `AuthError` at all.
   */
  datatype Thrown =
    | QueryError(error: PostgrestError)
    | AuthApiError(status: int, message: string)
    | OtherAuthError(statusIfAny: Option<int>, message: string)
    | OtherError(message: string)

  /** `error instanceof AuthError` */
  predicate IsAuthError(e: Thrown)
  {
    e.AuthApiError? || e.OtherAuthError?
  }

  datatype UserMetadata = UserMetadata(fullName: string, username: string, role: Role)

  /** The arguments of the account-creation call. */
  datatype SignUpRequest = SignUpRequest(email: string, password: string, metadata: UserMetadata)

  datatype Toast = Toast(title: string, description: string)

  /** The state handed to the page a navigation leads to. */
  datatype NavState = NavState(email: string, message: string)

  datatype Navigation = Navigation(path: string, state: NavState)

  /** An effect of the form on the outside world, in the order it happens. */
  datatype Event =
    | SetLoading(on: bool)
    | QueryProfile(email: string)
    | CallSignUp(request: SignUpRequest)
    | ShowToast(toast: Toast)
    | Navigate(to: Navigation)

  /** How a submission ended. */
  datatype SignupOutcome =
    | Created(redirectPath: string, role: Role, email: string)
    | DuplicateAccount(email: string)
    | AuthFailure(description: string)
    | UnexpectedFailure

  // ---------------------------------------------------------------------------
  // Constants

  /** The store's "no rows" code, which does not count as a failed query. */
  const NoRowsCode := "PGRST116"
  const AlreadyRegisteredMarker := "User already registered"
  const AlreadyRegisteredStatus := 422

  const LoginPath := "/login"
  const ArtistPath := "/register-artist"
  const DashboardPath := "/dashboard"

  const AlreadyExistsTitle := "Account Already Exists"
  const AlreadyExistsMessage := "An account with this email already exists. Please login instead."
  const ErrorTitle := "Error Creating Account"
  const UnexpectedMessage := "An unexpected error occurred. Please try again."
  const CreatedTitle := "Account Created Successfully!"
  const ArtistWelcome := "Please complete your artist profile to start offering services."
  const CustomerWelcome := "You can now start booking services from our talented artists."
  const WelcomeMessage := "Account created successfully. Welcome to GlamConnect!"

  // ---------------------------------------------------------------------------
  // Pure decisions

  /** Where a newly created account is sent. */
  function RedirectPath(role: Role): (path: string)
    ensures path == ArtistPath <==> role == Artist
    ensures path == DashboardPath <==> role == Customer
  {
    match role
    case Artist => ArtistPath
    case Customer => DashboardPath
  }

  /** The description of the toast shown after an account is created. */
  function WelcomeDescription(role: Role): string
  {
    if role == Artist then ArtistWelcome else CustomerWelcome
  }

  /** The error classifier's test for an account that already exists. */
  predicate IsAlreadyRegistered(e: Thrown)
  {
    e.AuthApiError? && (Includes(e.message, AlreadyRegisteredMarker) || e.status == AlreadyRegisteredStatus)
  }

  /** A query error other than "no rows" aborts the submission. */
  predicate QueryAborts(q: ProfileQuery)
  {
    q.checkError.Some? && q.checkError.value.code != NoRowsCode
  }

  /** Account creation is attempted when the pre-check neither failed nor found a record. */
  predicate SignUpAttempted(q: ProfileQuery)
  {
    !QueryAborts(q) && q.existingUser.None?
  }

  function SignUpRequestOf(data: SignupFormData): SignUpRequest
  {
    SignUpRequest(data.email, data.password, UserMetadata(data.fullName, data.username, data.role))
  }

  /**
   * What a value caught by the submission leads to. `formEmail` is the email
   * field's current value, which the "already registered" branch reads.
   */
  function ClassifyFailure(e: Thrown, formEmail: string, errorMessage: Thrown -> string): SignupOutcome
  {
    if !IsAuthError(e) then UnexpectedFailure
    else if IsAlreadyRegistered(e) then DuplicateAccount(formEmail)
    else AuthFailure(errorMessage(e))
  }

  /**
   * The outcome of submitting `data`, given what the profile query reports,
   * what account creation reports (`None` for success) and the error-message
   * lookup.
   */
  function OutcomeOf(data: SignupFormData, formEmail: string, q: ProfileQuery,
                     signUp: Option<Thrown>, errorMessage: Thrown -> string): SignupOutcome
  {
    if QueryAborts(q) then ClassifyFailure(QueryError(q.checkError.value), formEmail, errorMessage)
    else if q.existingUser.Some? then DuplicateAccount(data.email)
    else match signUp
      case None => Created(RedirectPath(data.role), data.role, data.email)
      case Some(e) => ClassifyFailure(e, formEmail, errorMessage)
  }

  /** The toast, and the navigation if any, that report an outcome. */
  function Notice(o: SignupOutcome): seq<Event>
  {
    match o
    case Created(path, role, email) =>
      [ShowToast(Toast(CreatedTitle, WelcomeDescription(role))), Navigate(Navigation(path, NavState(email, WelcomeMessage)))]
    case DuplicateAccount(email) =>
      [ShowToast(Toast(AlreadyExistsTitle, AlreadyExistsMessage)), Navigate(Navigation(LoginPath, NavState(email, AlreadyExistsMessage)))]
    case AuthFailure(description) =>
      [ShowToast(Toast(ErrorTitle, description))]
    case UnexpectedFailure =>
      [ShowToast(Toast(ErrorTitle, UnexpectedMessage))]
  }

  /**
   * Everything one submission does, in order: raise the busy flag, query the
   * profile store, call account creation when the pre-check lets it, report
   * the outcome, lower the busy flag.
   */
  function SubmissionEffects(data: SignupFormData, formEmail: string, q: ProfileQuery,
                             signUp: Option<Thrown>, errorMessage: Thrown -> string): seq<Event>
  {
    [SetLoading(true), QueryProfile(data.email)]
    + (if SignUpAttempted(q) then [CallSignUp(SignUpRequestOf(data))] else [])
    + Notice(OutcomeOf(data, formEmail, q, signUp, errorMessage))
    + [SetLoading(false)]
  }

  // ---------------------------------------------------------------------------
  // Observing a sequence of effects

  /** The values `pick` extracts from the events of `t`, in order. */
  function Select<T>(t: seq<Event>, pick: Event -> Option<T>): seq<T>
  {
    if t == [] then []
    else match pick(t[0])
      case Some(x) => [x] + Select(t[1..], pick)
      case None => Select(t[1..], pick)
  }

  function ToastOf(e: Event): Option<Toast>
  {
    if e.ShowToast? then Some(e.toast) else None
  }

  function NavigationOf(e: Event): Option<Navigation>
  {
    if e.Navigate? then Some(e.to) else None
  }

  function SignUpCallOf(e: Event): Option<SignUpRequest>
  {
    if e.CallSignUp? then Some(e.request) else None
  }

  function Toasts(t: seq<Event>): seq<Toast> { Select(t, ToastOf) }
  function Navigations(t: seq<Event>): seq<Navigation> { Select(t, NavigationOf) }
  function SignUpCalls(t: seq<Event>): seq<SignUpRequest> { Select(t, SignUpCallOf) }

  /** The busy flag after the events of `t`, starting from `flag`. */
  function LoadingAfter(flag: bool, t: seq<Event>): bool
    decreases |t|
  {
    if t == [] then flag
    else LoadingAfter(if t[0].SetLoading? then t[0].on else flag, t[1..])
  }

  lemma {:induction false} SelectAppend<T>(s: seq<Event>, t: seq<Event>, pick: Event -> Option<T>)
    ensures Select(s + t, pick) == Select(s, pick) + Select(t, pick)
  {
    if s != [] {
      assert (s + t)[1..] == s[1..] + t;
      SelectAppend(s[1..], t, pick);
    } else {
      assert s + t == t;
    }
  }

  lemma AppendAssociative<T>(a: seq<T>, b: seq<T>, c: seq<T>)
    ensures a + b + c == a + (b + c)
  {
  }

  lemma SelectOne<T>(x: Event, pick: Event -> Option<T>)
    ensures Select([x], pick) == if pick(x).Some? then [pick(x).value] else []
  {
    assert [x][1..] == [];
  }

  lemma SelectPair<T>(x: Event, y: Event, pick: Event -> Option<T>)
    ensures Select([x, y], pick) == Select([x], pick) + Select([y], pick)
    ensures Select([x], pick) == if pick(x).Some? then [pick(x).value] else []
    ensures Select([y], pick) == if pick(y).Some? then [pick(y).value] else []
  {
    assert [x, y] == [x] + [y];
    SelectAppend([x], [y], pick);
    SelectOne(x, pick);
    SelectOne(y, pick);
  }

  lemma {:induction false} LoadingAfterAppend(flag: bool, s: seq<Event>, t: seq<Event>)
    ensures LoadingAfter(flag, s + t) == LoadingAfter(LoadingAfter(flag, s), t)
    decreases |s|
  {
    if s != [] {
      assert (s + t)[1..] == s[1..] + t;
      LoadingAfterAppend(if s[0].SetLoading? then s[0].on else flag, s[1..], t);
    } else {
      assert s + t == t;
    }
  }

  // ---------------------------------------------------------------------------
  // Properties of one submission

  /** The single toast, and the navigation if any, by which an outcome is reported. */
  lemma NoticeObservables(o: SignupOutcome)
    ensures Toasts(Notice(o)) == [Notice(o)[0].toast]
    ensures Navigations(Notice(o)) == if o.Created? || o.DuplicateAccount? then [Notice(o)[1].to] else []
    ensures SignUpCalls(Notice(o)) == []
    ensures forall i :: 0 <= i < |Notice(o)| ==> Notice(o)[i].ShowToast? || Notice(o)[i].Navigate?
  {
    var n := Notice(o);
    if |n| == 2 {
      SelectPair(n[0], n[1], ToastOf);
      SelectPair(n[0], n[1], NavigationOf);
      SelectPair(n[0], n[1], SignUpCallOf);
    } else {
      SelectOne(n[0], ToastOf);
      SelectOne(n[0], NavigationOf);
      SelectOne(n[0], SignUpCallOf);
    }
  }

  /** Selecting from the four parts of a submission's effects part by part. */
  lemma SelectSubmission<T>(a: seq<Event>, b: seq<Event>, c: seq<Event>, d: seq<Event>, pick: Event -> Option<T>)
    ensures Select(a + b + c + d, pick) == Select(a, pick) + Select(b, pick) + Select(c, pick) + Select(d, pick)
  {
    SelectAppend(a + b + c, d, pick);
    SelectAppend(a + b, c, pick);
    SelectAppend(a, b, pick);
  }

  /**
   * What a submission shows and where it goes are those of its outcome;
   * account creation is called once, with the submitted email, password and
   * profile fields, exactly when the pre-check lets it; and every submission
   * shows exactly one toast and navigates at most once.
   */
  lemma SubmissionObservables(data: SignupFormData, formEmail: string, q: ProfileQuery,
                              signUp: Option<Thrown>, errorMessage: Thrown -> string)
    ensures var r := SubmissionEffects(data, formEmail, q, signUp, errorMessage);
            var o := OutcomeOf(data, formEmail, q, signUp, errorMessage);
            && Toasts(r) == [Notice(o)[0].toast]
            && Navigations(r) == (if o.Created? || o.DuplicateAccount? then [Notice(o)[1].to] else [])
            && SignUpCalls(r) == (if SignUpAttempted(q)
                                  then [SignUpRequest(data.email, data.password, UserMetadata(data.fullName, data.username, data.role))]
                                  else [])
            && |Navigations(r)| <= 1
  {
    var a := [SetLoading(true), QueryProfile(data.email)];
    var b := if SignUpAttempted(q) then [CallSignUp(SignUpRequestOf(data))] else [];
    var c := Notice(OutcomeOf(data, formEmail, q, signUp, errorMessage));
    var d := [SetLoading(false)];
    assert SubmissionEffects(data, formEmail, q, signUp, errorMessage) == a + b + c + d;
    NoticeObservables(OutcomeOf(data, formEmail, q, signUp, errorMessage));
    SelectPair(a[0], a[1], ToastOf);
    SelectPair(a[0], a[1], NavigationOf);
    SelectPair(a[0], a[1], SignUpCallOf);
    SelectSubmission(a, b, c, d, ToastOf);
    SelectSubmission(a, b, c, d, NavigationOf);
    SelectSubmission(a, b, c, d, SignUpCallOf);
  }

  /**
   * The busy flag is raised by the first effect of a submission and lowered by
   * its last, nothing in between touches it, and it ends lowered whatever it
   * was before.
   */
  lemma BusyFlagBrackets(data: SignupFormData, formEmail: string, q: ProfileQuery,
                         signUp: Option<Thrown>, errorMessage: Thrown -> string, before: bool)
    ensures var r := SubmissionEffects(data, formEmail, q, signUp, errorMessage);
            && |r| >= 3
            && r[0] == SetLoading(true)
            && r[|r| - 1] == SetLoading(false)
            && (forall i :: 0 < i < |r| - 1 ==> !r[i].SetLoading?)
            && !LoadingAfter(before, r)
  {
    var r := SubmissionEffects(data, formEmail, q, signUp, errorMessage);
    var d := [SetLoading(false)];
    LoadingAfterAppend(before, r[..|r| - 1], d);
    assert r[..|r| - 1] + d == r;
  }

  /**
   * A record found by the pre-check: account creation is never called; one
   * "Account Already Exists" toast; one navigation to the login page carrying
   * the submitted email and the explanation.
   */
  lemma ExistingUserGoesToLogin(data: SignupFormData, formEmail: string, q: ProfileQuery,
                                signUp: Option<Thrown>, errorMessage: Thrown -> string)
    requires !QueryAborts(q) && q.existingUser.Some?
    ensures var r := SubmissionEffects(data, formEmail, q, signUp, errorMessage);
            && SignUpCalls(r) == []
            && Toasts(r) == [Toast(AlreadyExistsTitle, AlreadyExistsMessage)]
            && Navigations(r) == [Navigation(LoginPath, NavState(data.email, AlreadyExistsMessage))]
  {
    SubmissionObservables(data, formEmail, q, signUp, errorMessage);
  }

  /** The "no rows" query error is ignored: the submission goes on as if the query had reported no error. */
  lemma NoRowsErrorIgnored(data: SignupFormData, formEmail: string, existingUser: Option<ProfileRecord>,
                           message: string, signUp: Option<Thrown>, errorMessage: Thrown -> string)
    ensures SubmissionEffects(data, formEmail, ProfileQuery(existingUser, Some(PostgrestError(NoRowsCode, message))), signUp, errorMessage)
         == SubmissionEffects(data, formEmail, ProfileQuery(existingUser, None), signUp, errorMessage)
  {
  }

  /**
   * Any other query error aborts before account creation, whether or not a
   * record came back: one generic "unexpected error" toast and no navigation.
   */
  lemma QueryErrorAborts(data: SignupFormData, formEmail: string, q: ProfileQuery,
                         signUp: Option<Thrown>, errorMessage: Thrown -> string)
    requires q.checkError.Some? && q.checkError.value.code != NoRowsCode
    ensures var r := SubmissionEffects(data, formEmail, q, signUp, errorMessage);
            && SignUpCalls(r) == []
            && Toasts(r) == [Toast(ErrorTitle, UnexpectedMessage)]
            && Navigations(r) == []
  {
    SubmissionObservables(data, formEmail, q, signUp, errorMessage);
  }

  /**
   * Account created: the submitted request went out, the role picks both the
   * redirect and the toast, and the navigation carries the submitted email
   * and the welcome message.
   */
  lemma CreatedGoesToRolePage(data: SignupFormData, formEmail: string, q: ProfileQuery,
                              errorMessage: Thrown -> string)
    requires SignUpAttempted(q)
    ensures var r := SubmissionEffects(data, formEmail, q, None, errorMessage);
            && SignUpCalls(r) == [SignUpRequest(data.email, data.password, UserMetadata(data.fullName, data.username, data.role))]
            && Toasts(r) == [Toast(CreatedTitle, if data.role == Artist then ArtistWelcome else CustomerWelcome)]
            && Navigations(r) == [Navigation(if data.role == Artist then ArtistPath else DashboardPath, NavState(data.email, WelcomeMessage))]
  {
    SubmissionObservables(data, formEmail, q, None, errorMessage);
  }

  /**
   * Changing only the role of a successful signup changes the toast's
   * description, but not the message handed to the next page.
   */
  lemma RoleChangesToastNotNavigationMessage(data: SignupFormData, formEmail: string, q: ProfileQuery,
                                             errorMessage: Thrown -> string)
    requires SignUpAttempted(q)
    ensures var artist := SubmissionEffects(data.(role := Artist), formEmail, q, None, errorMessage);
            var customer := SubmissionEffects(data.(role := Customer), formEmail, q, None, errorMessage);
            && |Toasts(artist)| == |Toasts(customer)| == 1
            && |Navigations(artist)| == |Navigations(customer)| == 1
            && Toasts(artist)[0].description != Toasts(customer)[0].description
            && Navigations(artist)[0].state == Navigations(customer)[0].state
            && Navigations(artist)[0].path != Navigations(customer)[0].path
  {
    CreatedGoesToRolePage(data.(role := Artist), formEmail, q, errorMessage);
    CreatedGoesToRolePage(data.(role := Customer), formEmail, q, errorMessage);
  }

  /**
   * The classifier's test is a disjunction: an `AuthApiError` counts as
   * "already registered" when its message contains the marker at some
   * position, or when its status is 422; no other error ever does.
   */
  lemma AlreadyRegisteredIsDisjunction(e: Thrown)
    ensures IsAlreadyRegistered(e) <==>
              e.AuthApiError? &&
              ((exists i: nat :: OccursAt(e.message, AlreadyRegisteredMarker, i)) || e.status == AlreadyRegisteredStatus)
  {
    if e.AuthApiError? {
      IncludesIffOccurs(e.message, AlreadyRegisteredMarker);
    }
  }

  /** An API error whose message embeds the marker is "already registered" whatever its status. */
  lemma MarkerAloneSuffices(status: int, before: string, after: string)
    ensures IsAlreadyRegistered(AuthApiError(status, before + AlreadyRegisteredMarker + after))
  {
    IncludesInfix(before, AlreadyRegisteredMarker, after);
  }

  /**
   * Account creation reports "already registered": the same toast and the
   * same navigation as a record found by the pre-check, except that the email
   * carried is the form's current email value. When that value is the
   * submitted one, as it is for a submission made through the form, the two
   * branches cannot be told apart.
   */
  lemma AlreadyRegisteredLikePreCheck(data: SignupFormData, formEmail: string, q: ProfileQuery,
                                      e: Thrown, found: ProfileQuery, signUp: Option<Thrown>,
                                      errorMessage: Thrown -> string)
    requires SignUpAttempted(q) && IsAlreadyRegistered(e)
    requires !QueryAborts(found) && found.existingUser.Some?
    ensures var r := SubmissionEffects(data, formEmail, q, Some(e), errorMessage);
            && Toasts(r) == [Toast(AlreadyExistsTitle, AlreadyExistsMessage)]
            && Navigations(r) == [Navigation(LoginPath, NavState(formEmail, AlreadyExistsMessage))]
    ensures var r := SubmissionEffects(data, formEmail, q, Some(e), errorMessage);
            var p := SubmissionEffects(data, formEmail, found, signUp, errorMessage);
            && (formEmail == data.email ==> Toasts(r) == Toasts(p) && Navigations(r) == Navigations(p))
            && (formEmail != data.email ==> Navigations(r) != Navigations(p))
  {
    SubmissionObservables(data, formEmail, q, Some(e), errorMessage);
    ExistingUserGoesToLogin(data, formEmail, found, signUp, errorMessage);
  }

  /**
   * Any other `AuthError` from account creation: one "Error Creating Account"
   * toast whose description the error-message lookup gives, and no navigation.
   */
  lemma OtherAuthErrorShowsLookup(data: SignupFormData, formEmail: string, q: ProfileQuery,
                                  e: Thrown, errorMessage: Thrown -> string)
    requires SignUpAttempted(q) && IsAuthError(e) && !IsAlreadyRegistered(e)
    ensures var r := SubmissionEffects(data, formEmail, q, Some(e), errorMessage);
            && Toasts(r) == [Toast(ErrorTitle, errorMessage(e))]
            && Navigations(r) == []
  {
    SubmissionObservables(data, formEmail, q, Some(e), errorMessage);
  }

  /** An error that is not an `AuthError`: the generic toast and no navigation. */
  lemma NonAuthErrorShowsGeneric(data: SignupFormData, formEmail: string, q: ProfileQuery,
                                 e: Thrown, errorMessage: Thrown -> string)
    requires SignUpAttempted(q) && !IsAuthError(e)
    ensures var r := SubmissionEffects(data, formEmail, q, Some(e), errorMessage);
            && Toasts(r) == [Toast(ErrorTitle, UnexpectedMessage)]
            && Navigations(r) == []
  {
    SubmissionObservables(data, formEmail, q, Some(e), errorMessage);
  }
}
