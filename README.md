# Signup submission flow of the GlamConnect signup form

This project models what the signup form of the GlamConnect marketplace front end
does when a validated form is submitted. The handler raises the form's busy flag. It
then asks the profile store whether a profile with the submitted email exists, which is
the duplicate-account pre-check. Unless that check failed or found a record, it calls the
authentication service to create the account with the submitted email, password, full
name, username and role. Finally it reports the result with exactly one toast and at most
one navigation, and lowers the busy flag again whichever way the submission ended.

The model has three modules:

- `Strings` (`strings.dfy`): JavaScript's `String.prototype.includes` as `Includes`. It is a
  left-to-right scan, proved equal to "the text occurs at some position" (`OccursAt`).
- `Signup` (`signup.dfy`): the data model (form values, profile-query result, thrown errors,
  the account-creation request, toasts, navigations). It also holds the pure decisions: the
  redirect path, the "already registered" test, and whether the pre-check aborts or lets
  account creation go ahead. A submission is described in two ways. `OutcomeOf` gives which
  of the four ways it ended (account created, duplicate account, classified auth failure,
  unexpected failure). `SubmissionEffects` gives the ordered sequence of everything the
  submission does. Each property of the flow is a lemma about these two functions.
- `SignupFormComponent` (`signup_form.dfy`): the component as a class. It has a busy flag
  `isLoading`, the form fields' current values `formValues`, and an ordered trace `effects`
  of everything done so far. `OnSubmit` follows the handler step by step. Its early returns
  are plain returns. Its `throw`s become a returned `thrown` value, which the `catch` part
  then handles, and the `finally` part is the code at the end of the method. `OnSubmit`, and
  `HandleSubmit` when the schema passes, are proved to add exactly `SubmissionEffects(...)`
  to the trace. The helpers add their own parts: `RedirectToLogin` and `HandleAuthError` add
  the `Notice` of an outcome, `CheckAndCreate` adds the query, the account-creation call and
  a `Notice`, and `EnterValues` adds nothing. `Valid()` ties the busy flag to the loading
  events recorded in the trace.

The external collaborators are inputs, not code:

- The profile query's answer is a `ProfileQuery`: an optional `existingUser` and an optional
  `checkError` with a code.
- The account-creation answer is `None` on success. On failure it is `Some(e)`, where `e` is
  an `AuthApiError` with a status and message, another `AuthError`, or a value that is not an
  `AuthError`.
- The library function `getErrorMessage` is the parameter `errorMessage`, about which nothing
  is assumed.
- The form's schema check, which `form.handleSubmit` runs before calling the handler, is the
  boolean `passesSchema` of `HandleSubmit`.

The classifier's rule is a disjunction and also requires an `AuthApiError`
(`src/components/SignupForm.tsx:37-38`): an error counts as "already registered" when it is
an `AuthApiError` and either its message contains the marker or its status is 422.
`AlreadyRegisteredIsDisjunction` states this rule. The code takes the email for the "already
registered" navigation from the form's current field value (`form.getValues("email")`,
line 47), not from the submitted data. The model keeps the two apart (`formValues.email`
against `data.email`). `AlreadyRegisteredLikePreCheck` shows that the two duplicate branches
give the same toasts and navigations when these emails agree, and different navigations when
they do not.

## Model

| member | source | states |
|---|---|---|
| `Strings.IncludesIffOccurs` | src/components/SignupForm.tsx:38 | `message.includes(marker)` holds exactly when the marker occurs in the message at some position, in both directions |
| `Strings.IncludesInfix` | src/components/SignupForm.tsx:38 | a message that embeds the marker anywhere, between any text before and after it, includes it |
| `Signup.RedirectPath` | src/components/SignupForm.tsx:117 | the redirect after account creation is `/register-artist` exactly when the role is artist, and `/dashboard` exactly when it is customer |
| `Signup.SubmissionObservables` | src/components/SignupForm.tsx:61-147 | every submission shows exactly one toast and navigates at most once. The toast and navigation are those of its outcome. Account creation is called once, with the submitted email and password and metadata `{fullName, username, role}` unchanged, exactly when the pre-check neither failed nor found a record, and never otherwise |
| `Signup.BusyFlagBrackets` | src/components/SignupForm.tsx:62-146 | the first effect of every submission raises the busy flag and the last lowers it. No effect in between touches the flag, so every query, call, toast and navigation happens while it is raised. The flag ends lowered whatever it was before |
| `Signup.ExistingUserGoesToLogin` | src/components/SignupForm.tsx:81-95 | when the pre-check finds a record and did not fail, account creation is never called. The only toast is "Account Already Exists" with the explanation. The only navigation goes to `/login` with state `{email: submitted email, message: explanation}` |
| `Signup.NoRowsErrorIgnored` | src/components/SignupForm.tsx:76-79 | a query error with code `PGRST116` changes nothing: the submission does exactly what it does when the query reports no error |
| `Signup.QueryErrorAborts` | src/components/SignupForm.tsx:76-79 | any other query error aborts before account creation, even when a record came back. Because the thrown query error is not an `AuthError` (lines 135-143), the only toast is the generic "An unexpected error occurred. Please try again." and nothing navigates |
| `Signup.CreatedGoesToRolePage` | src/components/SignupForm.tsx:98-132 | after a successful account creation, the call carried the submitted request. The toast is "Account Created Successfully!" with the artist or customer description that matches the role. The one navigation goes to the role's page with state `{email: submitted email, message: "Account created successfully. Welcome to GlamConnect!"}` |
| `Signup.RoleChangesToastNotNavigationMessage` | src/components/SignupForm.tsx:119-132 | changing only the role of a successful signup changes the toast description and the target path, but not the navigation state |
| `Signup.AlreadyRegisteredIsDisjunction` | src/components/SignupForm.tsx:37-38 | an error is "already registered" exactly when it is an `AuthApiError` and either its message contains "User already registered" somewhere or its status is 422. Either condition alone is enough |
| `Signup.MarkerAloneSuffices` | src/components/SignupForm.tsx:38 | an `AuthApiError` whose message embeds the marker is "already registered" whatever its status |
| `Signup.AlreadyRegisteredLikePreCheck` | src/components/SignupForm.tsx:37-51 | an "already registered" failure of account creation shows the "Account Already Exists" toast and navigates to `/login` with the form's current email and the explanation. When that email is the submitted one, its toasts and navigations are identical to those of a record found by the pre-check; when it is not, the navigations differ |
| `Signup.OtherAuthErrorShowsLookup` | src/components/SignupForm.tsx:54-58 | any other `AuthError` from account creation shows one "Error Creating Account" toast whose description is `getErrorMessage(error)`, and does not navigate |
| `Signup.NonAuthErrorShowsGeneric` | src/components/SignupForm.tsx:135-143 | a failure that is not an `AuthError` shows one "Error Creating Account" toast with the generic description, and does not navigate |
| `Strings.Includes` | src/components/SignupForm.tsx:38 | the `includes` scan of the error message; its meaning is given by `IncludesIffOccurs` |
| `Signup.IsAlreadyRegistered` | src/components/SignupForm.tsx:37-38 | the classifier's condition; `AlreadyRegisteredIsDisjunction` states what it accepts, in both directions |
| `Signup.QueryAborts` | src/components/SignupForm.tsx:76-79 | a query error other than `PGRST116` aborts; `QueryErrorAborts` and `NoRowsErrorIgnored` give its effect |
| `Signup.SignUpAttempted` | src/components/SignupForm.tsx:76-95 | account creation goes ahead exactly when the pre-check neither aborted nor found a record; `SubmissionObservables` proves the call happens exactly then |
| `Signup.SignUpRequestOf` | src/components/SignupForm.tsx:98-108 | the account-creation request; `SubmissionObservables` and `CreatedGoesToRolePage` state its fields field by field |
| `Signup.WelcomeDescription` | src/components/SignupForm.tsx:121-123 | the success toast's description; `CreatedGoesToRolePage` and `RoleChangesToastNotNavigationMessage` state which role gets which text |
| `Signup.ClassifyFailure` | src/components/SignupForm.tsx:133-143 | the `catch`: a non-`AuthError` is unexpected, an "already registered" error is a duplicate with the form's email, any other `AuthError` is a failure with the looked-up message; its cases are the lemmas `AlreadyRegisteredLikePreCheck`, `OtherAuthErrorShowsLookup` and `NonAuthErrorShowsGeneric` |
| `Signup.OutcomeOf` | src/components/SignupForm.tsx:61-147 | which of the four ways a submission ends; the branch lemmas above give each case |
| `Signup.SubmissionEffects` | src/components/SignupForm.tsx:61-147 | the ordered effects of one submission; `SubmissionObservables` and `BusyFlagBrackets` state its properties, and `OnSubmit` is proved to produce it |
| `SignupFormComponent.SignupForm.EnterValues` | src/components/SignupForm.tsx:22-33 | the user fills in the fields that the form manages: the fields take the given values and the busy flag and trace are unchanged |
| `SignupFormComponent.SignupForm.constructor` | src/components/SignupForm.tsx:18-33 | a new form is not busy, has done nothing yet, and starts from the default values: empty texts, role customer, terms not accepted |
| `SignupFormComponent.SignupForm.RedirectToLogin` | src/components/SignupForm.tsx:83-93 | appends the "Account Already Exists" toast, then the navigation to `/login` carrying the given email and the explanation |
| `SignupFormComponent.SignupForm.HandleAuthError` | src/components/SignupForm.tsx:35-59 | appends to the trace exactly the report of the error's classification: the `/login` redirect for "already registered" with the form's email, otherwise one toast with the looked-up message |
| `SignupFormComponent.SignupForm.CheckAndCreate` | src/components/SignupForm.tsx:66-132 | the body of the `try` block. It records the query, then the account-creation call when the pre-check lets it, then the outcome's report when nothing is thrown. When something is thrown, the classification of the thrown value is the submission's outcome |
| `SignupFormComponent.SignupForm.OnSubmit` | src/components/SignupForm.tsx:61-147 | appends exactly `SubmissionEffects` of the submission to the trace, ends with the busy flag lowered, and keeps the flag equal to what the recorded loading events leave it at |
| `SignupFormComponent.SignupForm.HandleSubmit` | src/components/SignupForm.tsx:151 | a form that passes the schema submits its current field values and adds exactly that submission's effects; a form that fails the schema changes nothing |

## Left out

- `src/components/Hero.tsx` is static markup with two links and no logic.
- The schema `signupSchema` and the function `getErrorMessage` are defined in files that are not part of this model. The schema's verdict is the `passesSchema` input of `HandleSubmit`. `getErrorMessage` is an arbitrary function `errorMessage`, about which nothing is assumed.
- The database and authentication client (`from/select/eq/maybeSingle`, `auth.signUp`) is external I/O. Its answers are inputs. A query or sign-up call whose promise itself rejects is not a separate case. The value it would throw can be given as the sign-up failure, but a rejection of the profile query is not representable.
- The data that a successful `signUp` returns is only logged, so it is not modelled.
- Rendering (`Form`, `RegistrationForm`), the React hooks as mechanisms, and the `onOpenTerms` callback, which is passed through unchanged. `EnterValues` stands for the user filling in the fields.
- The `console.log`/`console.error` diagnostics, the toasts' `variant` and `duration`, and the suspension at each `await`. The flow runs to completion once started, so it is modelled as straight-line code.
- The busy flag does not gate re-submission inside the handler, because the handler never reads it. A second submission while one is running (concurrency) is not modelled.
- `SignupFormComponent.SignupForm.HandleSubmit`: assumes two things the source does not guarantee. First, the schema's parsed output equals the raw field values; the schema is not part of this model and might trim or normalise the email. Second, the fields do not change during the two `await`s before `form.getValues("email")` is read. Without these assumptions the submitted email and the form's email can differ, and then the two duplicate branches navigate with different emails, as `AlreadyRegisteredLikePreCheck` states.
