/**
 * The signup form component: its busy flag, the current values of its
 * fields, and the effects it has had so far. `OnSubmit` follows the
 * submission handler step by step, with its early return and its
 * try/catch/finally; each method is proved against the description of a
 * submission in module Signup.
 */
module SignupFormComponent {
  import opened Signup

  class SignupForm {
    /** The busy flag shown by the form while a submission runs. */
    var isLoading: bool
    /** The form fields' current values. */
    var formValues: SignupFormData
    /** Every effect the component has had, oldest first. */
    var effects: seq<Event>

    /** The busy flag is what the loading effects recorded so far leave it at. */
    ghost predicate Valid()
      reads this
    {
      isLoading == LoadingAfter(false, effects)
    }

    constructor ()
      ensures Valid()
      ensures !isLoading && formValues == DefaultFormValues && effects == []
    {
      isLoading := false;
      formValues := DefaultFormValues;
      effects := [];
    }

    /** The user fills in the fields. */
    method EnterValues(values: SignupFormData)
      requires Valid()
      modifies this`formValues
      ensures Valid()
      ensures formValues == values
    {
      formValues := values;
    }

    /** A toast followed by the navigation to the login page. */
    method RedirectToLogin(email: string)
      modifies this`effects
      ensures effects == old(effects) + Notice(DuplicateAccount(email))
    {
      effects := effects + [ShowToast(Toast(AlreadyExistsTitle, AlreadyExistsMessage))];
      effects := effects + [Navigate(Navigation(LoginPath, NavState(email, AlreadyExistsMessage)))];
    }

    /** Reports an authentication error caught while creating the account. */
    method HandleAuthError(error: Thrown, errorMessage: Thrown -> string)
      requires IsAuthError(error)
      modifies this`effects
      ensures effects == old(effects) + Notice(ClassifyFailure(error, formValues.email, errorMessage))
    {
      if IsAlreadyRegistered(error) {
        RedirectToLogin(formValues.email);
        return;
      }
      effects := effects + [ShowToast(Toast(ErrorTitle, errorMessage(error)))];
    }

    /**
     * The body of the submission's `try` block, after the busy flag is
     * raised: the pre-check and account creation. It reports an outcome
     * itself or returns the value it throws.
     */
    method CheckAndCreate(data: SignupFormData, query: ProfileQuery, signUp: Option<Thrown>,
                          errorMessage: Thrown -> string)
      returns (thrown: Option<Thrown>)
      modifies this`effects
      ensures var attempt := if SignUpAttempted(query) then [CallSignUp(SignUpRequestOf(data))] else [];
              var outcome := OutcomeOf(data, formValues.email, query, signUp, errorMessage);
              && (thrown.None? ==> effects == old(effects) + [QueryProfile(data.email)] + attempt + Notice(outcome))
              && (thrown.Some? ==> effects == old(effects) + [QueryProfile(data.email)] + attempt
                                   && outcome == ClassifyFailure(thrown.value, formValues.email, errorMessage))
    {
      thrown := None;
      effects := effects + [QueryProfile(data.email)];
      if query.checkError.Some? && query.checkError.value.code != NoRowsCode {
        thrown := Some(QueryError(query.checkError.value));
        return;
      }
      if query.existingUser.Some? {
        RedirectToLogin(data.email);
        return;
      }
      effects := effects + [CallSignUp(SignUpRequestOf(data))];
      if signUp.Some? {
        thrown := signUp;
        return;
      }
      var redirectPath := RedirectPath(data.role);
      effects := effects + [ShowToast(Toast(CreatedTitle, WelcomeDescription(data.role)))];
      effects := effects + [Navigate(Navigation(redirectPath, NavState(data.email, WelcomeMessage)))];
    }

    /**
     * Submits `data`: `query` is what the profile store answers for its email,
     * `signUp` what account creation answers (`None` for success) if it is
     * called.
     */
    method OnSubmit(data: SignupFormData, query: ProfileQuery, signUp: Option<Thrown>,
                    errorMessage: Thrown -> string)
      requires Valid()
      modifies this`isLoading, this`effects
      ensures Valid() && !isLoading
      ensures effects == old(effects) + SubmissionEffects(data, formValues.email, query, signUp, errorMessage)
    {
      ghost var before := effects;
      ghost var attempt := if SignUpAttempted(query) then [CallSignUp(SignUpRequestOf(data))] else [];
      ghost var outcome := OutcomeOf(data, formValues.email, query, signUp, errorMessage);
      // try
      isLoading := true;
      effects := effects + [SetLoading(true)];
      var thrown := CheckAndCreate(data, query, signUp, errorMessage);
      // catch
      if thrown.Some? {
        if IsAuthError(thrown.value) {
          HandleAuthError(thrown.value, errorMessage);
        } else {
          effects := effects + [ShowToast(Toast(ErrorTitle, UnexpectedMessage))];
        }
      }
      ghost var reported := [SetLoading(true), QueryProfile(data.email)] + attempt + Notice(outcome);
      assert effects == before + reported;
      // finally
      isLoading := false;
      effects := effects + [SetLoading(false)];
      AppendAssociative(before, reported, [SetLoading(false)]);
      BusyFlagBrackets(data, formValues.email, query, signUp, errorMessage, LoadingAfter(false, before));
      LoadingAfterAppend(false, before, SubmissionEffects(data, formValues.email, query, signUp, errorMessage));
    }

    /**
     * The form's submit handler: when the fields pass the form's schema, the
     * current field values are submitted; otherwise nothing happens.
     */
    method HandleSubmit(passesSchema: bool, query: ProfileQuery, signUp: Option<Thrown>,
                        errorMessage: Thrown -> string)
      requires Valid()
      modifies this`isLoading, this`effects
      ensures Valid()
      ensures !passesSchema ==> isLoading == old(isLoading) && effects == old(effects)
      ensures passesSchema ==>
                !isLoading &&
                effects == old(effects) + SubmissionEffects(formValues, formValues.email, query, signUp, errorMessage)
    {
      if passesSchema {
        OnSubmit(formValues, query, signUp, errorMessage);
      }
    }
  }
}
