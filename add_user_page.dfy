/** `AddUserPage`: the create-user form, its validation and the outcome of the create request. */
module AddUser {
  import opened Wrappers
  import opened Text
  import opened UserForm
  import opened Effects
  import Http
  import Phone

  const UsersListPath := "/dashboard/users"
  const NoResponseMessage := "پاسخ از سرور دریافت نشد"
  const UserCreatedMessage := "کاربر با موفقیت ایجاد شد!"
  const UnknownErrorMessage := "خطای ناشناخته‌ای رخ داده است. لطفا دوباره تلاش کنید."

  /** The complete rule set of the add form: the identity rules plus both password rules. */
  ghost predicate AddRulesHold(form: FormData, errors: Errors) {
    && IdentityRulesHold(form, errors)
    && (Password in errors <==> IsBlank(form.password) || |form.password| < 4)
    && (Password in errors ==> errors[Password] == if IsBlank(form.password) then PasswordRequired else PasswordTooShort)
    && (ConfirmPassword in errors <==> form.password != form.confirmPassword)
    && (ConfirmPassword in errors ==> errors[ConfirmPassword] == ConfirmMismatch)
  }

  /** `validateForm`: the error record, filled rule by rule. */
  method ValidateForm(form: FormData) returns (errors: Errors)
    ensures AddRulesHold(form, errors)
  {
    errors := IdentityErrors(form);
    if IsBlank(form.password) {
      errors := errors[Password := PasswordRequired];
    } else if |form.password| < 4 {
      errors := errors[Password := PasswordTooShort];
    }
    if form.password != form.confirmPassword {
      errors := errors[ConfirmPassword := ConfirmMismatch];
    }
  }

  /** A form the add page accepts. */
  ghost predicate AddFormValid(form: FormData) {
    && !IsBlank(form.name) && !IsBlank(form.family) && !IsBlank(form.fatherName)
    && NationalIdFormat(form.nationalId) && Phone.FormMobilePattern(form.mobile)
    && !IsBlank(form.password) && |form.password| >= 4
    && form.password == form.confirmPassword
  }

  /** The rules leave no error exactly for a valid form. */
  lemma NoErrorsIffValid(form: FormData, errors: Errors)
    requires AddRulesHold(form, errors)
    ensures errors == map[] <==> AddFormValid(form)
  {
    if AddFormValid(form) {
      assert !IsBlank(form.nationalId) by {
        assert form.nationalId[0] in form.nationalId;
      }
      assert !IsBlank(form.mobile) by {
        assert !IsWhitespace(form.mobile[0]);
      }
      forall f: Field
        ensures f !in errors
      {
        match f
          case Name =>
          case Family =>
          case NationalId =>
          case FatherName =>
          case Mobile =>
          case Password =>
          case ConfirmPassword =>
      }
    }
  }

  /** The rules decide the error record completely. */
  lemma RulesDetermineErrors(form: FormData, e1: Errors, e2: Errors)
    requires AddRulesHold(form, e1) && AddRulesHold(form, e2)
    ensures e1 == e2
  {
    forall f: Field
      ensures (f in e1 <==> f in e2) && (f in e1 ==> e1[f] == e2[f])
    {
      match f
      case Name =>
      case Family =>
      case NationalId =>
      case FatherName =>
      case Mobile =>
      case Password =>
      case ConfirmPassword =>
    }
  }

  /** A whitespace-only password is reported as missing, never as too short. */
  lemma BlankPasswordIsRequired(form: FormData, errors: Errors)
    requires AddRulesHold(form, errors) && IsBlank(form.password)
    ensures Password in errors && errors[Password] == PasswordRequired
  {
  }

  class AddUserPage {
    var form: FormData
    var errors: Errors
    /** the payloads of every create request */
    var createRequests: seq<FormData>
    var toasts: seq<Toast>
    var navigations: seq<Navigation>
    /** the query keys invalidated */
    var invalidated: seq<seq<string>>

    constructor ()
      ensures form == EmptyForm && errors == map[]
      ensures createRequests == [] && toasts == [] && navigations == [] && invalidated == []
    {
      form := EmptyForm;
      errors := map[];
      createRequests := [];
      toasts := [];
      navigations := [];
      invalidated := [];
    }

    /** `handleSubmit`: validate, show the errors, and create only a valid form. */
    method Submit()
      modifies this
      ensures AddRulesHold(form, errors)
      ensures createRequests == old(createRequests) + if errors == map[] then [form] else []
      ensures form == old(form) && toasts == old(toasts) && navigations == old(navigations) && invalidated == old(invalidated)
    {
      var newErrors := ValidateForm(form);
      errors := newErrors;
      if newErrors == map[] {
        createRequests := createRequests + [form];
      }
    }

    /** `handleInputChange`: that field takes the value and loses its error. */
    method InputChange(f: Field, value: string)
      modifies this
      ensures form == old(form).With(f, value)
      ensures errors == ClearFieldError(old(errors), f)
      ensures createRequests == old(createRequests) && toasts == old(toasts) && navigations == old(navigations) && invalidated == old(invalidated)
    {
      form := form.With(f, value);
      errors := ClearFieldError(errors, f);
    }

    /** `onSuccess`: without a reply only an error toast; otherwise refresh the list, toast and go to it. */
    method CreateSucceeded(hasData: bool)
      modifies this
      ensures !hasData ==> (toasts == old(toasts) + [ErrorToast(NoResponseMessage)]
        && navigations == old(navigations) && invalidated == old(invalidated))
      ensures hasData ==> (toasts == old(toasts) + [SuccessToast(UserCreatedMessage)]
        && navigations == old(navigations) + [Navigation(UsersListPath, None, false)]
        && invalidated == old(invalidated) + [["users"]])
      ensures form == old(form) && errors == old(errors) && createRequests == old(createRequests)
    {
      if !hasData {
        toasts := toasts + [ErrorToast(NoResponseMessage)];
        return;
      }
      invalidated := invalidated + [["users"]];
      toasts := toasts + [SuccessToast(UserCreatedMessage)];
      navigations := navigations + [Navigation(UsersListPath, None, false)];
    }

    /** `onError`: the server's message and field errors, or the generic toast without response data. */
    method CreateFailed(e: Http.HttpError)
      modifies this
      ensures var fb := OnErrorFeedback(e, UnknownErrorMessage);
        && (fb.GenericFeedback? ==> toasts == old(toasts) + [fb.generic] && errors == old(errors))
        && (fb.FieldFeedback? ==> toasts == old(toasts) + (if fb.toast.Some? then [fb.toast.value] else [])
                                  && MapsAllFields(errors, fb.fieldErrors))
      ensures form == old(form) && createRequests == old(createRequests)
      ensures navigations == old(navigations) && invalidated == old(invalidated)
    {
      var fb := OnErrorFeedback(e, UnknownErrorMessage);
      match fb {
        case GenericFeedback(t) =>
          toasts := toasts + [t];
        case FieldFeedback(t, fieldErrors) =>
          if t.Some? {
            toasts := toasts + [t.value];
          }
          var mapped := MapServerErrors(fieldErrors);
          errors := mapped;
      }
    }
  }
}
