/** `ViewEditUserPage`: viewing a user, editing it, and the update request built from the form. */
module EditUser {
  import opened Wrappers
  import opened Text
  import opened UserForm
  import opened Effects
  import Http
  import Users
  import AddUser

  const UserUpdatedMessage := "اطلاعات کاربر با موفقیت به‌روزرسانی شد!"
  const UnknownErrorMessage := "خطای ناشناخته‌ای رخ داده است. لطفاً دوباره تلاش کنید."

  /** The form a loaded user fills: missing or empty fields become "", both passwords "". */
  function FormFromUser(u: Users.ApiUser): (form: FormData)
    ensures form.name == u.name && form.mobile == u.mobile
    ensures form.family == (if u.family.Some? then u.family.value else "")
    ensures form.nationalId == (if u.nationalId.Some? then u.nationalId.value else "")
    ensures form.fatherName == (if u.fatherName.Some? then u.fatherName.value else "")
    ensures form.password == "" && form.confirmPassword == ""
  {
    FormData(u.name, u.family.GetOr(""), u.nationalId.GetOr(""), u.fatherName.GetOr(""), u.mobile, "", "")
  }

  /** The edit form's rules: the identity rules, and the password rules only while editing. */
  ghost predicate EditRulesHold(form: FormData, isEditing: bool, errors: Errors) {
    && IdentityRulesHold(form, errors)
    && (Password in errors <==> isEditing && form.password != "" && |form.password| < 4)
    && (Password in errors ==> errors[Password] == PasswordTooShort)
    && (ConfirmPassword in errors <==> isEditing && form.password != form.confirmPassword)
    && (ConfirmPassword in errors ==> errors[ConfirmPassword] == ConfirmMismatch)
  }

  /** `validateForm` of the edit page. */
  method ValidateForm(form: FormData, isEditing: bool) returns (errors: Errors)
    ensures EditRulesHold(form, isEditing, errors)
  {
    errors := IdentityErrors(form);
    if isEditing && form.password != "" && |form.password| < 4 {
      errors := errors[Password := PasswordTooShort];
    }
    if isEditing && form.password != form.confirmPassword {
      errors := errors[ConfirmPassword := ConfirmMismatch];
    }
  }

  /** Every error the edit page reports while editing, the add page reports for the same form too. */
  lemma EditIsLaxerThanAdd(form: FormData, addErrors: Errors, editErrors: Errors)
    requires AddUser.AddRulesHold(form, addErrors) && EditRulesHold(form, true, editErrors)
    ensures editErrors.Keys <= addErrors.Keys
  {
    forall f | f in editErrors
      ensures f in addErrors
    {
        match f
        case Name =>
        case Family =>
        case NationalId =>
        case FatherName =>
        case Mobile =>
        case Password =>
        case ConfirmPassword =>
    }
  }

  /** Outside edit mode, and with an empty password, no password error can arise. */
  lemma NoPasswordErrorWithoutNewPassword(form: FormData, isEditing: bool, errors: Errors)
    requires EditRulesHold(form, isEditing, errors)
    requires !isEditing || form.password == ""
    ensures Password !in errors
    ensures !isEditing ==> ConfirmPassword !in errors
  {
  }

  /** The update request: the identity fields, and both passwords only when a new password is typed. */
  datatype UpdatePayload = UpdatePayload(
    name: string,
    family: string,
    nationalId: string,
    fatherName: string,
    mobile: string,
    password: Option<string>,
    confirmPassword: Option<string>)

  /** `handleSubmit`'s payload shaping. */
  function PayloadOf(form: FormData): (p: UpdatePayload)
    ensures p.name == form.name && p.family == form.family && p.nationalId == form.nationalId
    ensures p.fatherName == form.fatherName && p.mobile == form.mobile
    ensures p.password.Some? <==> form.password != ""
    ensures p.confirmPassword.Some? <==> form.password != ""
    ensures p.password.Some? ==> p.password.value == form.password && p.confirmPassword.value == form.confirmPassword
  {
    if form.password != "" then
      UpdatePayload(form.name, form.family, form.nationalId, form.fatherName, form.mobile, Some(form.password), Some(form.confirmPassword))
    else
      UpdatePayload(form.name, form.family, form.nationalId, form.fatherName, form.mobile, None, None)
  }

  /** Saving the loaded form unchanged sends the user's own fields and no password. */
  lemma UnchangedFormSendsNoPassword(u: Users.ApiUser)
    ensures var p := PayloadOf(FormFromUser(u));
      p.password.None? && p.confirmPassword.None? && p.name == u.name && p.mobile == u.mobile
  {
  }

  class EditUserPage {
    /** the `:id` route parameter */
    const id: string
    /** the loaded user, once the query has data */
    var user: Option<Users.ApiUser>
    var isEditing: bool
    var form: FormData
    var errors: Errors
    /** the payloads of every update request */
    var updateRequests: seq<UpdatePayload>
    var toasts: seq<Toast>
    var invalidated: seq<seq<string>>

    constructor (id: string)
      ensures this.id == id && user == None && !isEditing
      ensures form == EmptyForm && errors == map[]
      ensures updateRequests == [] && toasts == [] && invalidated == []
    {
      this.id := id;
      user := None;
      isEditing := false;
      form := EmptyForm;
      errors := map[];
      updateRequests := [];
      toasts := [];
      invalidated := [];
    }

    /** The effect on `[user]`: a loaded user fills the form. */
    method UserLoaded(u: Users.ApiUser)
      modifies this
      ensures user == Some(u) && form == FormFromUser(u)
      ensures isEditing == old(isEditing) && errors == old(errors)
      ensures updateRequests == old(updateRequests) && toasts == old(toasts) && invalidated == old(invalidated)
    {
      user := Some(u);
      form := FormFromUser(u);
    }

    /** The "edit" button, shown only while viewing. */
    method StartEditing()
      requires user.Some? && !isEditing
      modifies this
      ensures isEditing
      ensures user == old(user) && form == old(form) && errors == old(errors)
      ensures updateRequests == old(updateRequests) && toasts == old(toasts) && invalidated == old(invalidated)
    {
      isEditing := true;
    }

    /** `handleCancel`: back to the user's values, out of edit mode, no errors. */
    method Cancel()
      modifies this
      ensures old(user).Some? ==> form == FormFromUser(old(user).value)
      ensures old(user).None? ==> form == old(form)
      ensures !isEditing && errors == map[]
      ensures user == old(user) && updateRequests == old(updateRequests) && toasts == old(toasts) && invalidated == old(invalidated)
    {
      if user.Some? {
        form := FormFromUser(user.value);
      }
      isEditing := false;
      errors := map[];
    }

    /** `handleSubmit`: validate and send the shaped payload for a valid form. */
    method Submit()
      modifies this
      ensures EditRulesHold(form, isEditing, errors)
      ensures updateRequests == old(updateRequests) + if errors == map[] then [PayloadOf(form)] else []
      ensures form == old(form) && isEditing == old(isEditing) && user == old(user)
      ensures toasts == old(toasts) && invalidated == old(invalidated)
    {
      var newErrors := ValidateForm(form, isEditing);
      errors := newErrors;
      if newErrors == map[] {
        updateRequests := updateRequests + [PayloadOf(form)];
      }
    }

    /** `handleInputChange`; the inputs are enabled only while editing. */
    method InputChange(f: Field, value: string)
      requires isEditing
      modifies this
      ensures form == old(form).With(f, value)
      ensures errors == ClearFieldError(old(errors), f)
      ensures isEditing == old(isEditing) && user == old(user)
      ensures updateRequests == old(updateRequests) && toasts == old(toasts) && invalidated == old(invalidated)
    {
      form := form.With(f, value);
      errors := ClearFieldError(errors, f);
    }

    /** `onSuccess`: refresh the list and this user, leave edit mode, toast. */
    method UpdateSucceeded()
      modifies this
      ensures !isEditing
      ensures invalidated == old(invalidated) + [["users"], ["user", id]]
      ensures toasts == old(toasts) + [SuccessToast(UserUpdatedMessage)]
      ensures form == old(form) && errors == old(errors) && user == old(user) && updateRequests == old(updateRequests)
    {
      invalidated := invalidated + [["users"], ["user", id]];
      isEditing := false;
      toasts := toasts + [SuccessToast(UserUpdatedMessage)];
    }

    /** `onError`: the server's message and field errors, or the generic toast without response data. */
    method UpdateFailed(e: Http.HttpError)
      modifies this
      ensures var fb := OnErrorFeedback(e, UnknownErrorMessage);
        && (fb.GenericFeedback? ==> toasts == old(toasts) + [fb.generic] && errors == old(errors))
        && (fb.FieldFeedback? ==> toasts == old(toasts) + (if fb.toast.Some? then [fb.toast.value] else [])
                                  && MapsAllFields(errors, fb.fieldErrors))
      ensures form == old(form) && isEditing == old(isEditing) && user == old(user)
      ensures updateRequests == old(updateRequests) && invalidated == old(invalidated)
    {
      var fb := OnErrorFeedback(e, UnknownErrorMessage);
      match fb {
        case GenericFeedback(t) =>
          toasts := toasts + [t];
        case FieldFeedback(t, fieldErrors) =>
          if t.Some? {
            toasts := toasts + [t.value];
          }
          var mapped := MapServerErrors(fieldErrors);
          errors := mapped;
      }
    }
  }
}
