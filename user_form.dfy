/** `UserFormData` and the rules and mappings the add and edit user pages share. */
module UserForm {
  import opened Wrappers
  import opened Text
  import Phone

  datatype Field = Name | Family | NationalId | FatherName | Mobile | Password | ConfirmPassword

  datatype FormData = FormData(
    name: string,
    family: string,
    nationalId: string,
    fatherName: string,
    mobile: string,
    password: string,
    confirmPassword: string)
  {
    function Get(f: Field): string {
      match f
      case Name => name
      case Family => family
      case NationalId => nationalId
      case FatherName => fatherName
      case Mobile => mobile
      case Password => password
      case ConfirmPassword => confirmPassword
    }

    /** `{ ...prev, [field]: value }`. */
    function With(f: Field, v: string): (r: FormData)
      ensures r.Get(f) == v
      ensures forall g :: g != f ==> r.Get(g) == Get(g)
    {
      match f
      case Name => this.(name := v)
      case Family => this.(family := v)
      case NationalId => this.(nationalId := v)
      case FatherName => this.(fatherName := v)
      case Mobile => this.(mobile := v)
      case Password => this.(password := v)
      case ConfirmPassword => this.(confirmPassword := v)
    }
  }

  const EmptyForm := FormData("", "", "", "", "", "", "")

  /** `Partial<UserFormData>` holding one message per field in error. */
  type Errors = map<Field, string>

  const NameRequired := "نام الزامی است"
  const FamilyRequired := "نام خانوادگی الزامی است"
  const NationalIdRequired := "کد ملی الزامی است"
  const NationalIdLength := "کد ملی باید ۱۰ رقم باشد"
  const FatherNameRequired := "نام پدر الزامی است"
  const MobileRequired := "شماره موبایل الزامی است"
  const MobileFormatMessage := "شماره موبایل باید با ۰۹ شروع شود و ۱۱ رقم باشد"
  const PasswordRequired := "رمز عبور الزامی است"
  const PasswordTooShort := "رمز عبور باید حداقل 4 کاراکتر باشد"
  const ConfirmMismatch := "رمز عبور و تکرار آن باید یکسان باشند"

  /** `/^\d{10}$/` on the untrimmed value. */
  predicate NationalIdFormat(s: string) {
    |s| == 10 && AllDigits(s)
  }

  /**
   * The rules for name, family, national id, father name and mobile, which both
   * validators apply in the same way, and the message each yields.
   */
  ghost predicate IdentityRulesHold(form: FormData, errors: Errors) {
    && (Name in errors <==> IsBlank(form.name))
    && (Name in errors ==> errors[Name] == NameRequired)
    && (Family in errors <==> IsBlank(form.family))
    && (Family in errors ==> errors[Family] == FamilyRequired)
    && (NationalId in errors <==> IsBlank(form.nationalId) || !NationalIdFormat(form.nationalId))
    && (NationalId in errors ==> errors[NationalId] == if IsBlank(form.nationalId) then NationalIdRequired else NationalIdLength)
    && (FatherName in errors <==> IsBlank(form.fatherName))
    && (FatherName in errors ==> errors[FatherName] == FatherNameRequired)
    && (Mobile in errors <==> IsBlank(form.mobile) || !Phone.FormMobilePattern(form.mobile))
    && (Mobile in errors ==> errors[Mobile] == if IsBlank(form.mobile) then MobileRequired else MobileFormatMessage)
  }

  /** The identity part of `validateForm`, filling the error record field by field. */
  method IdentityErrors(form: FormData) returns (errors: Errors)
    ensures IdentityRulesHold(form, errors)
    ensures Password !in errors && ConfirmPassword !in errors
  {
    errors := map[];
    if IsBlank(form.name) {
      errors := errors[Name := NameRequired];
    }
    assert errors.Keys <= {Name};
    if IsBlank(form.family) {
      errors := errors[Family := FamilyRequired];
    }
    assert errors.Keys <= {Name, Family};
    if IsBlank(form.nationalId) {
      errors := errors[NationalId := NationalIdRequired];
    } else if !NationalIdFormat(form.nationalId) {
      errors := errors[NationalId := NationalIdLength];
    }
    assert errors.Keys <= {Name, Family, NationalId};
    if IsBlank(form.fatherName) {
      errors := errors[FatherName := FatherNameRequired];
    }
    assert errors.Keys <= {Name, Family, NationalId, FatherName};
    if IsBlank(form.mobile) {
      errors := errors[Mobile := MobileRequired];
    } else if !Phone.FormMobilePattern(form.mobile) {
      errors := errors[Mobile := MobileFormatMessage];
    }
  }

  /** A mobile that passes the form rule is already in the form normalisation would give it. */
  lemma AcceptedMobileIsNormalized(form: FormData, errors: Errors)
    requires IdentityRulesHold(form, errors) && Mobile !in errors
    ensures Phone.NormalizeIranMobile(form.mobile) == form.mobile
  {
    Phone.NormalizeFixesCanonical(form.mobile);
  }

  /** `handleInputChange`'s error update: a truthy message of that field is cleared, nothing else changes. */
  function ClearFieldError(errors: Errors, f: Field): (r: Errors)
    ensures forall g :: g != f ==> (g in r <==> g in errors) && (g in r ==> r[g] == errors[g])
    ensures f in r <==> f in errors && errors[f] == ""
    ensures f in r ==> r[f] == errors[f]
  {
    if f in errors && errors[f] != "" then errors - {f} else errors
  }

  /** The JSON name of each field in the server's `errors` object. */
  function ServerKey(f: Field): string {
    match f
    case Name => "name"
    case Family => "family"
    case NationalId => "nationalID"
    case FatherName => "father_name"
    case Mobile => "mobile"
    case Password => "password"
    case ConfirmPassword => "confirm_password"
  }

  /** Each field has its own key in the server's `errors` object. */
  lemma ServerKeysDistinct(f: Field, g: Field)
    requires f != g
    ensures ServerKey(f) != ServerKey(g)
  {
  }

  /** Field `f` is in error exactly when the server reported a message for it, and then with the first one. */
  ghost predicate MapsField(errors: Errors, fieldErrors: map<string, seq<string>>, f: Field) {
    && (f in errors <==> ServerKey(f) in fieldErrors && |fieldErrors[ServerKey(f)]| > 0)
    && (f in errors ==> errors[f] == fieldErrors[ServerKey(f)][0])
  }

  ghost predicate MapsAllFields(errors: Errors, fieldErrors: map<string, seq<string>>) {
    && MapsField(errors, fieldErrors, Name) && MapsField(errors, fieldErrors, Family)
    && MapsField(errors, fieldErrors, NationalId) && MapsField(errors, fieldErrors, FatherName)
    && MapsField(errors, fieldErrors, Mobile) && MapsField(errors, fieldErrors, Password)
    && MapsField(errors, fieldErrors, ConfirmPassword)
  }

  /** `if (errors?.f) newErrors.f = errors.f[0]`: one field's step, leaving the others alone. */
  method CopyFirstMessage(errors: Errors, fieldErrors: map<string, seq<string>>, f: Field) returns (r: Errors)
    requires f !in errors
    ensures MapsField(r, fieldErrors, f)
    ensures forall g :: g != f ==> (g in r <==> g in errors) && (g in r ==> r[g] == errors[g])
  {
    r := errors;
    var key := ServerKey(f);
    if key in fieldErrors && |fieldErrors[key]| > 0 {
      r := r[f := fieldErrors[key][0]];
    }
  }

  /** `onError`'s field mapping: each reported field gets the first message of its array. */
  method MapServerErrors(fieldErrors: map<string, seq<string>>) returns (errors: Errors)
    ensures MapsAllFields(errors, fieldErrors)
  {
    errors := map[];
    errors := CopyFirstMessage(errors, fieldErrors, NationalId);
    errors := CopyFirstMessage(errors, fieldErrors, Mobile);
    errors := CopyFirstMessage(errors, fieldErrors, Name);
    errors := CopyFirstMessage(errors, fieldErrors, Family);
    errors := CopyFirstMessage(errors, fieldErrors, FatherName);
    errors := CopyFirstMessage(errors, fieldErrors, Password);
    errors := CopyFirstMessage(errors, fieldErrors, ConfirmPassword);
  }
}
