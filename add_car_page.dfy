/** `AddCarPage`: the one-field form that creates a fleet entry. */
module AddCar {
  import opened Wrappers
  import opened Text
  import opened Effects
  import Http

  const CarsListPath := "/dashboard/cars"
  const NameRequiredMessage := "نام الزامی است"
  const NoResponseMessage := "پاسخ از سرور دریافت نشد"
  const CarCreatedMessage := "ناوگان با موفقیت ایجاد شد!"
  const UnknownErrorMessage := "خطای ناشناخته‌ای رخ داده است. لطفا دوباره تلاش کنید."

  /** `CarFormData`. */
  datatype CarForm = CarForm(name: string)

  /**
   * `validateForm`'s error record. The record has the one key `name`, so it is
   * the optional message under that key.
   */
  method ValidateForm(form: CarForm) returns (nameError: Option<string>)
    ensures nameError.Some? <==> IsBlank(form.name)
    ensures nameError.Some? ==> nameError.value == NameRequiredMessage
  {
    BlankIffTrimEmpty(form.name);
    nameError := None;
    if Trim(form.name) == "" {
      nameError := Some(NameRequiredMessage);
    }
  }

  /** `handleInputChange`'s error step: a truthy name error is cleared, an empty one stays. */
  function ClearNameError(nameError: Option<string>): (r: Option<string>)
    ensures r.Some? <==> nameError == Some("")
  {
    if nameError.Some? && nameError.value != "" then None else nameError
  }

  /** `onError`'s mapping: only the server's `name` array is read, and its first message taken. */
  function ServerNameError(fieldErrors: map<string, seq<string>>): (r: Option<string>)
    ensures r.Some? <==> "name" in fieldErrors && |fieldErrors["name"]| > 0
    ensures r.Some? ==> r.value == fieldErrors["name"][0]
  {
    if "name" in fieldErrors && |fieldErrors["name"]| > 0 then Some(fieldErrors["name"][0]) else None
  }

  /** Server messages for any other field never reach the form. */
  lemma OtherServerFieldsIgnored(fieldErrors: map<string, seq<string>>, key: string, messages: seq<string>)
    requires key != "name"
    ensures ServerNameError(fieldErrors[key := messages]) == ServerNameError(fieldErrors)
  {
    assert "name" in fieldErrors[key := messages] <==> "name" in fieldErrors;
  }

  class AddCarPage {
    var form: CarForm
    var nameError: Option<string>
    /** the payloads of every create request */
    var createRequests: seq<CarForm>
    var toasts: seq<Toast>
    var navigations: seq<Navigation>
    /** the query keys invalidated */
    var invalidated: seq<seq<string>>

    constructor ()
      ensures form == CarForm("") && nameError == None
      ensures createRequests == [] && toasts == [] && navigations == [] && invalidated == []
    {
      form := CarForm("");
      nameError := None;
      createRequests := [];
      toasts := [];
      navigations := [];
      invalidated := [];
    }

    /** `handleSubmit`: validate, show the error, and create only a form with a name. */
    method Submit()
      modifies this
      ensures nameError.Some? <==> IsBlank(form.name)
      ensures nameError.Some? ==> nameError.value == NameRequiredMessage
      ensures createRequests == old(createRequests) + if nameError.None? then [form] else []
      ensures form == old(form) && toasts == old(toasts) && navigations == old(navigations) && invalidated == old(invalidated)
    {
      var newError := ValidateForm(form);
      nameError := newError;
      if newError.None? {
        createRequests := createRequests + [form];
      }
    }

    /** `handleInputChange`: the name takes the value and loses its error. */
    method InputChange(value: string)
      modifies this
      ensures form == CarForm(value) && nameError == ClearNameError(old(nameError))
      ensures createRequests == old(createRequests) && toasts == old(toasts) && navigations == old(navigations) && invalidated == old(invalidated)
    {
      form := CarForm(value);
      nameError := ClearNameError(nameError);
    }

    /** `onSuccess`: without a reply only an error toast; otherwise refresh the list, toast and go to it. */
    method CreateSucceeded(hasData: bool)
      modifies this
      ensures !hasData ==> (toasts == old(toasts) + [ErrorToast(NoResponseMessage)]
        && navigations == old(navigations) && invalidated == old(invalidated))
      ensures hasData ==> (toasts == old(toasts) + [SuccessToast(CarCreatedMessage)]
        && navigations == old(navigations) + [Navigation(CarsListPath, None, false)]
        && invalidated == old(invalidated) + [["cars"]])
      ensures form == old(form) && nameError == old(nameError) && createRequests == old(createRequests)
    {
      if !hasData {
        toasts := toasts + [ErrorToast(NoResponseMessage)];
        return;
      }
      invalidated := invalidated + [["cars"]];
      toasts := toasts + [SuccessToast(CarCreatedMessage)];
      navigations := navigations + [Navigation(CarsListPath, None, false)];
    }

    /** `onError`: the server's message and name error, or the generic toast without response data. */
    method CreateFailed(e: Http.HttpError)
      modifies this
      ensures var fb := OnErrorFeedback(e, UnknownErrorMessage);
        && (fb.GenericFeedback? ==> toasts == old(toasts) + [fb.generic] && nameError == old(nameError))
        && (fb.FieldFeedback? ==> toasts == old(toasts) + (if fb.toast.Some? then [fb.toast.value] else [])
                                  && nameError == ServerNameError(fb.fieldErrors))
      ensures form == old(form) && createRequests == old(createRequests)
      ensures navigations == old(navigations) && invalidated == old(invalidated)
    {
      var fb := OnErrorFeedback(e, UnknownErrorMessage);
      match fb {
        case GenericFeedback(t) =>
          toasts := toasts + [t];
        case FieldFeedback(t, fieldErrors) =>
          if t.Some? {
            toasts := toasts + [t.value];
          }
          nameError := ServerNameError(fieldErrors);
      }
    }
  }
}
