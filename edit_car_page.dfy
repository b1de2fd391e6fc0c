/** `ViewEditCarPage`: viewing a fleet entry and editing its name. */
module EditCar {
  import opened Wrappers
  import opened Text
  import Cars
  import AddCar

  /** The form a loaded car fills. */
  function FormFromCar(c: Cars.ApiCar): (form: AddCar.CarForm)
    ensures form.name == c.name
  {
    AddCar.CarForm(c.name)
  }

  class EditCarPage {
    /** the `:id` route parameter */
    const id: string
    /** the loaded car, once the query has data */
    var car: Option<Cars.ApiCar>
    var isEditing: bool
    var form: AddCar.CarForm
    var nameError: Option<string>
    /** the payloads of every update request */
    var updateRequests: seq<AddCar.CarForm>

    constructor (id: string)
      ensures this.id == id && car == None && !isEditing
      ensures form == AddCar.CarForm("") && nameError == None && updateRequests == []
    {
      this.id := id;
      car := None;
      isEditing := false;
      form := AddCar.CarForm("");
      nameError := None;
      updateRequests := [];
    }

    /** The effect on `[car]`: a loaded car fills the form. */
    method CarLoaded(c: Cars.ApiCar)
      modifies this
      ensures car == Some(c) && form == FormFromCar(c)
      ensures isEditing == old(isEditing) && nameError == old(nameError) && updateRequests == old(updateRequests)
    {
      car := Some(c);
      form := FormFromCar(c);
    }

    /** The "edit" button, shown only while viewing. */
    method StartEditing()
      requires car.Some? && !isEditing
      modifies this
      ensures isEditing
      ensures car == old(car) && form == old(form) && nameError == old(nameError) && updateRequests == old(updateRequests)
    {
      isEditing := true;
    }

    /** `validateForm`: record the name error and report validity. No handler of the page calls it. */
    method Validate() returns (valid: bool)
      modifies this
      ensures nameError.Some? <==> IsBlank(form.name)
      ensures nameError.Some? ==> nameError.value == AddCar.NameRequiredMessage
      ensures valid <==> nameError.None?
      ensures car == old(car) && form == old(form) && isEditing == old(isEditing) && updateRequests == old(updateRequests)
    {
      var newError := AddCar.ValidateForm(form);
      nameError := newError;
      valid := newError.None?;
    }

    /** `handleSubmit` only prevents the browser's default: no validation and no update request. */
    method Submit()
      modifies this
      ensures car == old(car) && form == old(form) && isEditing == old(isEditing)
      ensures nameError == old(nameError) && updateRequests == old(updateRequests)
    {
    }

    /** `handleInputChange`; the input is enabled only while editing. */
    method InputChange(value: string)
      requires isEditing
      modifies this
      ensures form == AddCar.CarForm(value) && nameError == AddCar.ClearNameError(old(nameError))
      ensures car == old(car) && isEditing == old(isEditing) && updateRequests == old(updateRequests)
    {
      form := AddCar.CarForm(value);
      nameError := AddCar.ClearNameError(nameError);
    }

    /** `handleCancel`: back to the car's name, out of edit mode, no error. */
    method Cancel()
      modifies this
      ensures old(car).Some? ==> form == FormFromCar(old(car).value)
      ensures old(car).None? ==> form == old(form)
      ensures !isEditing && nameError == None
      ensures car == old(car) && updateRequests == old(updateRequests)
    {
      if car.Some? {
        form := FormFromCar(car.value);
      }
      isEditing := false;
      nameError := None;
    }
  }
}
