/** The civilian's own profile page: an edit form over the job, salary and
    address fields, kept as component state and sent to the data service as
    a partial record. */
module CivilianProfilePage {
  import opened Common
  import opened DataService

  /** The page always shows the civilian with this id. */
  const CivilianId := "201"

  /** The seven inputs of the edit form. */
  datatype FormData = FormData(
    job: string, salary: string,
    houseNo: string, locality: string, city: string, state: string, pinCode: string)

  /** The `name` attribute of an input of the form. */
  datatype Field = Job | Salary | HouseNo | Locality | City | State | PinCode

  const EmptyForm := FormData("", "", "", "", "", "", "")

  /** The value of one input. */
  function Get(f: FormData, field: Field): string
  {
    match field
    case Job => f.job
    case Salary => f.salary
    case HouseNo => f.houseNo
    case Locality => f.locality
    case City => f.city
    case State => f.state
    case PinCode => f.pinCode
  }

  /** `{ ...prev, [name]: value }`: the named input takes the value and every
      other input keeps its own. */
  function Set(f: FormData, field: Field, value: string): (r: FormData)
    ensures Get(r, field) == value
    ensures forall g :: g != field ==> Get(r, g) == Get(f, g)
  {
    match field
    case Job => f.(job := value)
    case Salary => f.(salary := value)
    case HouseNo => f.(houseNo := value)
    case Locality => f.(locality := value)
    case City => f.(city := value)
    case State => f.(state := value)
    case PinCode => f.(pinCode := value)
  }

  /** A form is determined by the values of its inputs. */
  lemma FormExtensionality(f: FormData, g: FormData)
    requires forall field :: Get(f, field) == Get(g, field)
    ensures f == g
  {
    assert Get(f, Job) == Get(g, Job) && Get(f, Salary) == Get(g, Salary);
    assert Get(f, HouseNo) == Get(g, HouseNo) && Get(f, Locality) == Get(g, Locality);
    assert Get(f, City) == Get(g, City) && Get(f, State) == Get(g, State) && Get(f, PinCode) == Get(g, PinCode);
  }

  /** Typing the same input twice keeps only the last value; typing two
      different inputs gives the same form in either order. */
  lemma SetLaws(f: FormData, a: Field, b: Field, x: string, y: string)
    ensures Set(Set(f, a, x), a, y) == Set(f, a, y)
    ensures a != b ==> Set(Set(f, a, x), b, y) == Set(Set(f, b, y), a, x)
  {
    FormExtensionality(Set(Set(f, a, x), a, y), Set(f, a, y));
    if a != b {
      FormExtensionality(Set(Set(f, a, x), b, y), Set(Set(f, b, y), a, x));
    }
  }

  /** `x || ""` for an optional string. */
  function OrEmpty(x: Option<string>): (r: string)
    ensures x.Some? ==> r == x.value
    ensures x.None? ==> r == ""
  {
    if x.Some? then x.value else ""
  }

  /** The form filled from a stored civilian: job and salary, empty when
      absent, and the five address parts. */
  function FormFrom(c: Civilian): (f: FormData)
    ensures f.job == OrEmpty(c.job) && f.salary == OrEmpty(c.salary)
    ensures Address(f.houseNo, f.locality, f.city, f.state, f.pinCode) == c.address
  {
    FormData(OrEmpty(c.job), OrEmpty(c.salary),
      c.address.houseNo, c.address.locality, c.address.city, c.address.state, c.address.pinCode)
  }

  /** The partial record `handleSubmit` sends: job and salary as typed, and an
      address built from exactly the five address inputs; nothing else. */
  function SubmitPayload(f: FormData): (p: CivilianPatch)
    ensures p.job == Some(f.job) && p.salary == Some(f.salary)
    ensures p.address == Some(Address(f.houseNo, f.locality, f.city, f.state, f.pinCode))
    ensures p.id.None? && p.name.None? && p.email.None? && p.phoneNumber.None? && p.isCriminal.None?
  {
    CivilianPatch(None, None, None, None,
      Some(Address(f.houseNo, f.locality, f.city, f.state, f.pinCode)),
      Some(f.job), Some(f.salary), None)
  }

  /** Saving a form filled from a record without changing it gives the
      record back, except that a missing job or salary is stored as the
      empty string. */
  lemma SaveUnchangedForm(c: Civilian)
    ensures ApplyPatch(c, SubmitPayload(FormFrom(c))) == c.(job := Some(OrEmpty(c.job)), salary := Some(OrEmpty(c.salary)))
    ensures c.job.Some? && c.salary.Some? ==> ApplyPatch(c, SubmitPayload(FormFrom(c))) == c
  {
  }

  /** Saving the form changes only the job, the salary and the address of
      the stored record; the identity, contact data and criminal flag stay. */
  lemma SaveTouchesOnlyFormFields(db: Store, f: FormData)
    requires UpdateCivilianProfile(db, CivilianId, SubmitPayload(f)).Ok?
    ensures var r := UpdateCivilianProfile(db, CivilianId, SubmitPayload(f)).value;
            && r.id == CivilianId
            && r.job == Some(f.job) && r.salary == Some(f.salary)
            && r.address == Address(f.houseNo, f.locality, f.city, f.state, f.pinCode)
            && exists i :: 0 <= i < |db.civilians| && db.civilians[i].id == CivilianId
                           && r.name == db.civilians[i].name && r.email == db.civilians[i].email
                           && r.phoneNumber == db.civilians[i].phoneNumber
                           && r.isCriminal == db.civilians[i].isCriminal
  {
  }

  /** The seeded store has civilian "201", so saving never hits the
      not-found error there. */
  lemma SaveFindsSeededCivilian(f: FormData)
    ensures UpdateCivilianProfile(Seeded, CivilianId, SubmitPayload(f)).Ok?
  {
    assert Seeded.civilians[0].id == CivilianId;
  }

  const UpdatedNotice := Toast("Profile updated", "Your profile has been updated successfully", false)
  const UpdateFailedNotice := Toast("Error", "Failed to update profile", true)

  /** The component's state: the form, the edit flag, and the toasts it has
      emitted. */
  class ProfileEditor {
    var formData: FormData
    var isEditing: bool
    var notices: seq<Toast>

    /** The form starts empty and is filled only from a civilian record that
        is already at hand on the first render; the page is not editing. */
    constructor (civilianAtFirstRender: Option<Civilian>)
      ensures civilianAtFirstRender.None? ==> formData == EmptyForm
      ensures civilianAtFirstRender.Some? ==> formData == FormFrom(civilianAtFirstRender.value)
      ensures !isEditing && notices == []
    {
      formData := if civilianAtFirstRender.Some? then FormFrom(civilianAtFirstRender.value) else EmptyForm;
      isEditing := false;
      notices := [];
    }

    /** `handleInputChange`: only the named input changes. */
    method HandleInputChange(field: Field, value: string)
      modifies this
      ensures formData == Set(old(formData), field, value)
      ensures isEditing == old(isEditing) && notices == old(notices)
    {
      formData := Set(formData, field, value);
    }

    /** The Edit / Cancel button. */
    method ToggleEditing()
      modifies this
      ensures isEditing == !old(isEditing)
      ensures formData == old(formData) && notices == old(notices)
    {
      isEditing := !isEditing;
    }

    /** `handleSubmit`: the partial record built from the current form; the
        state is not touched until the service answers. */
    method HandleSubmit() returns (payload: CivilianPatch)
      ensures payload == SubmitPayload(formData)
    {
      payload := SubmitPayload(formData);
    }

    /** The service accepted the update: one toast, and editing ends. */
    method OnUpdateSuccess()
      modifies this
      ensures notices == old(notices) + [UpdatedNotice]
      ensures !isEditing && formData == old(formData)
    {
      notices := notices + [UpdatedNotice];
      isEditing := false;
    }

    /** The service refused the update: one error toast; the form stays open. */
    method OnUpdateError()
      modifies this
      ensures notices == old(notices) + [UpdateFailedNotice]
      ensures isEditing == old(isEditing) && formData == old(formData)
    {
      notices := notices + [UpdateFailedNotice];
    }

    /** One round of editing against a store: open the form, change one
        input, save, and react to the service's answer. */
    method EditAndSave(db: Store, field: Field, value: string) returns (saved: Result<Civilian>)
      requires !isEditing
      modifies this
      ensures formData == Set(old(formData), field, value)
      ensures saved == UpdateCivilianProfile(db, CivilianId, SubmitPayload(formData))
      ensures saved.Ok? ==> !isEditing && notices == old(notices) + [UpdatedNotice]
      ensures saved.Err? ==> isEditing && notices == old(notices) + [UpdateFailedNotice]
    {
      ToggleEditing();
      HandleInputChange(field, value);
      var payload := HandleSubmit();
      saved := UpdateCivilianProfile(db, CivilianId, payload);
      if saved.Ok? {
        OnUpdateSuccess();
      } else {
        OnUpdateError();
      }
    }
  }
}
