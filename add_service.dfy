/** The services page: the current user, and for providers the "Add Service"
    form with its six fields, its validation and its reset after a created
    service. */
module AddService {
  import opened Common

  /** The form state is a JavaScript object updated with a computed key, so it
      is a map from field name to value; an absent key reads as "". */
  type FormData = map<string, string>

  const NameField: string := "name"
  const DescriptionField: string := "description"
  const TypeField: string := "type"
  const PriceField: string := "price"
  const LocationField: string := "location"
  const ProviderIdField: string := "providerId"

  /** The `name` attributes of the form's text inputs, the only keys
      `handleChange` is called with. */
  const InputFields: set<string> := {NameField, DescriptionField, TypeField, PriceField}

  /** HTTP status of a created service. */
  const Created: int := 201

  function FieldValue(fd: FormData, field: string): string
  {
    if field in fd then fd[field] else ""
  }

  /** The initial state, and the state after a reset: six empty strings. */
  function EmptyForm(): (fd: FormData)
    ensures fd.Keys == InputFields + {LocationField, ProviderIdField}
    ensures forall k :: k in fd ==> fd[k] == ""
  {
    map[NameField := "", DescriptionField := "", TypeField := "", PriceField := "",
        LocationField := "", ProviderIdField := ""]
  }

  /** A user edit: typing into a text input, or choosing a city. */
  datatype Edit = Input(field: string, value: string) | PickLocation(city: string)

  /** An edit the rendered form can produce. */
  predicate FormEdit(e: Edit)
  {
    e.Input? ==> e.field in InputFields
  }

  /** `handleChange` (`{ ...formData, [name]: value }`) and the city select's
      `{ ...formData, location: value }`: exactly one field changes. */
  function ApplyEdit(fd: FormData, e: Edit): (r: FormData)
    ensures var k := if e.Input? then e.field else LocationField;
      var v := if e.Input? then e.value else e.city;
      k in r && r[k] == v &&
      r.Keys == fd.Keys + {k} &&
      forall j :: j in fd && j != k ==> r[j] == fd[j]
  {
    match e
    case Input(field, value) => fd[field := value]
    case PickLocation(city) => fd[LocationField := city]
  }

  function ApplyEdits(fd: FormData, es: seq<Edit>): FormData
    decreases |es|
  {
    if es == [] then fd else ApplyEdits(ApplyEdit(fd, es[0]), es[1..])
  }

  predicate IsDigit(c: char)
  {
    '0' <= c <= '9'
  }

  /** The price check `!isNaN(price) && Number(price) > 0` on plain decimal
      numerals: digits with at most one decimal point, at least one digit, and
      some digit other than zero. */
  predicate ParsesToPositive(price: string)
  {
    (forall i :: 0 <= i < |price| ==> IsDigit(price[i]) || price[i] == '.') &&
    (forall i, j :: 0 <= i < j < |price| && price[i] == '.' ==> price[j] != '.') &&
    (exists i :: 0 <= i < |price| && IsDigit(price[i]) && price[i] != '0')
  }

  function RequiredFields(): set<string>
  {
    InputFields + {LocationField, ProviderIdField}
  }

  datatype Verdict = Accepted | MissingFields | NonPositivePrice

  /** The two guards of `handleSubmit`, in order. */
  function Validate(fd: FormData): (v: Verdict)
    ensures v == MissingFields <==> exists k :: k in RequiredFields() && FieldValue(fd, k) == ""
    ensures v == Accepted <==> (forall k :: k in RequiredFields() ==> FieldValue(fd, k) != "") && ParsesToPositive(FieldValue(fd, PriceField))
  {
    if FieldValue(fd, NameField) == "" || FieldValue(fd, DescriptionField) == "" || FieldValue(fd, TypeField) == ""
       || FieldValue(fd, PriceField) == "" || FieldValue(fd, LocationField) == "" || FieldValue(fd, ProviderIdField) == ""
    then
      assert FieldValue(fd, NameField) == "" ==> NameField in RequiredFields();
      MissingFields
    else if !ParsesToPositive(FieldValue(fd, PriceField)) then NonPositivePrice
    else Accepted
  }

  /** "0", "0.00" and "." are rejected; "12" and "0.5" pass. */
  lemma PriceExamples()
    ensures !ParsesToPositive("0") && !ParsesToPositive("0.00") && !ParsesToPositive(".")
    ensures ParsesToPositive("12") && ParsesToPositive("0.5")
  {
    assert IsDigit("12"[0]) && "12"[0] != '0';
    assert IsDigit("0.5"[2]) && "0.5"[2] != '0';
  }

  /** Edits from the rendered form never touch `providerId`. */
  lemma {:induction false} FormEditsKeepProviderId(fd: FormData, es: seq<Edit>)
    requires forall i :: 0 <= i < |es| ==> FormEdit(es[i])
    ensures FieldValue(ApplyEdits(fd, es), ProviderIdField) == FieldValue(fd, ProviderIdField)
    decreases |es|
  {
    if es != [] {
      FormEditsKeepProviderId(ApplyEdit(fd, es[0]), es[1..]);
    }
  }

  /** After the reset, no amount of editing makes the form valid again: the
      `providerId` seeded at mount is gone. */
  lemma ResetFormStaysInvalid(es: seq<Edit>)
    requires forall i :: 0 <= i < |es| ==> FormEdit(es[i])
    ensures Validate(ApplyEdits(EmptyForm(), es)) == MissingFields
  {
    FormEditsKeepProviderId(EmptyForm(), es);
    assert ProviderIdField in RequiredFields();
  }

  class AddServicePage {
    var user: User
    var formData: FormData
    var error: Option<string>
    var showForm: bool
    // The mount effect's user fetch has settled (it runs once per mount).
    ghost var userFetchDone: bool
    // A service has been created during this mount.
    ghost var created: bool

    /** `providerId` is seeded only by the mount fetch and cleared by the
        reset that follows a created service. */
    ghost predicate Valid()
      reads this
    {
      (FieldValue(formData, ProviderIdField) != "" ==> userFetchDone) &&
      (created ==> userFetchDone && FieldValue(formData, ProviderIdField) == "")
    }

    constructor ()
      ensures Valid() && !userFetchDone && !created
      ensures user == DefaultUser() && formData == EmptyForm() && error == None && !showForm
    {
      user := DefaultUser();
      formData := EmptyForm();
      error := None;
      showForm := false;
      userFetchDone, created := false, false;
    }

    /** The mount effect `fetchUser`: with no `userId` cookie it reports an
        error and sends nothing; otherwise the request's result either
        replaces the user and seeds `providerId`, or becomes the error. */
    method UserFetched(cookies: CookieJar, result: Fetch<User>) returns (requested: bool)
      requires Valid() && !userFetchDone
      modifies this
      ensures Valid() && userFetchDone && created == old(created)
      ensures requested <==> !IsMissingId(GetCookie(cookies, UserIdCookie))
      ensures !requested ==> error == Some(MissingUserIdError) && user == old(user) && formData == old(formData)
      ensures requested && result.Fetched? ==>
        user == result.value && error == old(error) &&
        formData == old(formData)[ProviderIdField := cookies[UserIdCookie]]
      ensures requested && result.FetchFailed? ==>
        error == Some(result.message) && user == old(user) && formData == old(formData)
      ensures showForm == old(showForm)
    {
      userFetchDone := true;
      var userId := GetCookie(cookies, UserIdCookie);
      if IsMissingId(userId) {
        error := Some(MissingUserIdError);
        return false;
      }
      requested := true;
      match result {
        case Fetched(u) =>
          user := u;
          formData := formData[ProviderIdField := userId.value];
        case FetchFailed(message) =>
          error := Some(message);
      }
    }

    /** The "Add Service" toggle is rendered only for providers. */
    predicate AddServiceShown()
      reads this
    {
      user.isProvider
    }

    /** Clicking the toggle: `setShowForm(!showForm)`. */
    method ToggleForm()
      requires AddServiceShown()
      modifies this`showForm
      ensures showForm == !old(showForm)
    {
      showForm := !showForm;
    }

    /** `handleChange` for a text input, or the city select's handler. */
    method Edited(e: Edit)
      requires Valid() && FormEdit(e)
      modifies this`formData
      ensures Valid()
      ensures formData == ApplyEdit(old(formData), e)
    {
      formData := ApplyEdit(formData, e);
    }

    /** `handleSubmit`: validation first; only an accepted form is posted, and
        only a 201 response resets the form and closes it. */
    method HandleSubmit(outcome: HttpOutcome) returns (verdict: Verdict, posted: bool)
      requires Valid()
      modifies this`formData, this`showForm, this`created
      ensures Valid()
      ensures verdict == Validate(old(formData))
      ensures posted <==> verdict == Accepted
      ensures posted && outcome == Ok(Created) ==> formData == EmptyForm() && !showForm && created
      ensures !(posted && outcome == Ok(Created)) ==>
        formData == old(formData) && showForm == old(showForm) && created == old(created)
      ensures old(created) ==> verdict == MissingFields && !posted
    {
      verdict := Validate(formData);
      assert created ==> ProviderIdField in RequiredFields();
      posted := verdict == Accepted;
      if posted && outcome == Ok(Created) {
        formData := EmptyForm();
        showForm := false;
        created := true;
      }
    }
  }
}
