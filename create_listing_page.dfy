/** The new-listing form (src/pages/CreateListingPage.js): its initial record, field updates,
    which fields show for which listing type, the duration label and the record submitted. */
module CreateListingPage {
  import opened JsValues
  import opened JsStrings
  import opened JsArrays
  import opened Forms
  import EditListingPage

  /** The field names of the form, in declaration order. */
  const FieldNames: seq<string> := ["title", "type", "price", "negotiable", "description", "location", "bedrooms",
                                    "bathrooms", "furnished", "amenities", "images", "roommatePreference",
                                    "startDate", "endDate"]

  const InitialForm: Form := map[
    "title" := Str(""), "type" := Str(""), "price" := Str(""), "negotiable" := Bool(false),
    "description" := Str(""), "location" := Str(""), "bedrooms" := Str(""), "bathrooms" := Str(""),
    "furnished" := Bool(false), "amenities" := Str(""), "images" := Images([]), "roommatePreference" := Str(""),
    "startDate" := Null, "endDate" := Null]

  /** The form starts with exactly the fourteen fields, every one of them falsy except the (empty) image list. */
  lemma InitialFormShape()
    ensures InitialForm.Keys == set k | k in FieldNames
    ensures HasImages(InitialForm, "images") && InitialForm["images"].images == []
    ensures forall k :: k in InitialForm && k != "images" ==> !IsTruthy(InitialForm[k])
  {
  }

  // ---------------------------------------------------------------------------------
  // Derived values

  /** The listing types that have bedrooms, bathrooms, furnishing and amenities. */
  predicate ShowHousingFields(kind: FormValue) {
    kind in [Str("Roommates"), Str("Sublet"), Str("Long-Term Housing")]
  }

  predicate ShowRoommatePreference(kind: FormValue) {
    kind == Str("Roommates")
  }

  /** The roommate preference only ever shows together with the housing fields, and never for furniture. */
  lemma VisibilityNested(kind: FormValue)
    ensures ShowRoommatePreference(kind) ==> ShowHousingFields(kind)
    ensures kind == Str("Furniture Market") ==> !ShowHousingFields(kind)
  {
  }

  /** The amenities text as submitted: '' gives [], anything else is split at commas and trimmed. */
  function CreateAmenities(s: string): seq<string> {
    if s == "" then [] else EditListingPage.TrimAll(Split(s, ','))
  }

  /** The two amenity parsers agree on every string but '', where this one gives [] and the edit page's gives ['']. */
  lemma AmenityParsersCompared(s: string)
    ensures s != "" ==> StrList(CreateAmenities(s)) == EditListingPage.ParseAmenities(Str(s))
    ensures CreateAmenities("") == []
    ensures EditListingPage.ParseAmenities(Str("")) == StrList([""])
    ensures s != "" ==> |CreateAmenities(s)| == Count(s, ',') + 1
  {
    EditListingPage.AmenitiesFromString(s);
    EditListingPage.AmenitiesFromString("");
  }

  /** The duration label for `k` months. */
  function MonthsLabel(k: nat): string {
    NatToString(k) + " month" + (if k > 1 then "s" else "")
  }

  /** The label reads back as `k` followed by " month", plural exactly when `k` is more than 1. */
  lemma MonthsLabelReads(k: nat)
    ensures var digits := NatToString(k);
            && MonthsLabel(k)[..|digits|] == digits
            && DigitsValue(digits) == k
            && MonthsLabel(k)[|digits|..|digits| + 6] == " month"
    ensures EndsWith(MonthsLabel(k), "s") <==> k > 1
  {
    NatToStringRoundTrip(k);
    var digits := NatToString(k);
    var text := MonthsLabel(k);
    assert text[|digits|..|digits| + 6] == " month";
    if k <= 1 {
      assert text[|text| - 1] == 'h';
    }
  }

  /** calculateDuration: no label unless both dates are set and the month count (`diffMonths` plus one) is positive. */
  function CalculateDuration(start: FormValue, end: FormValue, diffMonths: (FormValue, FormValue) -> int): (r: Option<string>)
    ensures r.Some? <==> IsTruthy(start) && IsTruthy(end) && diffMonths(end, start) + 1 > 0
    ensures r.Some? ==> r.value == MonthsLabel(diffMonths(end, start) + 1)
  {
    if IsTruthy(start) && IsTruthy(end) then
      var months := diffMonths(end, start) + 1;
      if months > 0 then Some(MonthsLabel(months)) else None
    else None
  }

  /** sanitizeNumber: `Number(value)`, with NaN (`None` from `toNumber`) replaced by null. */
  function SanitizeNumber(v: FormValue, toNumber: FormValue -> Option<int>): (r: FormValue)
    ensures r == Null <==> toNumber(v).None?
    ensures r != Null ==> r == Num(toNumber(v).value)
  {
    match toNumber(v)
    case None => Null
    case Some(n) => Num(n)
  }

  const NumberFields: set<string> := {"price", "bedrooms", "bathrooms"}
  const DefaultedFields: set<string> := {"startDate", "endDate", "roommatePreference"}
  const AttachedFields: set<string> := {"images", "amenities", "poster"}

  /** `price`, `bedrooms` and `bathrooms` sanitised. */
  function WithNumbers(form: Form, toNumber: FormValue -> Option<int>): (r: Form)
    ensures forall k :: k in r <==> k in form || k in NumberFields
    ensures forall k :: k in form && k !in NumberFields ==> r[k] == form[k]
    ensures r["price"] == SanitizeNumber(Get(form, "price"), toNumber)
    ensures r["bedrooms"] == SanitizeNumber(Get(form, "bedrooms"), toNumber)
    ensures r["bathrooms"] == SanitizeNumber(Get(form, "bathrooms"), toNumber)
  {
    form["price" := SanitizeNumber(Get(form, "price"), toNumber)]
        ["bedrooms" := SanitizeNumber(Get(form, "bedrooms"), toNumber)]
        ["bathrooms" := SanitizeNumber(Get(form, "bathrooms"), toNumber)]
  }

  /** Falsy dates nulled and a falsy roommate preference made ''. */
  function WithDefaults(form: Form): (r: Form)
    ensures forall k :: k in r <==> k in form || k in DefaultedFields
    ensures forall k :: k in form && k !in DefaultedFields ==> r[k] == form[k]
    ensures r["startDate"] == if IsTruthy(Get(form, "startDate")) then form["startDate"] else Null
    ensures r["endDate"] == if IsTruthy(Get(form, "endDate")) then form["endDate"] else Null
    ensures r["roommatePreference"] == if IsTruthy(Get(form, "roommatePreference")) then form["roommatePreference"] else Str("")
  {
    var start := Get(form, "startDate");
    var end := Get(form, "endDate");
    var pref := Get(form, "roommatePreference");
    form["startDate" := if IsTruthy(start) then start else Null]
        ["endDate" := if IsTruthy(end) then end else Null]
        ["roommatePreference" := if IsTruthy(pref) then pref else Str("")]
  }

  /** The chosen images as their data URLs. */
  function DataUrlImages(files: seq<Image>, dataUrl: Image -> string): (r: FormValue)
    ensures r.Images? && |r.images| == |files|
    ensures forall i :: 0 <= i < |files| ==> r.images[i] == Url(dataUrl(files[i]))
  {
    Images(seq(|files|, i requires 0 <= i < |files| => Url(dataUrl(files[i]))))
  }

  /** The amenities text parsed; the field is always a string, as the text input writes it. */
  function SubmittedAmenities(v: FormValue): (r: FormValue)
    ensures r.StrList?
    ensures v.Str? && v.s != "" ==> r == EditListingPage.ParseAmenities(v)
    ensures !IsTruthy(v) ==> r == StrList([])
  {
    AmenityParsersCompared(if v.Str? then v.s else "");
    StrList(if v.Str? then CreateAmenities(v.s) else [])
  }

  /** The images, amenities and poster attached. */
  function WithAttachments(d: Form, images: FormValue, amenities: FormValue, poster: FormValue): (r: Form)
    ensures forall k :: k in r <==> k in d || k in AttachedFields
    ensures forall k :: k in d && k !in AttachedFields ==> r[k] == d[k]
    ensures r["images"] == images && r["amenities"] == amenities && r["poster"] == poster
  {
    d["images" := images]["amenities" := amenities]["poster" := poster]
  }

  /** The record handleSubmit posts, without the geocoded coordinates. */
  function NewListing(form: Form, toNumber: FormValue -> Option<int>, dataUrl: Image -> string, user: UserRecord): (r: Form)
    requires HasImages(form, "images")
    ensures "images" in r && "amenities" in r && "poster" in r
    ensures r["images"] == DataUrlImages(form["images"].images, dataUrl)
    ensures r["amenities"] == SubmittedAmenities(Get(form, "amenities"))
    ensures r["poster"] == Person(SubmittedPoster(user))
  {
    WithAttachments(WithDefaults(WithNumbers(form, toNumber)), DataUrlImages(form["images"].images, dataUrl),
                    SubmittedAmenities(Get(form, "amenities")), Person(SubmittedPoster(user)))
  }

  /** The posted record has the form's fields and the nine fields handleSubmit writes besides the coordinates, and no others. */
  lemma NewListingKeys(form: Form, toNumber: FormValue -> Option<int>, dataUrl: Image -> string, user: UserRecord)
    requires HasImages(form, "images")
    ensures NewListing(form, toNumber, dataUrl, user).Keys == form.Keys + NumberFields + DefaultedFields + AttachedFields
  {
    var n := WithNumbers(form, toNumber);
    var d := WithDefaults(n);
    var r := NewListing(form, toNumber, dataUrl, user);
    forall k ensures k in r <==> k in form || k in NumberFields || k in DefaultedFields || k in AttachedFields {
      assert k in d <==> k in n || k in DefaultedFields;
      assert k in n <==> k in form || k in NumberFields;
    }
  }

  /** Every field handleSubmit does not rewrite is posted as the form holds it. */
  lemma NewListingKeepsOthers(form: Form, toNumber: FormValue -> Option<int>, dataUrl: Image -> string, user: UserRecord, k: string)
    requires HasImages(form, "images")
    requires k in form && k !in NumberFields && k !in DefaultedFields && k !in AttachedFields
    ensures NewListing(form, toNumber, dataUrl, user)[k] == form[k]
  {
    var d := WithDefaults(WithNumbers(form, toNumber));
    assert d[k] == form[k];
  }

  /** Price, bedrooms and bathrooms are posted as null exactly when they are not numbers. */
  lemma NewListingNumbers(form: Form, toNumber: FormValue -> Option<int>, dataUrl: Image -> string, user: UserRecord, k: string)
    requires HasImages(form, "images")
    requires k in NumberFields
    ensures NewListing(form, toNumber, dataUrl, user)[k] == Null <==> toNumber(Get(form, k)).None?
  {
    var n := WithNumbers(form, toNumber);
    var d := WithDefaults(n);
    assert k !in DefaultedFields && k !in AttachedFields;
    assert d[k] == n[k];
  }

  /** Falsy dates are posted as null, truthy ones as they are; the roommate preference keeps its truthiness. */
  lemma NewListingDefaults(form: Form, toNumber: FormValue -> Option<int>, dataUrl: Image -> string, user: UserRecord, k: string)
    requires HasImages(form, "images")
    requires k in DefaultedFields
    ensures var r := NewListing(form, toNumber, dataUrl, user);
            && (k != "roommatePreference" ==> r[k] == if IsTruthy(Get(form, k)) then Get(form, k) else Null)
            && (k == "roommatePreference" ==> IsTruthy(r[k]) == IsTruthy(Get(form, k)))
  {
    var n := WithNumbers(form, toNumber);
    var d := WithDefaults(n);
    assert k !in NumberFields && k !in AttachedFields;
    assert Get(n, k) == Get(form, k);
  }

  // ---------------------------------------------------------------------------------
  // The component state

  class ListingDraft {
    var formData: Form
    /** The user read from storage when the page module was loaded. */
    const user: UserRecord

    predicate Valid()
      reads this
    {
      HasImages(formData, "images")
    }

    constructor(user: UserRecord)
      ensures Valid() && this.user == user && formData == InitialForm
    {
      this.user := user;
      formData := InitialForm;
    }

    /** handleChange; the page's file input is the only one named `images`. */
    method HandleChange(e: InputEvent)
      requires Valid()
      requires e.kind == "file" || e.name != "images"
      modifies this
      ensures Valid() && formData == ApplyChange(old(formData), e, "images")
    {
      formData := ApplyChange(formData, e, "images");
    }

    /** The file input's own handler: the chosen files go after the images already chosen. */
    method AddFiles(files: seq<Image>)
      requires Valid()
      modifies this
      ensures Valid()
      ensures formData == old(formData)["images" := Images(old(formData["images"].images) + files)]
    {
      formData := formData["images" := Images(formData["images"].images + files)];
    }

    /** A date picker's change: the chosen date replaces the start or end date. */
    method SetDate(key: string, date: FormValue)
      requires Valid()
      requires key == "startDate" || key == "endDate"
      modifies this
      ensures Valid() && formData == old(formData)[key := date]
    {
      formData := formData[key := date];
    }

    /** The remove button on image `idx`: that index leaves the list, the rest keep their order. */
    method RemoveImage(idx: int)
      requires Valid()
      modifies this
      ensures Valid()
      ensures formData == old(formData)["images" := Images(RemoveAt(old(formData["images"].images), idx))]
      ensures 0 <= idx < |old(formData["images"].images)| ==>
                formData["images"].images == old(formData["images"].images)[..idx] + old(formData["images"].images)[idx + 1..]
    {
      RemoveAtSlices(formData["images"].images, idx);
      formData := formData["images" := Images(RemoveAt(formData["images"].images, idx))];
    }
  }
}
