/** The listing form record shared by the create and edit pages, and its `handleChange`:
    `{...prev, [name]: checkbox ? checked : value}`, or, for a file input, the chosen files
    appended after the images already held. */
module Forms {
  import opened JsValues

  /** An image of a listing: a URL or data URL string, or a `File` the user has just chosen. */
  datatype Image = Url(url: string) | File(fileName: string)

  /** The values a form field can hold. */
  datatype FormValue =
    | Str(s: string)
    | Bool(b: bool)
    | Num(n: int)
    | Null
    | DateValue(time: int)
    | StrList(items: seq<string>)
    | Images(images: seq<Image>)
    | Person(user: UserRecord)

  /** A form record: field name to value; a field not in the map is undefined. */
  type Form = map<string, FormValue>

  /** JavaScript truthiness of a field value. */
  predicate IsTruthy(v: FormValue) {
    match v
    case Str(s) => s != ""
    case Bool(b) => b
    case Num(n) => n != 0
    case Null => false
    case _ => true
  }

  /** `form[key]`, with a missing key read as `Null` (undefined and null behave alike here). */
  function Get(form: Form, key: string): FormValue {
    if key in form then form[key] else Null
  }

  /** The `target` of a change event: the input's name, type, value, checked state and chosen files. */
  datatype InputEvent = InputEvent(name: string, kind: string, value: string, checked: bool, files: seq<Image>)

  /** The form holds an image list under `imagesKey`. */
  predicate HasImages(form: Form, imagesKey: string) {
    imagesKey in form && form[imagesKey].Images?
  }

  /** `handleChange`: a file input appends its files to the image list; any other input sets its
      named field. The pages render no other input named like the image list. */
  function ApplyChange(form: Form, e: InputEvent, imagesKey: string): (r: Form)
    requires HasImages(form, imagesKey)
    requires e.kind == "file" || e.name != imagesKey
    ensures HasImages(r, imagesKey)
    ensures e.kind == "file" ==>
              r.Keys == form.Keys && r[imagesKey].images == form[imagesKey].images + e.files
              && forall k :: k in form && k != imagesKey ==> r[k] == form[k]
    ensures e.kind != "file" ==>
              r.Keys == form.Keys + {e.name}
              && r[e.name] == (if e.kind == "checkbox" then Bool(e.checked) else Str(e.value))
              && forall k :: k in form && k != e.name ==> r[k] == form[k]
  {
    if e.kind == "file" then
      form[imagesKey := Images(form[imagesKey].images + e.files)]
    else
      form[e.name := if e.kind == "checkbox" then Bool(e.checked) else Str(e.value)]
  }

  /** The poster attached to a submitted listing: the stored user's fields, the avatar defaulted. */
  function SubmittedPoster(user: UserRecord): (r: UserRecord)
    ensures r.name == user.name && r.email == user.email && r.program == user.program && r.year == user.year
    ensures r.avatar.Some? && r.avatar.value != ""
    ensures Truthy(user.avatar) ==> r.avatar == user.avatar
  {
    FirstTruthyIsTruthy([user.avatar], "/default-avatar.png");
    UserRecord(user.name, user.email, Some(FirstTruthy([user.avatar], "/default-avatar.png")), user.program, user.year)
  }
}
