/** The poster's own listing page (src/pages/EditListingPage.js): loading the listing into the
    edit form, editing it field by field, and the seller's side of the chat, grouped by buyer. */
module EditListingPage {
  import opened JsValues
  import opened JsStrings
  import opened JsArrays
  import opened Forms
  import ListingDetailPage

  type Message = ListingDetailPage.Message

  // ---------------------------------------------------------------------------------
  // Amenities

  /** `pieces.map((a) => a.trim())`. */
  function TrimAll(pieces: seq<string>): (r: seq<string>)
    ensures |r| == |pieces|
    ensures forall k :: 0 <= k < |r| ==> r[k] == Trim(pieces[k])
  {
    seq(|pieces|, k requires 0 <= k < |pieces| => Trim(pieces[k]))
  }

  /** parseAmenities: an array is kept as it is, a string is split at every comma with each piece
      trimmed, anything else becomes the empty list. */
  function ParseAmenities(v: FormValue): (r: FormValue)
    ensures r.StrList? || r.Images?
    ensures v.StrList? || v.Images? ==> r == v
    ensures !(v.Str? || v.StrList? || v.Images?) ==> r == StrList([])
  {
    match v
    case StrList(_) => v
    case Images(_) => v
    case Str(s) => StrList(TrimAll(Split(s, ',')))
    case _ => StrList([])
  }

  /** From a string: one piece per comma plus one, each the trimmed text between commas, none
      holding a comma; so '' gives [''], not []. */
  lemma AmenitiesFromString(s: string)
    ensures ParseAmenities(Str(s)).StrList?
    ensures var items := ParseAmenities(Str(s)).items;
            && |items| == Count(s, ',') + 1
            && (forall k :: 0 <= k < |items| ==> items[k] == Trim(Split(s, ',')[k]) && ',' !in items[k])
    ensures ParseAmenities(Str("")) == StrList([""])
  {
    SplitPieces(s, ',');
    var pieces := Split(s, ',');
    forall k | 0 <= k < |pieces|
      ensures ',' !in Trim(pieces[k])
    {
      TrimIsSlice(pieces[k]);
      var i, j :| 0 <= i <= j <= |pieces[k]| && Trim(pieces[k]) == pieces[k][i..j];
      assert forall c :: c in pieces[k][i..j] ==> c in pieces[k];
    }
  }

  /** Parsing parsed amenities again, as the submit handler does, changes nothing. */
  lemma AmenitiesIdempotent(v: FormValue)
    ensures ParseAmenities(ParseAmenities(v)) == ParseAmenities(v)
  {
  }

  /** When no piece has whitespace around it, joining the amenities with commas gives back the text. */
  lemma AmenitiesRoundTrip(s: string)
    requires forall k :: 0 <= k < |Split(s, ',')| ==> Trim(Split(s, ',')[k]) == Split(s, ',')[k]
    ensures Join(ParseAmenities(Str(s)).items, ',') == s
  {
    var pieces := Split(s, ',');
    assert TrimAll(pieces) == pieces;
    SplitJoin(s, ',');
  }

  // ---------------------------------------------------------------------------------
  // Loading

  /** `latest || fromListing || fallback` for one poster field. */
  function Pick(latest: Option<string>, fromListing: Option<string>, fallback: string): (r: string)
    ensures r == if Truthy(latest) then latest.value else if Truthy(fromListing) then fromListing.value else fallback
  {
    var vs := [latest, fromListing];
    var r := FirstTruthy(vs, fallback);
    assert vs[0] == latest && vs[1] == fromListing;
    r
  }

  /** The poster shown and saved: each field from the stored user, else from the listing's poster, else a default. */
  function PosterFor(latest: UserRecord, poster: UserRecord): (r: UserRecord)
    ensures r.name.Some? && r.email.Some? && r.avatar.Some? && r.program.Some? && r.year.Some?
    ensures r.name.value != "" && r.avatar.value != ""
  {
    UserRecord(
      Some(Pick(latest.name, poster.name, "Unnamed User")),
      Some(Pick(latest.email, poster.email, "")),
      Some(Pick(latest.avatar, poster.avatar, "/default-avatar.png")),
      Some(Pick(latest.program, poster.program, "")),
      Some(Pick(latest.year, poster.year, "")))
  }

  /** `listing.poster`, or `{}` when it is missing. */
  function PosterOf(listing: Form): UserRecord {
    if "poster" in listing && listing["poster"].Person? then listing["poster"].user else NoUser
  }

  /** The backend sends the image list as an array or not at all. */
  predicate ImagesWellFormed(listing: Form) {
    !IsTruthy(Get(listing, "images")) || Get(listing, "images").Images?
  }

  /** The fields the loaded form writes. */
  const LoadedFields: set<string> := {"amenities", "startDate", "endDate", "image", "poster"}

  /** The form built from a fetched listing: its fields, with amenities parsed, truthy dates
      converted by `toDate` and falsy ones nulled, `images` copied to `image` (or []), and the poster coalesced. */
  function LoadedForm(listing: Form, latest: UserRecord, toDate: FormValue -> FormValue): (r: Form)
    requires ImagesWellFormed(listing)
    ensures HasImages(r, "image")
    ensures r.Keys == listing.Keys + LoadedFields
    ensures forall k :: k in listing && k !in LoadedFields ==> r[k] == listing[k]
    ensures r["amenities"] == ParseAmenities(Get(listing, "amenities"))
    ensures r["image"].images == (if IsTruthy(Get(listing, "images")) then Get(listing, "images").images else [])
    ensures r["poster"] == Person(PosterFor(latest, PosterOf(listing)))
  {
    var start := Get(listing, "startDate");
    var end := Get(listing, "endDate");
    var images := Get(listing, "images");
    listing["amenities" := ParseAmenities(Get(listing, "amenities"))]
           ["startDate" := if IsTruthy(start) then toDate(start) else Null]
           ["endDate" := if IsTruthy(end) then toDate(end) else Null]
           ["image" := if IsTruthy(images) then images else Images([])]
           ["poster" := Person(PosterFor(latest, PosterOf(listing)))]
  }

  // ---------------------------------------------------------------------------------
  // The chat, grouped by buyer

  /** One conversation: the buyer's name and the messages exchanged. */
  datatype Group = Group(name: string, messages: seq<Message>)

  /** The grouped messages object, as its entries in key order. */
  type Grouped = seq<Group>

  function Names(g: Grouped): (r: seq<string>)
    ensures |r| == |g| && forall k :: 0 <= k < |g| ==> r[k] == g[k].name
  {
    seq(|g|, k requires 0 <= k < |g| => g[k].name)
  }

  /** `Object.keys(messages).filter(name => name !== posterName)`. */
  function BuyerNames(g: Grouped, posterName: Option<string>): seq<string> {
    Filter(Names(g), (name: string) => Some(name) != posterName)
  }

  /** The interested buyers are the conversation keys other than the poster's name, in key order. */
  lemma BuyerNamesExact(g: Grouped, posterName: Option<string>)
    ensures forall name :: name in BuyerNames(g, posterName) <==> name in Names(g) && Some(name) != posterName
    ensures IsSubseq(BuyerNames(g, posterName), Names(g))
  {
    var keep := (name: string) => Some(name) != posterName;
    forall name | name in Names(g) && keep(name) ensures name in BuyerNames(g, posterName) {
      var i :| 0 <= i < |Names(g)| && Names(g)[i] == name;
    }
    FilterIsSubseq(Names(g), keep);
  }

  /** `if (buyerNames[0]) setActiveChat(buyerNames[0])`. */
  function ChatAfterLoad(activeChat: Option<string>, buyers: seq<string>): Option<string> {
    if |buyers| > 0 && buyers[0] != "" then Some(buyers[0]) else activeChat
  }

  /** Loading only ever opens a conversation with a named buyer other than the poster, and leaves
      the open one alone when there is no buyer. */
  lemma ChatAfterLoadIsBuyer(activeChat: Option<string>, g: Grouped, posterName: Option<string>)
    ensures var r := ChatAfterLoad(activeChat, BuyerNames(g, posterName));
            && (r != activeChat ==> r.Some? && r.value != "" && r.value in Names(g) && Some(r.value) != posterName)
            && (BuyerNames(g, posterName) == [] ==> r == activeChat)
  {
    BuyerNamesExact(g, posterName);
    var b := BuyerNames(g, posterName);
    if |b| > 0 {
      assert b[0] in b;
    }
  }

  /** The message the seller's send handlers post: none for blank input, otherwise the trimmed
      text from the user to the open conversation. */
  function SellerOutgoing(input: string, user: UserRecord, activeChat: Option<string>): (r: Option<Message>)
    ensures r.None? <==> Blank(input)
    ensures r.Some? ==> r.value == ListingDetailPage.Message(None, user.name, activeChat, Trim(input), true)
    ensures r.Some? ==> r.value.text != "" && !IsSpace(r.value.text[0]) && !IsSpace(r.value.text[|r.value.text| - 1])
  {
    TrimEmptyIffBlank(input);
    TrimIsSlice(input);
    if Trim(input) == "" then None
    else Some(ListingDetailPage.Message(None, user.name, activeChat, Trim(input), true))
  }

  // ---------------------------------------------------------------------------------
  // Saving the edits

  /** The image list as posted: URLs kept, each chosen file replaced by its data URL. */
  function PostedImages(images: seq<Image>, dataUrl: Image -> string): (r: seq<Image>)
    ensures |r| == |images|
    ensures forall i :: 0 <= i < |r| ==> r[i].Url?
    ensures forall i :: 0 <= i < |r| && images[i].Url? ==> r[i] == images[i]
  {
    seq(|images|, i requires 0 <= i < |images| => if images[i].Url? then images[i] else Url(dataUrl(images[i])))
  }

  /** The record handleSubmit puts and then shows: the form with the posted images under `images`,
      amenities parsed again, truthy dates converted by `toIso` and falsy ones nulled, and the
      poster rebuilt from the stored user. */
  function EditedListing(form: Form, dataUrl: Image -> string, toIso: FormValue -> FormValue, stored: UserRecord): (r: Form)
    requires HasImages(form, "image")
    ensures HasImages(r, "image") && r["image"] == form["image"]
    ensures r.Keys == form.Keys + {"images", "amenities", "startDate", "endDate", "poster"}
    ensures forall k :: k in form && k !in {"images", "amenities", "startDate", "endDate", "poster"} ==> r[k] == form[k]
    ensures r["images"] == Images(PostedImages(form["image"].images, dataUrl))
    ensures r["amenities"] == ParseAmenities(Get(form, "amenities"))
    ensures forall k :: k in {"startDate", "endDate"} ==> r[k] == if IsTruthy(Get(form, k)) then toIso(Get(form, k)) else Null
    ensures r["poster"] == Person(SubmittedPoster(stored))
  {
    var start := Get(form, "startDate");
    var end := Get(form, "endDate");
    form["images" := Images(PostedImages(form["image"].images, dataUrl))]
        ["amenities" := ParseAmenities(Get(form, "amenities"))]
        ["startDate" := if IsTruthy(start) then toIso(start) else Null]
        ["endDate" := if IsTruthy(end) then toIso(end) else Null]
        ["poster" := Person(SubmittedPoster(stored))]
  }

  /** Saving a freshly loaded listing posts its amenities exactly as loading parsed them, and
      every image it arrived with, in order. */
  lemma SaveAfterLoadKeepsContent(listing: Form, latest: UserRecord, toDate: FormValue -> FormValue,
                                  dataUrl: Image -> string, toIso: FormValue -> FormValue, stored: UserRecord)
    requires ImagesWellFormed(listing)
    requires forall i :: 0 <= i < |LoadedForm(listing, latest, toDate)["image"].images| ==>
               LoadedForm(listing, latest, toDate)["image"].images[i].Url?
    ensures var loaded := LoadedForm(listing, latest, toDate);
            var saved := EditedListing(loaded, dataUrl, toIso, stored);
            && saved["amenities"] == loaded["amenities"]
            && saved["images"] == loaded["image"]
  {
    var loaded := LoadedForm(listing, latest, toDate);
    AmenitiesIdempotent(Get(listing, "amenities"));
    var posted := PostedImages(loaded["image"].images, dataUrl);
    assert posted == loaded["image"].images;
  }

  // ---------------------------------------------------------------------------------
  // The component state

  datatype EditorState = EditorState(
    formData: Option<Form>,
    editing: bool,
    activeChat: Option<string>,
    input: string,
    messages: Grouped)

  class ListingEditor {
    var formData: Option<Form>
    var editing: bool
    var activeChat: Option<string>
    var input: string
    var messages: Grouped
    /** The user read from storage when the page module was loaded. */
    const user: UserRecord

    function State(): EditorState
      reads this
    {
      EditorState(formData, editing, activeChat, input, messages)
    }

    /** A loaded form holds its image list under `image`. */
    predicate Valid()
      reads this
    {
      formData.Some? ==> HasImages(formData.value, "image")
    }

    constructor(user: UserRecord)
      ensures Valid() && this.user == user
      ensures State() == EditorState(None, false, None, "", [])
    {
      this.user := user;
      formData, editing, activeChat, input, messages := None, false, None, "", [];
    }

    /** The listing fetch, then the grouped messages fetch (`grouped` is none when that one threw). */
    method Load(listing: Form, latest: UserRecord, toDate: FormValue -> FormValue, grouped: Option<Grouped>)
      requires Valid()
      requires ImagesWellFormed(listing)
      modifies this
      ensures Valid()
      ensures grouped.None? ==> State() == old(State()).(formData := Some(LoadedForm(listing, latest, toDate)))
      ensures grouped.Some? ==>
                State() == old(State()).(formData := Some(LoadedForm(listing, latest, toDate)),
                                         messages := grouped.value,
                                         activeChat := ChatAfterLoad(old(activeChat), BuyerNames(grouped.value, PosterOf(listing).name)))
    {
      var form := LoadedForm(listing, latest, toDate);
      formData := Some(form);
      if grouped.Some? {
        messages := grouped.value;
        activeChat := ChatAfterLoad(activeChat, BuyerNames(grouped.value, PosterOf(listing).name));
      }
    }

    method StartEditing()
      requires Valid()
      modifies this
      ensures Valid() && State() == old(State()).(editing := true)
    {
      editing := true;
    }

    /** The Cancel button leaves edit mode and keeps the form as it is. */
    method CancelEditing()
      requires Valid()
      modifies this
      ensures Valid() && State() == old(State()).(editing := false)
    {
      editing := false;
    }

    /** handleSubmit: when the update request did not reject, edit mode ends and the form becomes
        the record that was put. */
    method Submit(dataUrl: Image -> string, toIso: FormValue -> FormValue, stored: UserRecord, ok: bool)
      requires Valid() && formData.Some?
      modifies this
      ensures Valid()
      ensures !ok ==> State() == old(State())
      ensures ok ==> State() == old(State()).(editing := false,
                                              formData := Some(EditedListing(old(formData.value), dataUrl, toIso, stored)))
    {
      if ok {
        editing := false;
        formData := Some(EditedListing(formData.value, dataUrl, toIso, stored));
      }
    }

    /** handleChange on the loaded form; the image list is named `image` here. */
    method HandleChange(e: InputEvent)
      requires Valid() && formData.Some?
      requires e.kind == "file" || e.name != "image"
      modifies this
      ensures Valid()
      ensures State() == old(State()).(formData := Some(ApplyChange(old(formData.value), e, "image")))
    {
      formData := Some(ApplyChange(formData.value, e, "image"));
    }

    /** A date picker's change: the chosen date replaces the start or end date. */
    method SetDate(key: string, date: FormValue)
      requires Valid() && formData.Some?
      requires key == "startDate" || key == "endDate"
      modifies this
      ensures Valid()
      ensures State() == old(State()).(formData := Some(old(formData.value)[key := date]))
    {
      formData := Some(formData.value[key := date]);
    }

    /** The remove button on image `i`: that index leaves the list, the rest keep their order. */
    method RemoveImage(i: int)
      requires Valid() && formData.Some?
      modifies this
      ensures Valid()
      ensures State() == old(State()).(formData := Some(old(formData.value)["image" := Images(RemoveAt(old(formData.value["image"].images), i))]))
    {
      var form := formData.value;
      formData := Some(form["image" := Images(RemoveAt(form["image"].images, i))]);
    }

    method SelectChat(name: string)
      requires Valid()
      modifies this
      ensures Valid() && State() == old(State()).(activeChat := Some(name))
    {
      activeChat := Some(name);
    }

    method SetInput(text: string)
      requires Valid()
      modifies this
      ensures Valid() && State() == old(State()).(input := text)
    {
      input := text;
    }

    /** The posting shared by both send handlers: when the reply carried no error the grouped
        messages are fetched again and the input cleared. */
    method Post(ok: bool, refetched: Grouped) returns (sent: Option<Message>)
      requires Valid()
      modifies this
      ensures Valid()
      ensures sent == SellerOutgoing(old(input), user, old(activeChat))
      ensures sent.None? || !ok ==> State() == old(State())
      ensures sent.Some? && ok ==> State() == old(State()).(messages := refetched, input := "")
    {
      sent := SellerOutgoing(input, user, activeChat);
      if sent.Some? && ok {
        messages := refetched;
        input := "";
      }
    }

    /** The input's key handler: only Enter with non-blank input sends. */
    method SendOnEnter(key: string, ok: bool, refetched: Grouped) returns (sent: Option<Message>)
      requires Valid() && Truthy(activeChat)
      modifies this
      ensures Valid()
      ensures key != "Enter" ==> sent.None? && State() == old(State())
      ensures key == "Enter" ==> sent == SellerOutgoing(old(input), user, old(activeChat))
      ensures sent.None? || !ok ==> State() == old(State())
      ensures sent.Some? && ok ==> State() == old(State()).(messages := refetched, input := "")
    {
      if key != "Enter" {
        return None;
      }
      sent := Post(ok, refetched);
    }

    /** The Send button: non-blank input sends. */
    method SendOnClick(ok: bool, refetched: Grouped) returns (sent: Option<Message>)
      requires Valid() && Truthy(activeChat)
      modifies this
      ensures Valid()
      ensures sent == SellerOutgoing(old(input), user, old(activeChat))
      ensures sent.None? || !ok ==> State() == old(State())
      ensures sent.Some? && ok ==> State() == old(State()).(messages := refetched, input := "")
    {
      sent := Post(ok, refetched);
    }

    /** The delete button on the seller's own message: after confirmation and a reply reporting
        success, the grouped messages are fetched again. */
    method DeleteMessage(confirmed: bool, success: bool, refetched: Grouped)
      requires Valid()
      modifies this
      ensures Valid()
      ensures State() == old(State()).(messages := if confirmed && success then refetched else old(messages))
    {
      if confirmed && success {
        messages := refetched;
      }
    }
  }
}
