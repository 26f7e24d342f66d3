# UofT housing front end: a Dafny model of its page logic

This project models the logic of the React front end of a student-housing marketplace for the
University of Toronto. Students post sublets, roommate searches, long-term housing and furniture,
browse and filter them on a list and a map, mark favourites and message the poster. Each core
source file is modelled in its own module:

- `ListingsPage` (src/pages/ListingsPage.js). The listings browser. `Derive` is the view computed
  on every render. It applies a five-way filter (search text, listing type or "Your Listings",
  saved-only, price ceiling, clicked map location) to the listing store. It then applies an
  optional stable sort chosen by `sortBy`. The class `ListingsBrowser` has one field per state
  variable of the page and one method per event handler: loading, the filter controls, "Clear
  All Filters", the favourite star, deletion and the map markers' click, hover and close.
- `ImageCarousel` (src/components/ImageCarousel.js). The slide index: modular next and previous,
  direct selection, an auto-advance tick that only runs while the pointer is away, and swipe
  classification with a 50-pixel threshold.
- `ListingDetailPage` (src/pages/ListingDetailPage.js). The sublet duration in months, ownership
  of the listing, and the buyer's chat: loading it, sending and deleting messages.
- `EditListingPage` (src/pages/EditListingPage.js). The poster's own page:
  - `parseAmenities`;
  - loading the listing into the form, with the poster record coalesced;
  - field edits and image removal;
  - saving the edits;
  - the seller's chat, grouped by buyer.
- `CreateListingPage` (src/pages/CreateListingPage.js). The new-listing form:
  - its initial record and field updates;
  - which fields show for which type;
  - the duration label;
  - the record submitted.
- `AuthPage` (src/pages/AuthPage.js). Sign in and sign up:
  - the endpoint choice;
  - the user record stored after signing in;
  - the password-reset request with its `@mail.utoronto.ca` check;
  - the e-mail input's pattern.
- `EditProfilePage` (src/pages/EditProfilePage.js). The profile form and the merged user record
  it sends.

Four shared modules hold the JavaScript semantics these pages rely on:

- `JsValues`: truthiness, the `a || b || c` fallback chain, `String(id)` and the truncating `%`.
- `JsStrings`: `trim`, `split`, `includes`, `endsWith` and lower-casing.
- `JsArrays`: `filter`, remove-at-index and a stable sort driven by a comparator.
- `Forms`: the form record and the `handleChange` shared by the two listing forms.

Network requests, browser storage, dialogs and timers are not modelled. Each handler is
modelled as the state change that follows a reply. Whether the request succeeded, and what it
returned, are parameters of the method.

## Model

| member | source | states |
|---|---|---|
| JsValues.FirstTruthy | src/pages/AuthPage.js:123-129 | `a \|\| b \|\| d` yields the first truthy candidate, with every earlier one falsy, or the fallback when all are falsy |
| JsValues.FirstTruthyIsTruthy | src/pages/AuthPage.js:125-126 | with a nonempty fallback the chain never yields the empty string |
| JsValues.NatToStringRoundTrip | src/pages/ListingsPage.js:127 | the decimal text of a number reads back as that number |
| JsValues.JsStringNumInjective | src/pages/ListingsPage.js:147 | two numeric ids render as the same string exactly when they are equal |
| JsValues.JsRem | src/components/ImageCarousel.js:19-20 | JavaScript `%` takes the sign of the dividend and stays below the divisor in magnitude |
| JsValues.JsRemValue | src/components/ImageCarousel.js:19-20 | the remainder completes the division: the dividend is a whole multiple of the divisor plus the remainder, which with the bounds of `JsRem` fixes it |
| JsStrings.TrimIsSlice | src/pages/ListingDetailPage.js:108 | `trim` returns a contiguous slice of its input with no whitespace at either end |
| JsStrings.TrimEmptyIffBlank | src/pages/ListingDetailPage.js:102 | the trimmed text is empty exactly when the input is all whitespace |
| JsStrings.IncludesIffOccurs | src/pages/ListingsPage.js:153-154 | `includes` holds exactly when the text occurs at some position |
| JsStrings.SplitJoin | src/pages/EditListingPage.js:27 | joining the pieces of `split(',')` with commas gives back the string |
| JsStrings.SplitPieces | src/pages/EditListingPage.js:27 | `split(',')` gives one more piece than there are commas, and no piece holds a comma |
| JsArrays.Filter | src/pages/ListingsPage.js:151 | every kept element satisfies the predicate, and every element that satisfies it is kept |
| JsArrays.FilterIsSubseq | src/pages/ListingsPage.js:151 | a filtered list is an order-preserving subsequence of the original |
| JsArrays.RemoveAtSlices | src/pages/CreateListingPage.js:371-375 | removing index i leaves the elements before i followed by those after it; an index out of range changes nothing |
| JsArrays.SortBy | src/pages/ListingsPage.js:168-172 | the sorted list is a permutation of the input |
| JsArrays.SortBySorted | src/pages/ListingsPage.js:168-172 | for a total, transitive comparator the result is ordered |
| JsArrays.SortByStable | src/pages/ListingsPage.js:168-172 | elements the comparator ties keep their relative order |
| ListingsPage.MatchesSearch | src/pages/ListingsPage.js:152-154 | the lower-cased search text occurs in the lower-cased title or description; its place in the view is stated by `FilteredMembers` |
| ListingsPage.MatchesType | src/pages/ListingsPage.js:156-159 | 'All', the listing's own category, or 'Your Listings' on a listing the user posted; see `FilteredMembers` |
| ListingsPage.MatchesSaved | src/pages/ListingsPage.js:161 | off, or the listing's id is a string among the favourites; see `SavedAfterLoad` |
| ListingsPage.MatchesPrice | src/pages/ListingsPage.js:162 | no ceiling, a ceiling of 0, or a price at most the ceiling; see `InertGuards` and `PriceCeilingScenario` |
| ListingsPage.MatchesLocation | src/pages/ListingsPage.js:163 | no clicked location, or the listing is at it; see `ClickedLocationNarrows` |
| ListingsPage.Matches | src/pages/ListingsPage.js:151-166 | all five tests together; see `FilteredMembers` |
| ListingsPage.Filtered | src/pages/ListingsPage.js:151-166 | the store filtered by `Matches`, in store order; see `FilteredMembers` |
| ListingsPage.FilteredMembers | src/pages/ListingsPage.js:151-166 | a listing passes the filter exactly when it is in the store and meets all five tests |
| ListingsPage.Comparator | src/pages/ListingsPage.js:168-172 | the comparator of 'low', 'high', 'az', 'za' or 'recent', and none for any other key; see `DeriveUnsortedKeepsOrder` and the order lemmas |
| ListingsPage.Derive | src/pages/ListingsPage.js:151-172 | the filtered list, sorted by the comparator `sortBy` selects; its membership, order and stability are stated by `DeriveMembers`, `DeriveUnsortedKeepsOrder`, `DerivePriceOrder`, `DeriveTitleOrder`, `DeriveRecentOrder` and `DerivePriceStable` |
| ListingsPage.DeriveMembers | src/pages/ListingsPage.js:151-172 | a listing is shown exactly when it is stored and passes search, type, saved, price and location, whatever the sort; the view is a permutation of the filtered list |
| ListingsPage.DeriveUnsortedKeepsOrder | src/pages/ListingsPage.js:168-172 | with `sortBy` '' or any unlisted key the view is the filtered list, an order-preserving subsequence of the store |
| ListingsPage.DerivePriceOrder | src/pages/ListingsPage.js:168-169 | 'low' shows prices non-decreasing, 'high' non-increasing |
| ListingsPage.DeriveTitleOrder | src/pages/ListingsPage.js:170-171 | 'az' orders titles by `localeCompare`, 'za' by the reverse, when that comparison is a total order |
| ListingsPage.DeriveRecentOrder | src/pages/ListingsPage.js:172 | 'recent' shows the newest first when every listing carries a date |
| ListingsPage.DerivePriceStable | src/pages/ListingsPage.js:168-169 | listings of equal price keep their store order under 'low' and 'high' |
| ListingsPage.InertGuards | src/pages/ListingsPage.js:152-163 | empty search, a null or 0 ceiling and a null or empty clicked location restrict nothing |
| ListingsPage.ClearedViewIsStore | src/pages/ListingsPage.js:349-357 | with every filter at its cleared value the view is the whole store, in store order |
| ListingsPage.ClickedLocationNarrows | src/pages/ListingsPage.js:569-572 | after a marker click at a nonempty location, the view is the search-free view narrowed to that exact location |
| ListingsPage.PriceCeilingScenario | src/pages/ListingsPage.js:162 | a ceiling of 1000 over rents 950, 675, 80 and 1600 shows the first three in order |
| ListingsPage.Toggled | src/pages/ListingsPage.js:418-437 | the favourites with the id removed when present and appended when absent; see `ToggledEffect` and `ToggleTwiceRestores` |
| ListingsPage.ToggledEffect | src/pages/ListingsPage.js:418-437 | after a toggle the id is present exactly when it was absent, and the other ids are unchanged in order and number |
| ListingsPage.ToggleTwiceRestores | src/pages/ListingsPage.js:418-437 | toggling an absent id twice restores the list |
| ListingsPage.WithoutListing | src/pages/ListingsPage.js:147 | the store without the listings whose `String(id)` matches; see `WithoutListingEffect` |
| ListingsPage.WithoutListingEffect | src/pages/ListingsPage.js:147 | deletion removes exactly the listings whose `String(id)` matches and keeps the rest in order |
| ListingsPage.Normalized | src/pages/ListingsPage.js:125-128 | each loaded listing keeps its fields, with its id turned into a string and its coordinates attached |
| ListingsPage.FavoriteStrings | src/pages/ListingsPage.js:105 | each favourite id is stored as its string form, in order |
| ListingsPage.SavedAfterLoad | src/pages/ListingsPage.js:105-161 | after both loads a listing counts as saved exactly when some favourite renders like its id; for numeric ids on both sides, exactly when its id is a favourite |
| ListingsPage.ListingsBrowser.constructor | src/pages/ListingsPage.js:63-86 | the initial state; the filters are the cleared ones |
| ListingsPage.ListingsBrowser.LoadUser | src/pages/ListingsPage.js:88-98 | the stored user's name, email and avatar, each defaulted when falsy; no stored user changes nothing |
| ListingsPage.ListingsBrowser.LoadFavorites | src/pages/ListingsPage.js:100-116 | with an email, the reply's ids as strings and the ready flag set (a failed fetch still sets the flag); without one, nothing changes |
| ListingsPage.ListingsBrowser.LoadListings | src/pages/ListingsPage.js:118-140 | on success the normalised listings, every id a string; loading ends either way |
| ListingsPage.ListingsBrowser.SetSearch | src/pages/ListingsPage.js:254 | only the search text changes |
| ListingsPage.ListingsBrowser.SetSortBy | src/pages/ListingsPage.js:260 | only the sort key changes |
| ListingsPage.ListingsBrowser.SetPriceLimit | src/pages/ListingsPage.js:285 | only the price ceiling changes |
| ListingsPage.ListingsBrowser.ToggleShowOnlySaved | src/pages/ListingsPage.js:308 | only the saved-only flag flips |
| ListingsPage.ListingsBrowser.SetActiveType | src/pages/ListingsPage.js:335 | only the listing type changes |
| ListingsPage.ListingsBrowser.ClearAllFilters | src/pages/ListingsPage.js:349-357 | the six filter fields return to their initial values, nothing else changes (the pin included), and the view becomes the store exactly |
| ListingsPage.ListingsBrowser.ToggleFavorite | src/pages/ListingsPage.js:412-442 | on a request that did not reject, favourites become the toggled list; otherwise nothing changes |
| ListingsPage.ListingsBrowser.Delete | src/pages/ListingsPage.js:142-149 | after confirmation and a request that did not reject, the matching listings leave the store; nothing else changes |
| ListingsPage.ListingsBrowser.MarkerClick | src/pages/ListingsPage.js:569-575 | the clicked location becomes the listing's, the search is cleared, the listing is pinned and its popup open |
| ListingsPage.ListingsBrowser.MarkerOver | src/pages/ListingsPage.js:576-580 | hovering opens the popup unless that listing is pinned |
| ListingsPage.ListingsBrowser.MarkerOut | src/pages/ListingsPage.js:581-585 | leaving closes the popup unless that listing is pinned |
| ListingsPage.ListingsBrowser.PopupClose | src/pages/ListingsPage.js:586-590 | a closed popup is unpinned if it was the pinned one; the pin always names an open popup |
| ImageCarousel.Next | src/components/ImageCarousel.js:19 | the following slide, wrapping from the last to the first; NaN with no images |
| ImageCarousel.Prev | src/components/ImageCarousel.js:20 | the preceding slide, wrapping from the first to the last; NaN with no images |
| ImageCarousel.StepsAreInverse | src/components/ImageCarousel.js:19-20 | from an in-range slide, prev undoes next and next undoes prev |
| ImageCarousel.NextTimesAdvances | src/components/ImageCarousel.js:19 | k presses of next advance the index by k modulo the image count |
| ImageCarousel.FullCycle | src/components/ImageCarousel.js:19 | one press of next per image returns to the starting slide |
| ImageCarousel.ClassifySwipe | src/components/ImageCarousel.js:33-39 | next when the start is more than 50 pixels right of the end, previous when more than 50 left, nothing otherwise or when a coordinate is falsy; see `SwipeSymmetry` and `SwipeBackRestores` |
| ImageCarousel.SwipeSymmetry | src/components/ImageCarousel.js:33-39 | a swipe moves only when both coordinates are truthy and more than 50 pixels apart; the reversed gesture moves the other way |
| ImageCarousel.SwipeAtFractions | src/components/ImageCarousel.js:33-39 | with fractional `clientX` values a 50.5-pixel travel moves, a start at 0.5 counts as a touch, and a touch at exactly 0 does not |
| ImageCarousel.SwipeBackRestores | src/components/ImageCarousel.js:33-39 | a gesture followed by its reverse returns to the starting slide |
| ImageCarousel.Carousel.constructor | src/components/ImageCarousel.js:4-8 | starts on slide 0, not hovered, with no touch recorded |
| ImageCarousel.Carousel.GoNext | src/components/ImageCarousel.js:19 | only the index changes, to the next slide, and stays in range |
| ImageCarousel.Carousel.GoPrev | src/components/ImageCarousel.js:20 | only the index changes, to the previous slide, and stays in range |
| ImageCarousel.Carousel.GoTo | src/components/ImageCarousel.js:21 | the index becomes the given one verbatim, with no bounds check |
| ImageCarousel.Carousel.Tick | src/components/ImageCarousel.js:10-17 | the timer advances the slide only while not hovered |
| ImageCarousel.Carousel.MouseEnter | src/components/ImageCarousel.js:44 | only the hover flag is set |
| ImageCarousel.Carousel.MouseLeave | src/components/ImageCarousel.js:45 | only the hover flag is cleared |
| ImageCarousel.Carousel.TouchStart | src/components/ImageCarousel.js:27-29 | only the start coordinate is written |
| ImageCarousel.Carousel.TouchMove | src/components/ImageCarousel.js:30-32 | only the end coordinate is written |
| ImageCarousel.Carousel.TouchEnd | src/components/ImageCarousel.js:33-39 | the slide moves as the gesture is classified; the coordinates are not reset |
| ListingDetailPage.DurationInMonths | src/pages/ListingDetailPage.js:194-202 | the count of calendar months from the start month to the end month, both included |
| ListingDetailPage.DurationFacts | src/pages/ListingDetailPage.js:194-202 | the same month gives 1; an end before the start gives 0 or less; each further month adds 1; adjacent spans add up |
| ListingDetailPage.IsOwner | src/pages/ListingDetailPage.js:93 | the listing poster's email equals the user's, missing values included; see `IsOwnerCases` |
| ListingDetailPage.IsOwnerCases | src/pages/ListingDetailPage.js:93 | the user owns the listing exactly when the poster's email is the user's, or when neither the poster nor the user has an email |
| ListingDetailPage.ResolvedPoster | src/pages/ListingDetailPage.js:187 | the current user on their own listing, the listing's poster otherwise |
| ListingDetailPage.ResolvedPosterEmail | src/pages/ListingDetailPage.js:93 | whichever record is shown, its email is the listing poster's |
| ListingDetailPage.VisibleMessages | src/pages/ListingDetailPage.js:79-82 | the fetched messages sent by or to the user; see `VisibleMessagesExact` |
| ListingDetailPage.VisibleMessagesExact | src/pages/ListingDetailPage.js:79-82 | a fetched message is kept exactly when the user sent or received it, in fetched order |
| ListingDetailPage.WithoutMessage | src/pages/ListingDetailPage.js:373 | the messages without that id; see `WithoutMessageEffect` |
| ListingDetailPage.WithoutMessageEffect | src/pages/ListingDetailPage.js:373 | every message with that id goes, the rest stay in order, and deleting again changes nothing |
| ListingDetailPage.Outgoing | src/pages/ListingDetailPage.js:101-109 | no message for blank input; otherwise the trimmed text from the user to the poster, with no space at either end |
| ListingDetailPage.DetailPage.constructor | src/pages/ListingDetailPage.js:47-97 | no user, no listing, loading, no messages, empty input |
| ListingDetailPage.DetailPage.LoadUser | src/pages/ListingDetailPage.js:49-52 | only the current user changes |
| ListingDetailPage.DetailPage.LoadListing | src/pages/ListingDetailPage.js:57-71 | the fetched listing on success; loading ends either way |
| ListingDetailPage.DetailPage.LoadMessages | src/pages/ListingDetailPage.js:73-91 | on success only the user's own conversation is kept |
| ListingDetailPage.DetailPage.SetInput | src/pages/ListingDetailPage.js:395 | only the input changes |
| ListingDetailPage.DetailPage.Send | src/pages/ListingDetailPage.js:101-125 | sends the outgoing message; blank input changes nothing; on success the saved copy is appended and the input cleared |
| ListingDetailPage.DetailPage.DeleteMessage | src/pages/ListingDetailPage.js:365-377 | on the user's own message, after confirmation and a request that did not throw, messages with that id leave the list |
| EditListingPage.TrimAll | src/pages/EditListingPage.js:27 | each piece trimmed, in order |
| EditListingPage.ParseAmenities | src/pages/EditListingPage.js:25-29 | the result is always an array; an array comes back unchanged and anything other than a string or an array becomes []; the string case is stated by `AmenitiesFromString` |
| EditListingPage.AmenitiesFromString | src/pages/EditListingPage.js:27 | from a string, one trimmed, comma-free piece per comma plus one; '' gives [''] |
| EditListingPage.AmenitiesIdempotent | src/pages/EditListingPage.js:138 | parsing parsed amenities again changes nothing |
| EditListingPage.AmenitiesRoundTrip | src/pages/EditListingPage.js:27 | when no piece has surrounding whitespace, joining the parsed list with commas gives back the text |
| EditListingPage.Pick | src/pages/EditListingPage.js:89-93 | the stored user's field if truthy, else the listing poster's if truthy, else the default |
| EditListingPage.PosterFor | src/pages/EditListingPage.js:88-94 | every poster field is set, and the name and avatar are never empty |
| EditListingPage.LoadedForm | src/pages/EditListingPage.js:82-95 | the listing's fields plus parsed amenities, dates converted or nulled, `images` copied to `image` (or []) and the coalesced poster |
| EditListingPage.Names | src/pages/EditListingPage.js:104 | the keys of the grouped messages, in order |
| EditListingPage.BuyerNames | src/pages/EditListingPage.js:104 | the group keys other than the poster's name; the buyer sidebar (EditListingPage.js lines 537-541) applies it to the coalesced `formData.poster?.name`; see `BuyerNamesExact` |
| EditListingPage.BuyerNamesExact | src/pages/EditListingPage.js:104 | the buyers are exactly the conversation keys other than the poster's name, in key order |
| EditListingPage.ChatAfterLoad | src/pages/EditListingPage.js:104-105 | the first buyer when there is a nonempty one, else the open chat; see `ChatAfterLoadIsBuyer` |
| EditListingPage.ChatAfterLoadIsBuyer | src/pages/EditListingPage.js:104-105 | loading only opens a conversation with a named buyer other than the poster, and with no buyers leaves the open chat alone |
| EditListingPage.SellerOutgoing | src/pages/EditListingPage.js:617-624 | no message for blank input; otherwise the trimmed text from the seller to the open conversation |
| EditListingPage.PostedImages | src/pages/EditListingPage.js:132 | every posted image is a URL; existing URLs are kept in place |
| EditListingPage.EditedListing | src/pages/EditListingPage.js:135-148 | the form with posted images, amenities parsed again, dates converted or nulled and the poster rebuilt from the stored user; every other field is unchanged |
| EditListingPage.SaveAfterLoadKeepsContent | src/pages/EditListingPage.js:132-138 | saving a freshly loaded listing posts its amenities as loaded and its image URLs in order |
| EditListingPage.ListingEditor.constructor | src/pages/EditListingPage.js:36-41 | no form, not editing, no open chat, empty input, no messages |
| EditListingPage.ListingEditor.Load | src/pages/EditListingPage.js:74-112 | the loaded form; on a messages reply, the grouped messages and the first buyer's chat opened |
| EditListingPage.ListingEditor.StartEditing | src/pages/EditListingPage.js:239 | only the edit flag is set |
| EditListingPage.ListingEditor.CancelEditing | src/pages/EditListingPage.js:249 | only the edit flag is cleared |
| EditListingPage.ListingEditor.HandleChange | src/pages/EditListingPage.js:114-122 | only the named field changes; a file input appends its files to the images |
| EditListingPage.ListingEditor.SetDate | src/pages/EditListingPage.js:355-364 | only the start or end date changes |
| EditListingPage.ListingEditor.RemoveImage | src/pages/EditListingPage.js:386-389 | the image at that index leaves the list |
| EditListingPage.ListingEditor.SelectChat | src/pages/EditListingPage.js:545 | only the open conversation changes |
| EditListingPage.ListingEditor.SetInput | src/pages/EditListingPage.js:615 | only the input changes |
| EditListingPage.ListingEditor.Submit | src/pages/EditListingPage.js:124-161 | after a request that did not reject, edit mode ends and the form becomes the record that was put |
| EditListingPage.ListingEditor.Post | src/pages/EditListingPage.js:627-645 | sends the seller's message; on an error-free reply the messages are refetched and the input cleared |
| EditListingPage.ListingEditor.SendOnEnter | src/pages/EditListingPage.js:616-646 | keys other than Enter change nothing; Enter sends as Post does |
| EditListingPage.ListingEditor.SendOnClick | src/pages/EditListingPage.js:651-681 | the button sends as Post does |
| EditListingPage.ListingEditor.DeleteMessage | src/pages/EditListingPage.js:570-594 | after confirmation and a reply reporting success, the grouped messages are refetched |
| Forms.ApplyChange | src/pages/CreateListingPage.js:38-53 | a file input appends its files after the images; any other input sets only its named field, to `checked` for a checkbox and to `value` otherwise |
| Forms.SubmittedPoster | src/pages/CreateListingPage.js:94-100 | the stored user's name, email, program and year, and its avatar or the default |
| CreateListingPage.InitialFormShape | src/pages/CreateListingPage.js:21-36 | exactly the fourteen fields, all falsy except the empty image list |
| CreateListingPage.ShowHousingFields | src/pages/CreateListingPage.js:118 | the housing fields show for roommates, sublets and long-term housing; see `VisibilityNested` |
| CreateListingPage.ShowRoommatePreference | src/pages/CreateListingPage.js:119 | the roommate preference shows for roommates only; see `VisibilityNested` |
| CreateListingPage.VisibilityNested | src/pages/CreateListingPage.js:118-119 | the roommate preference shows only with the housing fields, and furniture shows neither |
| CreateListingPage.CreateAmenities | src/pages/CreateListingPage.js:86-88 | [] for '', else the comma-split pieces trimmed; see `AmenityParsersCompared` |
| CreateListingPage.AmenityParsersCompared | src/pages/CreateListingPage.js:86-88 | this parser agrees with the edit page's on every string but '', where it gives [] and the other gives [''] |
| CreateListingPage.MonthsLabelReads | src/pages/CreateListingPage.js:131 | the label reads back as k followed by " month", plural exactly when k > 1 |
| CreateListingPage.CalculateDuration | src/pages/CreateListingPage.js:128-134 | a label exactly when both dates are set and the month count is positive |
| CreateListingPage.SanitizeNumber | src/pages/CreateListingPage.js:60-63 | null exactly when the conversion gives NaN, the number otherwise |
| CreateListingPage.WithNumbers | src/pages/CreateListingPage.js:82-84 | price, bedrooms and bathrooms are sanitised; other fields are unchanged |
| CreateListingPage.WithDefaults | src/pages/CreateListingPage.js:89-91 | falsy dates become null and a falsy roommate preference ''; other fields are unchanged |
| CreateListingPage.DataUrlImages | src/pages/CreateListingPage.js:58 | one data URL per chosen file, in the files' order: the i-th posted image is the data URL of the i-th file |
| CreateListingPage.SubmittedAmenities | src/pages/CreateListingPage.js:86-88 | always a list: [] for a falsy value, the edit page's parse for a nonempty string |
| CreateListingPage.NewListing | src/pages/CreateListingPage.js:80-101 | the posted record's images are the data URLs of the form's own `images` list, its amenities the parsed text and its poster the stored user with the default avatar |
| CreateListingPage.NewListingKeys | src/pages/CreateListingPage.js:80-101 | the posted record holds the form's fields and the nine fields handleSubmit writes besides the coordinates, and no others |
| CreateListingPage.NewListingKeepsOthers | src/pages/CreateListingPage.js:80-81 | every field handleSubmit does not rewrite is posted as the form holds it |
| CreateListingPage.NewListingNumbers | src/pages/CreateListingPage.js:82-84 | price, bedrooms and bathrooms are posted as null exactly when they are not numbers |
| CreateListingPage.NewListingDefaults | src/pages/CreateListingPage.js:89-91 | falsy dates are posted as null and truthy ones as they are; the roommate preference keeps its truthiness |
| CreateListingPage.ListingDraft.constructor | src/pages/CreateListingPage.js:21-36 | the initial form |
| CreateListingPage.ListingDraft.HandleChange | src/pages/CreateListingPage.js:38-53 | the form after the change event |
| CreateListingPage.ListingDraft.AddFiles | src/pages/CreateListingPage.js:346-351 | the chosen files go after the images already chosen |
| CreateListingPage.ListingDraft.SetDate | src/pages/CreateListingPage.js:220-230 | only the start or end date changes |
| CreateListingPage.ListingDraft.RemoveImage | src/pages/CreateListingPage.js:371-375 | exactly that index is removed, and the rest keep their order |
| AuthPage.ApiBase | src/pages/AuthPage.js:90 | the configured URL when set and nonempty, else the local server |
| AuthPage.Endpoint | src/pages/AuthPage.js:101-103 | the base URL followed by the registration path on the sign-up tab and the login path otherwise; see `EndpointChoice` |
| AuthPage.EndpointChoice | src/pages/AuthPage.js:101-103 | the endpoint ends in /api/register exactly on the sign-up tab, and in /api/login otherwise |
| AuthPage.PatternCheckExact | src/pages/AuthPage.js:211 | the whole-value pattern `.+@mail\.utoronto\.ca` holds exactly when a nonempty prefix without line breaks precedes the suffix |
| AuthPage.ResetCheckIsWeaker | src/pages/AuthPage.js:346 | every address the sign-in pattern accepts passes the reset check, but the bare suffix passes the reset check and fails the pattern |
| AuthPage.SavedUser | src/pages/AuthPage.js:123-129 | each stored field is the server's value if truthy, else the form's, else the default |
| AuthPage.SavedUserDisplayable | src/pages/AuthPage.js:125-126 | the stored user always has a nonempty name and avatar |
| AuthPage.StoredTokenLogsIn | src/pages/AuthPage.js:122 | the stored token counts as logged in exactly when the server did not send an empty one; a missing token is stored as "undefined" and logs in |
| AuthPage.AuthScreen.constructor | src/pages/AuthPage.js:9-17 | the sign-in tab, the empty form and a closed dialog |
| AuthPage.AuthScreen.SelectTab | src/pages/AuthPage.js:169-180 | only the tab changes |
| AuthPage.AuthScreen.HandleChange | src/pages/AuthPage.js:92-94 | only the named field changes |
| AuthPage.AuthScreen.Submit | src/pages/AuthPage.js:96-135 | a failed or non-2xx request changes nothing; a sign-up success switches to sign-in; a sign-in success stores the token as text ("undefined" when the reply has none) and the saved user, and the user is then logged in unless the token was empty |
| AuthPage.AuthScreen.OpenResetModal | src/pages/AuthPage.js:261 | only the dialog opens |
| AuthPage.AuthScreen.CloseResetModal | src/pages/AuthPage.js:371 | only the dialog closes |
| AuthPage.AuthScreen.SetResetEmail | src/pages/AuthPage.js:341 | only the reset address changes |
| AuthPage.AuthScreen.RequestReset | src/pages/AuthPage.js:345-364 | a request is sent exactly when the address ends in the university suffix; a 2xx reply closes the dialog and clears the address |
| EditProfilePage.InitForm | src/pages/EditProfilePage.js:16-25 | name, program and year from the stored user, '' when missing |
| EditProfilePage.UpdatedUser | src/pages/EditProfilePage.js:34-41 | the stored fields overridden by the form's, `original_name` set to the stored name and the avatar reset to the default |
| EditProfilePage.UneditedSaveKeepsUser | src/pages/EditProfilePage.js:34-41 | saving an unedited form sends back the stored user, changing only `original_name` and the avatar |
| EditProfilePage.ProfileEditor.constructor | src/pages/EditProfilePage.js:10-25 | the form filled from the stored user |
| EditProfilePage.ProfileEditor.HandleChange | src/pages/EditProfilePage.js:27-29 | only the named field changes |
| EditProfilePage.ProfileEditor.Save | src/pages/EditProfilePage.js:31-62 | sends the merged record; the stored user becomes the server's copy only on a 2xx reply |

## Behaviour worth knowing

- The favourite toggle waits for the request before changing the list. A rejected request leaves
  favourites unchanged; a reply with an error status still toggles.
- The title sort uses `localeCompare`, taken as the parameter `Locale.collate`.
- A price ceiling of 0 is ignored like an unset one, because the test is `!priceLimit`.
- The saved-only filter uses strict `includes` on string ids. The favourites and the listing ids
  are both turned into strings on load (`SavedAfterLoad`).
- Under the 'recent' sort, a listing without `datePosted` makes the comparator NaN, which `sort`
  reads as 0. The order is only stated when every listing is dated.
- `isOwner` on the detail page holds when both emails are missing.
- The edit page excludes buyers by `listing.poster?.name` when it loads. The buyer sidebar uses
  the coalesced `formData.poster?.name`.
- The seller's sender name comes from the user read once when the module is imported.
- The two amenity parsers disagree on ''.
- `getDurationInMonths` has no guard against an end before the start.

## Left out

- Network requests, including geocoding. Each is replaced by its outcome, passed as a parameter:
  success or failure, and the data returned.
- Browser storage. The stored user and token are fields or parameters.
- Alerts and navigation.
- Rendering, JSX, styling, scrolling effects and the dropdown, map-open and split-width state
  of the listings page.
- Leaflet closes other popups when one opens, and then fires their close events. This is library
  behaviour, so `openPopups` can hold more than one popup.
- Timers. The carousel's auto-advance is the `Tick` method.
- JavaScript `Date`. Months are (year, month) integers. `differenceInMonths`, date conversion and
  ISO formatting are parameters.
- Unicode case mapping and `localeCompare`. They are the parameters `Locale.lower` and
  `Locale.collate`.
- `Number()` parsing. It is the parameter `toNumber`.
- UTF-16 code units. Strings are sequences of Unicode scalar values, so a lone surrogate cannot
  be represented; `trim`, `split(',')` and `includes` act on well-formed text alike in both views.
- Floating-point prices. Prices are integers.
- `FileReader` base64 conversion. The data URL of a file is the parameter `dataUrl`.
- The latitude and longitude added to a new listing. Geocoding is a network request.
- The unused `tempListings` mapping in the edit page's submit.
- The key order of the grouped-messages object. Integer-like keys come first in JavaScript.
  The model takes the groups in the order given.
- The terms and privacy dialogs of the sign-in page. They only show text.
- Other files outside this model:
  - src/components/AssistantBot.js;
  - src/pages/ResetPasswordPage.js;
  - src/pages/ListingMap.js;
  - src/pages/VerifiedRedirectPage.js;
  - src/utils/auth.js, apart from `isLoggedIn`, which is `AuthPage.LoggedIn`;
  - the landing page, the routing table and the static mock data.
- ListingsPage.ListingsBrowser.LoadUser: a stored value that parses to JSON `null` makes the
  handler throw. This case is not modelled; any stored user is taken as a record.
- EditProfilePage.UpdatedUser: models stored and form values as strings only, so values of
  other JSON types in the stored user are not distinguished.
- AuthPage.SavedUser: the same restriction. Every field of `JsValues.UserRecord` is text, so a
  numeric `year` from the server, which stays a number in the stored JSON, is not distinguished.
- AuthPage.AuthScreen.Submit: the reply's token is either text or missing. A JSON `null` token,
  which storage would keep as the text "null", is not distinguished from a missing one.
- EditProfilePage.ProfileEditor.Save: a 2xx reply without a `user` is stored as the text
  "undefined", which the next `JSON.parse` of the entry rejects. The model stores `None` there,
  which reads as no stored user.
- ListingDetailPage.DetailPage.LoadUser: a stored value that parses to JSON `null` sets
  `currentUser` to null, and the messages effect then throws on `currentUser.name`. This case is
  not modelled; the stored user is always a record, `{}` when there is none.
