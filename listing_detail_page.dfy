/** The listing detail page (src/pages/ListingDetailPage.js): the sublet duration, ownership of
    the listing, and the chat with the poster (loading, sending and deleting messages). */
module ListingDetailPage {
  import opened JsValues
  import opened JsStrings
  import opened JsArrays

  /** A chat message; `id` is absent on a message the backend has not stored yet. */
  datatype Message = Message(
    id: Option<int>,
    senderName: Option<string>,
    recipientName: Option<string>,
    text: string,
    fromUser: bool)

  /** The part of a fetched listing the page's logic reads. */
  datatype DetailListing = DetailListing(poster: Option<UserRecord>)

  // ---------------------------------------------------------------------------------
  // Duration

  /** A calendar month as `getFullYear()` and `getMonth()` (0 for January) report it. */
  datatype YearMonth = YearMonth(year: int, month: int)

  /** Months since the start of year 0. */
  function MonthIndex(d: YearMonth): int {
    d.year * 12 + d.month
  }

  /** The following calendar month, across a year boundary too. */
  function NextMonth(d: YearMonth): YearMonth
    requires 0 <= d.month < 12
  {
    if d.month == 11 then YearMonth(d.year + 1, 0) else YearMonth(d.year, d.month + 1)
  }

  /** getDurationInMonths: the number of calendar months from the start month to the end month,
      both counted. */
  function DurationInMonths(start: YearMonth, end: YearMonth): (r: int)
    ensures r == MonthIndex(end) - MonthIndex(start) + 1
  {
    (end.year - start.year) * 12 + (end.month - start.month) + 1
  }

  /** Same month gives 1; an end before the start gives 0 or less (there is no guard); each further
      calendar month adds one; durations over adjacent spans add up with the shared month counted once. */
  lemma DurationFacts(a: YearMonth, b: YearMonth, c: YearMonth)
    requires 0 <= b.month < 12
    ensures DurationInMonths(a, a) == 1
    ensures MonthIndex(b) < MonthIndex(a) ==> DurationInMonths(a, b) <= 0
    ensures DurationInMonths(a, NextMonth(b)) == DurationInMonths(a, b) + 1
    ensures DurationInMonths(a, b) + DurationInMonths(b, c) == DurationInMonths(a, c) + 1
  {
  }

  // ---------------------------------------------------------------------------------
  // Ownership

  /** `listing?.poster?.email`. */
  function PosterEmail(listing: Option<DetailListing>): Option<string> {
    if listing.Some? && listing.value.poster.Some? then listing.value.poster.value.email else None
  }

  /** `listing?.poster?.name`. */
  function PosterName(listing: Option<DetailListing>): Option<string> {
    if listing.Some? && listing.value.poster.Some? then listing.value.poster.value.name else None
  }

  /** isOwner: strict equality, so two missing emails count as a match. */
  predicate IsOwner(listing: Option<DetailListing>, currentUser: UserRecord) {
    PosterEmail(listing) == currentUser.email
  }

  /** The owner test holds when the poster's email is the user's, and also when neither side has one. */
  lemma IsOwnerCases(listing: Option<DetailListing>, currentUser: UserRecord)
    ensures var posted := listing.Some? && listing.value.poster.Some? && listing.value.poster.value.email.Some?;
            IsOwner(listing, currentUser) <==>
              (posted && listing.value.poster.value.email == currentUser.email) || (!posted && currentUser.email.None?)
  {
  }

  /** resolvedPoster: the signed-in user on their own listing, the listing's poster otherwise. */
  function ResolvedPoster(listing: Option<DetailListing>, currentUser: UserRecord): (r: Option<UserRecord>)
    ensures IsOwner(listing, currentUser) ==> r == Some(currentUser)
    ensures !IsOwner(listing, currentUser) ==> r == (if listing.Some? then listing.value.poster else None)
  {
    if IsOwner(listing, currentUser) then Some(currentUser)
    else if listing.Some? then listing.value.poster
    else None
  }

  /** Whichever record is shown, the email displayed is the listing poster's. */
  lemma ResolvedPosterEmail(listing: Option<DetailListing>, currentUser: UserRecord)
    ensures var r := ResolvedPoster(listing, currentUser);
            (if r.Some? then r.value.email else None) == PosterEmail(listing)
  {
  }

  // ---------------------------------------------------------------------------------
  // Messages

  /** The messages the page keeps from a fetch: those the user sent or received. */
  function VisibleMessages(all: seq<Message>, name: Option<string>): seq<Message> {
    Filter(all, (m: Message) => m.senderName == name || m.recipientName == name)
  }

  /** A fetched message is kept exactly when the user is its sender or recipient, and the kept ones stay in order. */
  lemma VisibleMessagesExact(all: seq<Message>, name: Option<string>)
    ensures forall m :: m in VisibleMessages(all, name) <==> m in all && (m.senderName == name || m.recipientName == name)
    ensures IsSubseq(VisibleMessages(all, name), all)
  {
    var keep := (m: Message) => m.senderName == name || m.recipientName == name;
    forall m | m in all && keep(m) ensures m in VisibleMessages(all, name) {
      var i :| 0 <= i < |all| && all[i] == m;
    }
    FilterIsSubseq(all, keep);
  }

  /** `prev.filter((m) => m.id !== msg.id)`. */
  function WithoutMessage(messages: seq<Message>, id: Option<int>): seq<Message> {
    Filter(messages, (m: Message) => m.id != id)
  }

  /** Every message with that id goes, the others stay in order, and a second deletion changes nothing. */
  lemma WithoutMessageEffect(messages: seq<Message>, id: Option<int>)
    ensures forall m :: m in WithoutMessage(messages, id) <==> m in messages && m.id != id
    ensures IsSubseq(WithoutMessage(messages, id), messages)
    ensures WithoutMessage(WithoutMessage(messages, id), id) == WithoutMessage(messages, id)
  {
    var keep := (m: Message) => m.id != id;
    var r := WithoutMessage(messages, id);
    forall m | m in messages && keep(m) ensures m in r {
      var i :| 0 <= i < |messages| && messages[i] == m;
    }
    FilterIsSubseq(messages, keep);
    FilterKeepsAll(r, keep);
  }

  /** The message handleSend posts: none for blank input, otherwise the trimmed text addressed to the poster. */
  function Outgoing(input: string, currentUser: UserRecord, listing: Option<DetailListing>): (r: Option<Message>)
    ensures r.None? <==> Blank(input)
    ensures r.Some? ==> r.value == Message(None, currentUser.name, PosterName(listing), Trim(input), false)
    ensures r.Some? ==> r.value.text != "" && !IsSpace(r.value.text[0]) && !IsSpace(r.value.text[|r.value.text| - 1])
  {
    TrimEmptyIffBlank(input);
    TrimIsSlice(input);
    if Trim(input) == "" then None
    else Some(Message(None, currentUser.name, PosterName(listing), Trim(input), false))
  }

  datatype DetailState = DetailState(
    currentUser: UserRecord,
    listing: Option<DetailListing>,
    loading: bool,
    messages: seq<Message>,
    input: string)

  class DetailPage {
    var currentUser: UserRecord
    var listing: Option<DetailListing>
    var loading: bool
    var messages: seq<Message>
    var input: string

    function State(): DetailState
      reads this
    {
      DetailState(currentUser, listing, loading, messages, input)
    }

    constructor()
      ensures State() == DetailState(NoUser, None, true, [], "")
    {
      currentUser, listing, loading, messages, input := NoUser, None, true, [], "";
    }

    /** The user read from storage on mount (`{}` when there is none). */
    method LoadUser(stored: UserRecord)
      modifies this
      ensures State() == old(State()).(currentUser := stored)
    {
      currentUser := stored;
    }

    /** The listing fetch; `ok` is false when it threw. */
    method LoadListing(data: Option<DetailListing>, ok: bool)
      modifies this
      ensures State() == old(State()).(listing := if ok then data else old(listing), loading := false)
    {
      if ok {
        listing := data;
      }
      loading := false;
    }

    /** The messages fetch: only the user's own conversation is kept. */
    method LoadMessages(all: seq<Message>, ok: bool)
      modifies this
      ensures State() == old(State()).(messages := if ok then VisibleMessages(all, old(currentUser.name)) else old(messages))
    {
      if ok {
        messages := VisibleMessages(all, currentUser.name);
      }
    }

    method SetInput(text: string)
      modifies this
      ensures State() == old(State()).(input := text)
    {
      input := text;
    }

    /** handleSend: `sent` is the message posted (none for blank input, which changes nothing);
        when the post did not throw, the stored copy `saved` is appended and the input cleared. */
    method Send(ok: bool, saved: Message) returns (sent: Option<Message>)
      modifies this
      ensures sent == Outgoing(old(input), old(currentUser), old(listing))
      ensures sent.None? ==> State() == old(State())
      ensures sent.Some? ==>
                State() == old(State()).(messages := if ok then old(messages) + [saved] else old(messages),
                                         input := if ok then "" else old(input))
    {
      sent := Outgoing(input, currentUser, listing);
      if Trim(input) == "" {
        return;
      }
      if ok {
        messages := messages + [saved];
        input := "";
      }
    }

    /** The delete button, shown on the user's own messages: after confirmation and a request that
        did not throw, every message with that id leaves the list. */
    method DeleteMessage(target: Message, confirmed: bool, ok: bool)
      requires target.senderName == currentUser.name
      modifies this
      ensures State() == old(State()).(messages := if confirmed && ok then WithoutMessage(old(messages), target.id)
                                                   else old(messages))
    {
      if confirmed && ok {
        messages := WithoutMessage(messages, target.id);
      }
    }
  }
}
