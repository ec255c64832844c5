/** The tool detail page (src/pages/ToolDetailPage.tsx): the once-per-session
    donate and Telegram popups kept in session storage, the guards in front
    of the download and review requests, and the image gallery. */
module ToolDetail {
  import opened Wrappers
  import opened Text
  import opened Schema

  const GalleryPlaceholder: string := "https://placehold.co/1200x675/1a1a1a/ef4444?text=No+Image"

  /** The session-storage key that marks the donate popup as shown for a
      tool. The tool id is written in decimal. */
  function DonateKey(id: Id): (r: string)
    ensures StartsWith(r, "donate-shown-")
  {
    "donate-shown-" + NatToString(id)
  }

  function TelegramKey(id: Id): (r: string)
    ensures StartsWith(r, "telegram-shown-")
  {
    "telegram-shown-" + NatToString(id)
  }

  /** Each tool has its own keys, and the two popups never share one. */
  lemma KeysIndependent(a: Id, b: Id)
    ensures DonateKey(a) != TelegramKey(b)
    ensures DonateKey(a) == DonateKey(b) ==> a == b
    ensures TelegramKey(a) == TelegramKey(b) ==> a == b
  {
    assert DonateKey(a)[0] == 'd' && TelegramKey(b)[0] == 't';
    if DonateKey(a) == DonateKey(b) {
      assert NatToString(a) == DonateKey(a)[|"donate-shown-"|..] == NatToString(b);
      NatToStringInjective(a, b);
    }
    if TelegramKey(a) == TelegramKey(b) {
      assert NatToString(a) == TelegramKey(a)[|"telegram-shown-"|..] == NatToString(b);
      NatToStringInjective(a, b);
    }
  }

  /** `sessionStorage.getItem(key)` is truthy: the key is present and its
      value is not the empty string. */
  predicate Stored(session: map<string, string>, key: string) {
    key in session && session[key] != ""
  }

  /** The gallery: the tool's images, or the placeholder alone when it has
      none. It is never empty. */
  function GalleryImages(t: Tool): (r: seq<string>)
    ensures |r| >= 1
    ensures |t.images| > 0 ==> r == t.images
    ensures |t.images| == 0 ==> r == [GalleryPlaceholder]
  {
    if |t.images| > 0 then t.images else [GalleryPlaceholder]
  }

  /** `tool.donation_url` or `tool.telegram_url` as a condition. */
  predicate UrlSet(u: Option<string>) {
    u.Some? && u.value != ""
  }

  /** A request the page sends to the API. */
  datatype Request =
    | DownloadRequest(tool_id: Id, button_label: string, url: string)
    | ReviewRequest(tool_id: Id, rating: int, review_text: string)

  /** A toast's title and description. */
  datatype Toast = Toast(title: string, description: string)

  const DownloadLoginToast: Toast := Toast("Login required", "Please sign in to download tools.")
  const ReviewLoginToast: Toast := Toast("Login required", "Please sign in to submit a review.")
  const InvalidReviewToast: Toast := Toast("Invalid review", "Review must be at least 10 characters long.")

  /** Every field of the page at one moment. */
  datatype PageState = PageState(tool: Option<ToolWithButtons>, user: Option<Id>, selectedImage: nat,
                                 rating: int, reviewText: string, donatePopupShown: bool,
                                 telegramPopupShown: bool, showDonatePopup: bool, showTelegramPopup: bool,
                                 session: map<string, string>, requests: seq<Request>, tabs: seq<string>,
                                 toasts: seq<Toast>)

  /** The page's state: the loaded tool, the signed-in user, the `useState`
      fields, session storage, and what the page has done so far (requests
      sent, URLs opened in a new tab, toasts shown). */
  class DetailPage {
    var tool: Option<ToolWithButtons>
    var user: Option<Id>
    var selectedImage: nat
    var rating: int
    var reviewText: string
    var donatePopupShown: bool
    var telegramPopupShown: bool
    var showDonatePopup: bool
    var showTelegramPopup: bool
    var session: map<string, string>
    var requests: seq<Request>
    var tabs: seq<string>
    var toasts: seq<Toast>

    function State(): PageState
      reads this
    {
      PageState(tool, user, selectedImage, rating, reviewText, donatePopupShown, telegramPopupShown,
                showDonatePopup, showTelegramPopup, session, requests, tabs, toasts)
    }

    /** The page mounts: rating 5, empty review, no popup flags set. */
    constructor (user: Option<Id>, session: map<string, string>)
      ensures this.user == user && this.session == session && tool == None
      ensures selectedImage == 0 && rating == 5 && reviewText == ""
      ensures !donatePopupShown && !telegramPopupShown && !showDonatePopup && !showTelegramPopup
      ensures requests == [] && tabs == [] && toasts == []
    {
      this.user := user;
      this.session := session;
      tool := None;
      selectedImage, rating, reviewText := 0, 5, "";
      donatePopupShown, telegramPopupShown := false, false;
      showDonatePopup, showTelegramPopup := false, false;
      requests, tabs, toasts := [], [], [];
    }

    /** The tool query answers and the mount effect runs: each "already
        shown" flag is raised when session storage holds its key, and is
        never lowered. */
    method ToolLoaded(t: Option<ToolWithButtons>)
      modifies this
      ensures tool == t
      ensures t.Some? ==> donatePopupShown == (old(donatePopupShown) || Stored(session, DonateKey(t.value.tool.id)))
      ensures t.Some? ==> telegramPopupShown == (old(telegramPopupShown) || Stored(session, TelegramKey(t.value.tool.id)))
      ensures t.None? ==> State() == old(State()).(tool := t)
      ensures State() == old(State()).(tool := t, donatePopupShown := donatePopupShown,
                                       telegramPopupShown := telegramPopupShown)
    {
      tool := t;
      if t.Some? {
        if Stored(session, DonateKey(t.value.tool.id)) {
          donatePopupShown := true;
        }
        if Stored(session, TelegramKey(t.value.tool.id)) {
          telegramPopupShown := true;
        }
      }
    }

    /** `handleDonateClick`. The first click in a session records the key
        and opens the popup without opening the URL; once the key is
        stored, a click opens the donation URL directly when there is one.
        The Telegram state is untouched. */
    method DonateClick()
      modifies this
      ensures tool.None? ==> State() == old(State())
      ensures tool.Some? && !Stored(old(session), DonateKey(tool.value.tool.id)) ==>
                State() == old(State()).(session := old(session)[DonateKey(tool.value.tool.id) := "true"],
                                         donatePopupShown := true, showDonatePopup := true)
      ensures tool.Some? && Stored(old(session), DonateKey(tool.value.tool.id)) ==>
                State() == old(State()).(tabs := old(tabs) + (if UrlSet(tool.value.tool.donation_url)
                                                                then [tool.value.tool.donation_url.value] else []))
      ensures tool.Some? ==> Stored(session, DonateKey(tool.value.tool.id))
    {
      if tool.None? {
        return;
      }
      var t := tool.value.tool;
      var key := DonateKey(t.id);
      if !Stored(session, key) {
        session := session[key := "true"];
        donatePopupShown := true;
        showDonatePopup := true;
      } else if UrlSet(t.donation_url) {
        tabs := tabs + [t.donation_url.value];
      }
    }

    /** `handleTelegramClick`: the same rule with the Telegram key and URL;
        the donate state is untouched. */
    method TelegramClick()
      modifies this
      ensures tool.None? ==> State() == old(State())
      ensures tool.Some? && !Stored(old(session), TelegramKey(tool.value.tool.id)) ==>
                State() == old(State()).(session := old(session)[TelegramKey(tool.value.tool.id) := "true"],
                                         telegramPopupShown := true, showTelegramPopup := true)
      ensures tool.Some? && Stored(old(session), TelegramKey(tool.value.tool.id)) ==>
                State() == old(State()).(tabs := old(tabs) + (if UrlSet(tool.value.tool.telegram_url)
                                                                then [tool.value.tool.telegram_url.value] else []))
      ensures tool.Some? ==> Stored(session, TelegramKey(tool.value.tool.id))
    {
      if tool.None? {
        return;
      }
      var t := tool.value.tool;
      var key := TelegramKey(t.id);
      if !Stored(session, key) {
        session := session[key := "true"];
        telegramPopupShown := true;
        showTelegramPopup := true;
      } else if UrlSet(t.telegram_url) {
        tabs := tabs + [t.telegram_url.value];
      }
    }

    /** The donate popup's button: opens the URL when there is one and
        closes the popup. */
    method ConfirmDonate()
      requires tool.Some?
      modifies this
      ensures !showDonatePopup
      ensures State() == old(State()).(showDonatePopup := false,
                                       tabs := old(tabs) + (if UrlSet(old(tool).value.tool.donation_url)
                                                              then [old(tool).value.tool.donation_url.value] else []))
    {
      var t := tool.value.tool;
      if UrlSet(t.donation_url) {
        tabs := tabs + [t.donation_url.value];
      }
      showDonatePopup := false;
    }

    method ConfirmTelegram()
      requires tool.Some?
      modifies this
      ensures !showTelegramPopup
      ensures State() == old(State()).(showTelegramPopup := false,
                                       tabs := old(tabs) + (if UrlSet(old(tool).value.tool.telegram_url)
                                                              then [old(tool).value.tool.telegram_url.value] else []))
    {
      var t := tool.value.tool;
      if UrlSet(t.telegram_url) {
        tabs := tabs + [t.telegram_url.value];
      }
      showTelegramPopup := false;
    }

    /** `handleDownload(label, url)`: without a user only a toast; without a
        tool nothing; otherwise one download request. */
    method Download(buttonLabel: string, url: string)
      modifies this
      ensures user.None? ==> State() == old(State()).(toasts := old(toasts) + [DownloadLoginToast])
      ensures user.Some? && tool.None? ==> State() == old(State())
      ensures user.Some? && tool.Some? ==>
                State() == old(State()).(requests := old(requests)
                                                     + [DownloadRequest(tool.value.tool.id, buttonLabel, url)])
    {
      if user.None? {
        toasts := toasts + [DownloadLoginToast];
        return;
      }
      if tool.None? {
        return;
      }
      requests := requests + [DownloadRequest(tool.value.tool.id, buttonLabel, url)];
    }

    /** The download was recorded: the button's URL opens in a new tab. */
    method DownloadSucceeded(url: string)
      modifies this
      ensures State() == old(State()).(tabs := old(tabs) + [url])
    {
      tabs := tabs + [url];
    }

    /** The star buttons. */
    method SetRating(value: int)
      requires 1 <= value <= 5
      modifies this
      ensures State() == old(State()).(rating := value)
    {
      rating := value;
    }

    method SetReviewText(text: string)
      modifies this
      ensures State() == old(State()).(reviewText := text)
    {
      reviewText := text;
    }

    /** `handleSubmitReview`: a review request goes out only with a user, a
        loaded tool and a text of at least 10 characters. */
    method SubmitReview()
      modifies this
      ensures user.None? ==> State() == old(State()).(toasts := old(toasts) + [ReviewLoginToast])
      ensures user.Some? && (tool.None? || |reviewText| < 10) ==>
                State() == old(State()).(toasts := old(toasts) + [InvalidReviewToast])
      ensures user.Some? && tool.Some? && |reviewText| >= 10 ==>
                State() == old(State()).(requests := old(requests)
                                                     + [ReviewRequest(tool.value.tool.id, rating, reviewText)])
      ensures requests != old(requests) <==> user.Some? && tool.Some? && |reviewText| >= 10
    {
      if user.None? {
        toasts := toasts + [ReviewLoginToast];
        return;
      }
      if tool.None? || |reviewText| < 10 {
        toasts := toasts + [InvalidReviewToast];
        return;
      }
      requests := requests + [ReviewRequest(tool.value.tool.id, rating, reviewText)];
    }

    /** The review was accepted: the form goes back to an empty text and
        five stars. */
    method ReviewSucceeded()
      modifies this
      ensures State() == old(State()).(reviewText := "", rating := 5,
                                       toasts := old(toasts) + [Toast("Review submitted", "Thank you for your feedback!")])
    {
      reviewText := "";
      rating := 5;
      toasts := toasts + [Toast("Review submitted", "Thank you for your feedback!")];
    }

    /** A thumbnail click. */
    method SelectImage(index: nat)
      requires tool.Some? && index < |GalleryImages(tool.value.tool)|
      modifies this
      ensures State() == old(State()).(selectedImage := index)
      ensures MainImage() == Some(GalleryImages(tool.value.tool)[index])
    {
      selectedImage := index;
    }

    /** The picture drawn large. An index past the end (left over from
        another tool) is `undefined`, written `None`. */
    function MainImage(): (r: Option<string>)
      requires tool.Some?
      reads this
      ensures selectedImage < |GalleryImages(tool.value.tool)| <==> r.Some?
      ensures r.Some? ==> r.value == GalleryImages(tool.value.tool)[selectedImage]
    {
      var g := GalleryImages(tool.value.tool);
      if selectedImage < |g| then Some(g[selectedImage]) else None
    }
  }

  /** On a fresh page, loading a tool sets each "already shown" flag
      exactly when session storage holds that popup's key. */
  method MountSync(user: Option<Id>, session: map<string, string>, t: ToolWithButtons)
      returns (donateShown: bool, telegramShown: bool)
    ensures donateShown <==> Stored(session, DonateKey(t.tool.id))
    ensures telegramShown <==> Stored(session, TelegramKey(t.tool.id))
  {
    var page := new DetailPage(user, session);
    page.ToolLoaded(Some(t));
    donateShown, telegramShown := page.donatePopupShown, page.telegramPopupShown;
  }

  /** Two donate clicks in one session on a tool with a donation URL: the
      first shows the popup and opens nothing, the second opens the URL. */
  method DonateTwice(user: Option<Id>, session: map<string, string>, t: ToolWithButtons)
      returns (popupAfterFirst: bool, tabsAfterFirst: seq<string>, tabsAfterSecond: seq<string>)
    requires !Stored(session, DonateKey(t.tool.id))
    requires UrlSet(t.tool.donation_url)
    ensures popupAfterFirst && tabsAfterFirst == []
    ensures tabsAfterSecond == [t.tool.donation_url.value]
  {
    var page := new DetailPage(user, session);
    page.ToolLoaded(Some(t));
    page.DonateClick();
    popupAfterFirst, tabsAfterFirst := page.showDonatePopup, page.tabs;
    page.DonateClick();
    tabsAfterSecond := page.tabs;
  }

  /** A donate click leaves the Telegram key of every tool as it was. */
  lemma DonateKeepsTelegramKeys(session: map<string, string>, a: Id, b: Id)
    ensures Stored(session[DonateKey(a) := "true"], TelegramKey(b)) <==> Stored(session, TelegramKey(b))
    ensures a != b ==> (Stored(session[DonateKey(a) := "true"], DonateKey(b)) <==> Stored(session, DonateKey(b)))
  {
    KeysIndependent(a, b);
    KeysIndependent(b, a);
  }
}
