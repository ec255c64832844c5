/** The five tables of the catalogue and the write-side validation rules the
    server runs before every insert or update (shared/schema.ts).

    URL and e-mail syntax are decided by a library the model does not
    include; they appear as the parameters `isUrl` and `isEmail`. */
module Schema {
  import opened Wrappers

  /** Row identifiers; the datastore draws fresh ones. */
  type Id = nat

  datatype User = User(id: Id, username: string, email: string, is_admin: bool, created_at: int)

  datatype Tool = Tool(
    id: Id,
    title: string,
    slug: string,
    short_desc: string,
    description_markdown: string,
    images: seq<string>,
    tags: seq<string>,
    donation_url: Option<string>,
    telegram_url: Option<string>,
    created_at: int,
    updated_at: int)

  /** `caption` is the `label` column (`label` is a Dafny keyword). */
  datatype DownloadButton = DownloadButton(id: Id, tool_id: Id, caption: string, url: string, order: int)

  datatype Download = Download(id: Id, user_id: Id, tool_id: Id, button_label: string, downloaded_at: int)

  datatype Review = Review(id: Id, user_id: Id, tool_id: Id, rating: int, review_text: string, created_at: int)

  /** A tool as the API returns it: its buttons and, optionally, its stats. */
  datatype ToolWithButtons = ToolWithButtons(
    tool: Tool,
    download_buttons: seq<DownloadButton>,
    download_count: Option<int>,
    average_rating: Option<real>,
    review_count: Option<int>)

  /** A review joined with its author's username (absent when the user row
      is missing). */
  datatype ReviewWithUser = ReviewWithUser(review: Review, username: Option<string>)

  /** One validation failure: the field, an array index inside it, and the
      message the schema attaches. */
  datatype Issue = Issue(field: string, index: Option<nat>, message: string)

  // ---------------------------------------------------------------- tools

  /** An optional, nullable text field of a JSON payload: left out, `null`,
      or a string. */
  datatype UrlField = Absent | Null | Given(text: string)

  /** A tool payload as it arrives; absent optional fields are `None`. */
  datatype ToolInput = ToolInput(
    title: string,
    slug: string,
    short_desc: string,
    description_markdown: string,
    images: Option<seq<string>>,
    tags: Option<seq<string>>,
    donation_url: UrlField,
    telegram_url: UrlField)

  /** A payload that passed `insertToolSchema`, with defaults filled in. */
  datatype ToolFields = ToolFields(
    title: string,
    slug: string,
    short_desc: string,
    description_markdown: string,
    images: seq<string>,
    tags: seq<string>,
    donation_url: UrlField,
    telegram_url: UrlField)

  /** The acceptance rule for a tool, stated field by field. */
  predicate ToolAccepted(t: ToolInput, isUrl: string -> bool) {
    && |t.title| >= 1
    && |t.slug| >= 1
    && |t.short_desc| >= 10
    && |t.description_markdown| >= 20
    && forall i :: 0 <= i < |t.images.GetOr([])| ==> isUrl(t.images.GetOr([])[i])
  }

  /** One issue per image from position `k` on that is not a URL. */
  function ImageIssues(images: seq<string>, isUrl: string -> bool, k: nat): (r: seq<Issue>)
    requires k <= |images|
    ensures r == [] <==> forall i :: k <= i < |images| ==> isUrl(images[i])
    ensures forall j :: 0 <= j < |r| ==> r[j].field == "images" && r[j].index.Some?
    decreases |images| - k
  {
    if k == |images| then []
    else (if isUrl(images[k]) then [] else [Issue("images", Some(k), "Invalid url")])
         + ImageIssues(images, isUrl, k + 1)
  }

  /** The issues of the four text fields, in schema order. */
  function TextIssues(t: ToolInput): seq<Issue> {
    (if |t.title| >= 1 then [] else [Issue("title", None, "Title is required")])
    + (if |t.slug| >= 1 then [] else [Issue("slug", None, "Slug is required")])
    + (if |t.short_desc| >= 10 then []
       else [Issue("short_desc", None, "Short description must be at least 10 characters")])
    + (if |t.description_markdown| >= 20 then []
       else [Issue("description_markdown", None, "Description must be at least 20 characters")])
  }

  function ToolIssues(t: ToolInput, isUrl: string -> bool): seq<Issue> {
    TextIssues(t) + ImageIssues(t.images.GetOr([]), isUrl, 0)
  }

  /** `insertToolSchema.parse`: every rule is checked and every failure is
      reported; on success `images` and `tags` default to the empty list. */
  function ParseTool(t: ToolInput, isUrl: string -> bool): (r: Result<ToolFields, seq<Issue>>)
    ensures r.Ok? <==> ToolAccepted(t, isUrl)
    ensures r.Err? ==> r.error != []
    ensures r.Ok? ==> r.value == ToolFields(t.title, t.slug, t.short_desc, t.description_markdown,
                                            t.images.GetOr([]), t.tags.GetOr([]),
                                            t.donation_url, t.telegram_url)
  {
    var issues := ToolIssues(t, isUrl);
    if issues == [] then
      Ok(ToolFields(t.title, t.slug, t.short_desc, t.description_markdown,
                    t.images.GetOr([]), t.tags.GetOr([]), t.donation_url, t.telegram_url))
    else Err(issues)
  }

  /** No image issue is about a text field. */
  lemma ImageIssuesAreAboutImages(images: seq<string>, isUrl: string -> bool, x: Issue)
    requires x in ImageIssues(images, isUrl, 0)
    ensures x.field == "images"
  {
    var imgs := ImageIssues(images, isUrl, 0);
    var j :| 0 <= j < |imgs| && imgs[j] == x;
  }

  /** The title rule fails exactly when its issue is reported. */
  lemma TitleIssueIff(t: ToolInput, isUrl: string -> bool)
    ensures Issue("title", None, "Title is required") in ToolIssues(t, isUrl) <==> t.title == ""
  {
    var x := Issue("title", None, "Title is required");
    if x in ImageIssues(t.images.GetOr([]), isUrl, 0) {
      ImageIssuesAreAboutImages(t.images.GetOr([]), isUrl, x);
    }
  }

  /** The slug rule fails exactly when its issue is reported. */
  lemma SlugIssueIff(t: ToolInput, isUrl: string -> bool)
    ensures Issue("slug", None, "Slug is required") in ToolIssues(t, isUrl) <==> t.slug == ""
  {
    var x := Issue("slug", None, "Slug is required");
    if x in ImageIssues(t.images.GetOr([]), isUrl, 0) {
      ImageIssuesAreAboutImages(t.images.GetOr([]), isUrl, x);
    }
  }

  /** The short-description rule fails exactly when its issue is reported. */
  lemma ShortDescIssueIff(t: ToolInput, isUrl: string -> bool)
    ensures Issue("short_desc", None, "Short description must be at least 10 characters") in ToolIssues(t, isUrl)
            <==> |t.short_desc| < 10
  {
    var x := Issue("short_desc", None, "Short description must be at least 10 characters");
    if x in ImageIssues(t.images.GetOr([]), isUrl, 0) {
      ImageIssuesAreAboutImages(t.images.GetOr([]), isUrl, x);
    }
  }

  /** The description rule fails exactly when its issue is reported. */
  lemma DescriptionIssueIff(t: ToolInput, isUrl: string -> bool)
    ensures Issue("description_markdown", None, "Description must be at least 20 characters") in ToolIssues(t, isUrl)
            <==> |t.description_markdown| < 20
  {
    var x := Issue("description_markdown", None, "Description must be at least 20 characters");
    if x in ImageIssues(t.images.GetOr([]), isUrl, 0) {
      ImageIssuesAreAboutImages(t.images.GetOr([]), isUrl, x);
    }
  }

  // -------------------------------------------------------------- reviews

  /** A review payload after the server has set `user_id`. The rating is a
      JSON number, so it may have a fractional part. */
  datatype ReviewInput = ReviewInput(user_id: Id, tool_id: Id, rating: real, review_text: string)

  datatype ReviewFields = ReviewFields(user_id: Id, tool_id: Id, rating: int, review_text: string)

  predicate IsInteger(x: real) {
    x == x.Floor as real
  }

  function RatingIssues(x: real): seq<Issue> {
    (if IsInteger(x) then [] else [Issue("rating", None, "Expected integer, received float")])
    + (if x >= 1.0 then [] else [Issue("rating", None, "Number must be greater than or equal to 1")])
    + (if x <= 5.0 then [] else [Issue("rating", None, "Rating must be between 1 and 5")])
  }

  /** `insertReviewSchema.parse`: an integer rating from 1 to 5 and a text of
      at least 10 characters. */
  function ParseReview(v: ReviewInput): (r: Result<ReviewFields, seq<Issue>>)
    ensures r.Ok? <==> IsInteger(v.rating) && 1.0 <= v.rating <= 5.0 && |v.review_text| >= 10
    ensures r.Err? ==> r.error != []
    ensures r.Ok? ==> && 1 <= r.value.rating <= 5
                      && r.value.rating as real == v.rating
                      && r.value == ReviewFields(v.user_id, v.tool_id, r.value.rating, v.review_text)
  {
    var issues := RatingIssues(v.rating)
      + (if |v.review_text| >= 10 then [] else [Issue("review_text", None, "Review must be at least 10 characters")]);
    if issues == [] then Ok(ReviewFields(v.user_id, v.tool_id, v.rating.Floor, v.review_text))
    else Err(issues)
  }

  // ---------------------------------------------------------------- users

  datatype UserInput = UserInput(username: string, email: string, is_admin: Option<bool>)

  datatype UserFields = UserFields(username: string, email: string, is_admin: bool)

  /** `insertUserSchema.parse`: a username of at least 3 characters and a
      valid e-mail; the admin flag defaults to false. */
  function ParseUser(u: UserInput, isEmail: string -> bool): (r: Result<UserFields, seq<Issue>>)
    ensures r.Ok? <==> |u.username| >= 3 && isEmail(u.email)
    ensures r.Err? ==> r.error != []
    ensures r.Ok? ==> r.value == UserFields(u.username, u.email, u.is_admin.GetOr(false))
  {
    var issues :=
      (if |u.username| >= 3 then [] else [Issue("username", None, "Username must be at least 3 characters")])
      + (if isEmail(u.email) then [] else [Issue("email", None, "Invalid email address")]);
    if issues == [] then Ok(UserFields(u.username, u.email, u.is_admin.GetOr(false))) else Err(issues)
  }

  // ------------------------------------------------------ download buttons

  datatype ButtonInput = ButtonInput(tool_id: Id, caption: string, url: string, order: Option<int>)

  datatype ButtonFields = ButtonFields(tool_id: Id, caption: string, url: string, order: int)

  /** `insertDownloadButtonSchema.parse`: a non-empty label and a valid URL;
      the order defaults to 0. */
  function ParseDownloadButton(b: ButtonInput, isUrl: string -> bool): (r: Result<ButtonFields, seq<Issue>>)
    ensures r.Ok? <==> |b.caption| >= 1 && isUrl(b.url)
    ensures r.Err? ==> r.error != []
    ensures r.Ok? ==> r.value == ButtonFields(b.tool_id, b.caption, b.url, b.order.GetOr(0))
  {
    var issues :=
      (if |b.caption| >= 1 then [] else [Issue("label", None, "Label is required")])
      + (if isUrl(b.url) then [] else [Issue("url", None, "Invalid URL")]);
    if issues == [] then Ok(ButtonFields(b.tool_id, b.caption, b.url, b.order.GetOr(0))) else Err(issues)
  }
}
