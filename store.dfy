/** The REST handlers of server/routes.ts over an in-memory datastore.

    `Store` holds the five tables as sequences; each handler is a method that
    returns the HTTP status (and body) it would send and, for writes, changes
    the tables as the handler's datastore calls do. The datastore's own
    constraints (primary keys, the unique slug, one review per user and
    tool, foreign keys with cascading delete) are the invariant `Valid`.

    Guards come from the `Auth` module; the admin flag is read from the
    `users` table. */
module Routes {
  import opened Wrappers
  import opened Sorting
  import opened Schema
  import opened Auth
  import opened Tables

  // --------------------------------------------------------- column access

  function ToolId(t: Tool): Id { t.id }
  function ToolSlug(t: Tool): string { t.slug }
  function ToolCreated(t: Tool): int { t.created_at }
  function ButtonTool(b: DownloadButton): Id { b.tool_id }
  function DownloadTool(d: Download): Id { d.tool_id }
  function ReviewTool(r: Review): Id { r.tool_id }
  function ReviewCreated(r: Review): int { r.created_at }
  function ReviewPair(r: Review): (Id, Id) { (r.user_id, r.tool_id) }
  function UserId(u: User): Id { u.id }
  function UserName(u: User): string { u.username }
  function UserEmail(u: User): string { u.email }

  // ----------------------------------------------------------- stat assembly

  function Ratings(rs: seq<Review>): (r: seq<int>)
    ensures |r| == |rs| && forall k :: 0 <= k < |rs| ==> r[k] == rs[k].rating
  {
    seq(|rs|, k requires 0 <= k < |rs| => rs[k].rating)
  }

  /** `reduce((sum, r) => sum + r.rating, 0)`. */
  function Sum(xs: seq<int>): int {
    if xs == [] then 0 else Sum(xs[..|xs| - 1]) + xs[|xs| - 1]
  }

  /** Sum over count, or 0 for no ratings. Division is exact here; the
      source divides in floating point. */
  function Average(xs: seq<int>): real {
    if |xs| > 0 then Sum(xs) as real / |xs| as real else 0.0
  }

  predicate AllRatingsValid(xs: seq<int>) {
    forall k :: 0 <= k < |xs| ==> 1 <= xs[k] <= 5
  }

  lemma {:induction false} SumBounds(xs: seq<int>)
    requires AllRatingsValid(xs)
    ensures |xs| <= Sum(xs) <= 5 * |xs|
  {
    if xs != [] {
      SumBounds(xs[..|xs| - 1]);
    }
  }

  /** With every rating from 1 to 5, a non-empty list averages from 1 to 5. */
  lemma AverageInRange(xs: seq<int>)
    requires AllRatingsValid(xs) && |xs| > 0
    ensures 1.0 <= Average(xs) <= 5.0
  {
    SumBounds(xs);
    QuotientBounds(Sum(xs) as real, |xs| as real);
  }

  lemma QuotientBounds(s: real, n: real)
    requires n > 0.0 && n <= s <= 5.0 * n
    ensures 1.0 <= s / n <= 5.0
  {
    QuotientAtLeast(s, n, 1.0);
    QuotientAtMost(s, n, 5.0);
  }

  lemma QuotientAtLeast(s: real, n: real, c: real)
    requires n > 0.0 && c * n <= s
    ensures c <= s / n
  {
    var q := s / n;
    assert q * n == s;
  }

  lemma QuotientAtMost(s: real, n: real, c: real)
    requires n > 0.0 && s <= c * n
    ensures s / n <= c
  {
    var q := s / n;
    assert q * n == s;
  }

  /** The stats one tool is served with, from the answers of its two stat
      queries; a query that returned nothing counts as 0. */
  function AssembleStats(tool: Tool, buttons: seq<DownloadButton>, downloadCount: Option<nat>,
                         ratings: Option<seq<int>>): (r: ToolWithButtons)
    ensures r.tool == tool && r.download_buttons == buttons
    ensures r.download_count.Some? && r.average_rating.Some? && r.review_count.Some?
    ensures downloadCount.Some? ==> r.download_count == downloadCount
    ensures downloadCount.None? ==> r.download_count == Some(0)
    ensures ratings.Some? ==> r.review_count == Some(|ratings.value|)
                              && r.average_rating == Some(Average(ratings.value))
    ensures ratings.None? ==> r.average_rating == Some(0.0) && r.review_count == Some(0)
    ensures r.review_count == Some(0) ==> r.average_rating == Some(0.0)
    ensures ratings.Some? && AllRatingsValid(ratings.value) && r.review_count.value > 0
            ==> 1.0 <= r.average_rating.value <= 5.0
  {
    var avg := if ratings.Some? && |ratings.value| > 0
               then AverageInRange'(ratings.value); Average(ratings.value)
               else 0.0;
    ToolWithButtons(tool, buttons, Some(downloadCount.GetOr(0)), Some(avg),
                    Some(if ratings.Some? then |ratings.value| else 0))
  }

  /** `AverageInRange` when the premise holds, nothing otherwise. */
  lemma AverageInRange'(xs: seq<int>)
    requires |xs| > 0
    ensures AllRatingsValid(xs) ==> 1.0 <= Average(xs) <= 5.0
  {
    if AllRatingsValid(xs) { AverageInRange(xs); }
  }

  function ToolsIn(body: seq<ToolWithButtons>): (r: seq<Tool>)
    ensures |r| == |body| && forall k :: 0 <= k < |body| ==> r[k] == body[k].tool
  {
    seq(|body|, k requires 0 <= k < |body| => body[k].tool)
  }

  function ReviewsIn(body: seq<ReviewWithUser>): (r: seq<Review>)
    ensures |r| == |body| && forall k :: 0 <= k < |body| ==> r[k] == body[k].review
  {
    seq(|body|, k requires 0 <= k < |body| => body[k].review)
  }

  /** With the tools newest first, the first `n` are at least as new as any
      tool left out. */
  lemma TakeNewest(ts: seq<Tool>, n: nat, t: Tool, k: nat)
    requires t in ts && t !in Take(SortDesc(ts, ToolCreated), n)
    requires k < |Take(SortDesc(ts, ToolCreated), n)|
    ensures t.created_at <= Take(SortDesc(ts, ToolCreated), n)[k].created_at
  {
    var sorted := SortDesc(ts, ToolCreated);
    assert t in multiset(ts);
    assert t in sorted;
    var m :| 0 <= m < |sorted| && sorted[m] == t;
    assert m >= n;
    assert Take(sorted, n)[k] == sorted[k];
    assert ToolCreated(sorted[k]) >= ToolCreated(sorted[m]);
  }

  // ------------------------------------------------------------ users

  /** The username of user `id`, as the `user:users (username)` join gives it. */
  function UsernameOf(us: seq<User>, id: Id): (r: Option<string>)
    ensures r.Some? <==> HasKey(us, UserId, id)
    ensures r.Some? ==> exists k :: 0 <= k < |us| && us[k].id == id && us[k].username == r.value
  {
    if us == [] then None
    else if us[0].id == id then Some(us[0].username)
    else
      var r := UsernameOf(us[1..], id);
      assert HasKey(us[1..], UserId, id) ==> HasKey(us, UserId, id) by {
        if HasKey(us[1..], UserId, id) {
          var k :| 0 <= k < |us[1..]| && UserId(us[1..][k]) == id;
          assert UserId(us[k + 1]) == id;
        }
      }
      assert HasKey(us, UserId, id) ==> HasKey(us[1..], UserId, id) by {
        if HasKey(us, UserId, id) {
          var k :| 0 <= k < |us| && UserId(us[k]) == id;
          assert k > 0 && UserId(us[1..][k - 1]) == id;
        }
      }
      if r.Some? then
        var k :| 0 <= k < |us[1..]| && us[1..][k].id == id && us[1..][k].username == r.value;
        assert us[k + 1].id == id && us[k + 1].username == r.value;
        r
      else r
  }

  /** The admin-flag lookup `isUserAdmin` issues, answered from `us`. */
  function UserLookup(us: seq<User>, id: Id): (r: AdminLookup)
    ensures r != LookupError
    ensures r == NoRow <==> !HasKey(us, UserId, id)
  {
    if us == [] then NoRow
    else if us[0].id == id then Row(us[0].is_admin)
    else
      assert HasKey(us[1..], UserId, id) <==> HasKey(us, UserId, id) by {
        if HasKey(us[1..], UserId, id) {
          var k :| 0 <= k < |us[1..]| && UserId(us[1..][k]) == id;
          assert UserId(us[k + 1]) == id;
        }
        if HasKey(us, UserId, id) {
          var k :| 0 <= k < |us| && UserId(us[k]) == id;
          assert k > 0 && UserId(us[1..][k - 1]) == id;
        }
      }
      UserLookup(us[1..], id)
  }

  /** The flag the lookup answers is the flag of the user with that id. */
  lemma {:induction false} UserLookupRow(us: seq<User>, id: Id)
    requires UserLookup(us, id).Row?
    ensures exists k :: 0 <= k < |us| && us[k].id == id && us[k].is_admin == UserLookup(us, id).is_admin
  {
    if us[0].id != id {
      UserLookupRow(us[1..], id);
      var k :| 0 <= k < |us[1..]| && us[1..][k].id == id && us[1..][k].is_admin == UserLookup(us, id).is_admin;
      assert us[k + 1] == us[1..][k];
    } else {
      assert us[0].id == id;
    }
  }

  function AdminTable(us: seq<User>): Id -> AdminLookup {
    (id: Id) => UserLookup(us, id)
  }

  // ------------------------------------------------------------- payloads

  /** What a handler reports besides its status. */
  datatype ApiError =
    | Message(text: string)              // a fixed message of the handler or a guard
    | Invalid(issues: seq<Issue>)        // the schema rejected the payload
    | UniqueViolation(column: string)    // the datastore refused a duplicate
    | ForeignKeyViolation(column: string)
    | NoSingleRow                        // `.single()` found no row
    | QueryFailed                        // any other datastore failure

  datatype ButtonPayload = ButtonPayload(caption: string, url: string, order: Option<int>)

  /** The body of a create or update: the tool fields and `downloadButtons`. */
  datatype ToolPayload = ToolPayload(fields: ToolInput, downloadButtons: Option<seq<ButtonPayload>>)

  /** The body of a review submission; its `user_id`, if any, is ignored. */
  datatype ReviewPayload = ReviewPayload(user_id: Option<Id>, tool_id: Id, rating: real, review_text: string)

  datatype AdminStats = AdminStats(totalTools: nat, totalDownloads: nat, totalReviews: nat, averageRating: real)

  /** The button rows inserted for `toolId`, with ids from `firstId` and the
      caller's order, or 0 when it gave none (`btn.order || 0`). */
  function MakeButtons(toolId: Id, ps: seq<ButtonPayload>, firstId: nat): (r: seq<DownloadButton>)
    ensures |r| == |ps|
    ensures forall k :: 0 <= k < |r| ==> r[k].tool_id == toolId && r[k].id == firstId + k
  {
    seq(|ps|, k requires 0 <= k < |ps| => DownloadButton(firstId + k, toolId, ps[k].caption, ps[k].url, ps[k].order.GetOr(0)))
  }

  /** A URL column on insert: left out or `null` is stored as null. */
  function NewUrl(f: UrlField): Option<string> {
    match f
    case Given(u) => Some(u)
    case _ => None
  }

  /** A URL column on update: left out keeps the stored value, `null` clears it. */
  function UpdatedUrl(current: Option<string>, f: UrlField): Option<string> {
    match f
    case Absent => current
    case Null => None
    case Given(u) => Some(u)
  }

  function NewTool(id: Id, f: ToolFields, now: int): Tool {
    Tool(id, f.title, f.slug, f.short_desc, f.description_markdown, f.images, f.tags,
         NewUrl(f.donation_url), NewUrl(f.telegram_url), now, now)
  }

  function UpdatedTool(t: Tool, f: ToolFields, now: int): Tool {
    Tool(t.id, f.title, f.slug, f.short_desc, f.description_markdown, f.images, f.tags,
         UpdatedUrl(t.donation_url, f.donation_url), UpdatedUrl(t.telegram_url, f.telegram_url),
         t.created_at, now)
  }

  // ------------------------------------------------------------ invariant

  /** The constraints the datastore enforces, on the tables as values. */
  ghost predicate Consistent(users: seq<User>, tools: seq<Tool>, buttons: seq<DownloadButton>,
                             downloads: seq<Download>, reviews: seq<Review>, nextId: nat)
  {
    && DistinctBy(users, UserId) && DistinctBy(users, UserName) && DistinctBy(users, UserEmail)
    && DistinctBy(tools, ToolId) && DistinctBy(tools, ToolSlug)
    && DistinctBy(reviews, ReviewPair)
    && (forall k :: 0 <= k < |tools| ==> tools[k].id < nextId)
    && (forall k :: 0 <= k < |buttons| ==>
          buttons[k].id < nextId && HasKey(tools, ToolId, buttons[k].tool_id))
    && (forall k :: 0 <= k < |downloads| ==>
          downloads[k].id < nextId && HasKey(tools, ToolId, downloads[k].tool_id)
          && HasKey(users, UserId, downloads[k].user_id))
    && (forall k :: 0 <= k < |reviews| ==>
          reviews[k].id < nextId && HasKey(tools, ToolId, reviews[k].tool_id)
          && HasKey(users, UserId, reviews[k].user_id) && 1 <= reviews[k].rating <= 5)
  }

  /** Every stored rating is from 1 to 5, so every tool's average is too. */
  lemma ConsistentRatings(users: seq<User>, tools: seq<Tool>, buttons: seq<DownloadButton>,
                          downloads: seq<Download>, reviews: seq<Review>, nextId: nat, id: Id)
    requires Consistent(users, tools, buttons, downloads, reviews, nextId)
    ensures AllRatingsValid(Ratings(WithTool(reviews, ReviewTool, id)))
    ensures AllRatingsValid(Ratings(reviews))
  {
    var rs := WithTool(reviews, ReviewTool, id);
    forall k | 0 <= k < |rs| ensures 1 <= rs[k].rating <= 5 {
      assert rs[k] in rs;
      WithToolMembers(reviews, ReviewTool, id, rs[k]);
    }
  }

  /** Deleting a tool with its buttons, downloads and reviews keeps the
      datastore consistent: nothing is left that refers to it. */
  lemma DeleteKeepsConsistent(users: seq<User>, tools: seq<Tool>, buttons: seq<DownloadButton>,
                              downloads: seq<Download>, reviews: seq<Review>, nextId: nat, id: Id)
    requires Consistent(users, tools, buttons, downloads, reviews, nextId)
    ensures Consistent(users, WithoutTool(tools, ToolId, id), WithoutTool(buttons, ButtonTool, id),
                       WithoutTool(downloads, DownloadTool, id), WithoutTool(reviews, ReviewTool, id), nextId)
  {
    var ts := WithoutTool(tools, ToolId, id);
    var bs := WithoutTool(buttons, ButtonTool, id);
    var ds := WithoutTool(downloads, DownloadTool, id);
    var rs := WithoutTool(reviews, ReviewTool, id);
    WithoutToolDistinct(tools, ToolId, id, ToolId);
    WithoutToolDistinct(tools, ToolId, id, ToolSlug);
    WithoutToolDistinct(reviews, ReviewTool, id, ReviewPair);
    forall k | 0 <= k < |ts| ensures ts[k].id < nextId {
      assert ts[k] in ts;
      WithoutToolMembers(tools, ToolId, id, ts[k]);
    }
    forall k | 0 <= k < |bs| ensures bs[k].id < nextId && HasKey(ts, ToolId, bs[k].tool_id) {
      assert bs[k] in bs;
      WithoutToolMembers(buttons, ButtonTool, id, bs[k]);
      var j :| 0 <= j < |buttons| && buttons[j] == bs[k];
      var i :| 0 <= i < |tools| && tools[i].id == bs[k].tool_id;
      HasKeyWithout(tools, ToolId, id, ToolId, tools[i]);
    }
    forall k | 0 <= k < |ds| ensures ds[k].id < nextId && HasKey(ts, ToolId, ds[k].tool_id)
                                     && HasKey(users, UserId, ds[k].user_id) {
      assert ds[k] in ds;
      WithoutToolMembers(downloads, DownloadTool, id, ds[k]);
      var j :| 0 <= j < |downloads| && downloads[j] == ds[k];
      var i :| 0 <= i < |tools| && tools[i].id == ds[k].tool_id;
      HasKeyWithout(tools, ToolId, id, ToolId, tools[i]);
    }
    forall k | 0 <= k < |rs| ensures rs[k].id < nextId && HasKey(ts, ToolId, rs[k].tool_id)
                                     && HasKey(users, UserId, rs[k].user_id) && 1 <= rs[k].rating <= 5 {
      assert rs[k] in rs;
      WithoutToolMembers(reviews, ReviewTool, id, rs[k]);
      var j :| 0 <= j < |reviews| && reviews[j] == rs[k];
      var i :| 0 <= i < |tools| && tools[i].id == rs[k].tool_id;
      HasKeyWithout(tools, ToolId, id, ToolId, tools[i]);
    }
  }

  /** Replacing the buttons of tool `id` leaves exactly the new ones under it
      and every other tool's buttons as they were. */
  lemma ReplaceButtons(buttons: seq<DownloadButton>, id: Id, ps: seq<ButtonPayload>, firstId: nat, other: Id)
    ensures WithTool(WithoutTool(buttons, ButtonTool, id) + MakeButtons(id, ps, firstId), ButtonTool, other)
            == if other == id then MakeButtons(id, ps, firstId) else WithTool(buttons, ButtonTool, other)
  {
    var added := MakeButtons(id, ps, firstId);
    WithToolConcat(WithoutTool(buttons, ButtonTool, id), added, ButtonTool, other);
    WithToolOfWithout(buttons, ButtonTool, id, other);
    if other == id {
      WithToolAll(added, ButtonTool, id);
    } else {
      WithToolNone(added, ButtonTool, other);
    }
  }

  // --------------------------------------------------------------- store

  class Store {
    var users: seq<User>
    var tools: seq<Tool>
    var buttons: seq<DownloadButton>
    var downloads: seq<Download>
    var reviews: seq<Review>
    /** The next fresh identifier (`gen_random_uuid()`). */
    var nextId: nat

    ghost predicate Valid()
      reads this
    {
      Consistent(users, tools, buttons, downloads, reviews, nextId)
    }

    /** An empty catalogue over the users the identity provider has synced. */
    constructor (initialUsers: seq<User>)
      requires DistinctBy(initialUsers, UserId) && DistinctBy(initialUsers, UserName)
               && DistinctBy(initialUsers, UserEmail)
      ensures Valid()
      ensures users == initialUsers && tools == [] && buttons == [] && downloads == [] && reviews == []
    {
      users := initialUsers;
      tools, buttons, downloads, reviews := [], [], [], [];
      nextId := 0;
    }

    /** One tool with its buttons and stats, from the current tables. */
    function ToolStats(t: Tool): (r: ToolWithButtons)
      reads this
      ensures r.tool == t && r.download_buttons == WithTool(buttons, ButtonTool, t.id)
      ensures r.download_count == Some(|WithTool(downloads, DownloadTool, t.id)|)
      ensures r.review_count == Some(|WithTool(reviews, ReviewTool, t.id)|)
      ensures r.average_rating == Some(Average(Ratings(WithTool(reviews, ReviewTool, t.id))))
      ensures Valid() && r.review_count.value > 0 ==> 1.0 <= r.average_rating.value <= 5.0
    {
      ConsistentRatingsIfValid(t.id);
      AssembleStats(t, WithTool(buttons, ButtonTool, t.id),
                    Some(|WithTool(downloads, DownloadTool, t.id)|),
                    Some(Ratings(WithTool(reviews, ReviewTool, t.id))))
    }

    lemma ConsistentRatingsIfValid(id: Id)
      ensures Valid() ==> AllRatingsValid(Ratings(WithTool(reviews, ReviewTool, id)))
    {
      if Valid() { ConsistentRatings(users, tools, buttons, downloads, reviews, nextId, id); }
    }


    /** The per-tool map of the list handlers (`Promise.all` over the rows,
        taken one tool after another). */
    method WithStatsAll(ts: seq<Tool>) returns (body: seq<ToolWithButtons>)
      ensures |body| == |ts|
      ensures forall k :: 0 <= k < |ts| ==> body[k] == ToolStats(ts[k])
    {
      body := [];
      var i := 0;
      while i < |ts|
        invariant 0 <= i <= |ts|
        invariant |body| == i
        invariant forall k :: 0 <= k < i ==> body[k] == ToolStats(ts[k])
      {
        body := body + [ToolStats(ts[i])];
        i := i + 1;
      }
    }

    /** GET /api/tools: every tool, newest first, each with its stats. */
    method ListTools() returns (status: int, body: seq<ToolWithButtons>)
      ensures status == 200
      ensures |body| == |tools| && multiset(ToolsIn(body)) == multiset(tools)
      ensures forall i, j :: 0 <= i < j < |body| ==> body[i].tool.created_at >= body[j].tool.created_at
      ensures forall k :: 0 <= k < |body| ==> body[k] == ToolStats(body[k].tool)
    {
      var sorted := SortDesc(tools, ToolCreated);
      body := WithStatsAll(sorted);
      assert ToolsIn(body) == sorted;
      status := 200;
    }

    /** GET /api/tools/featured: the 6 newest tools, each with its stats. */
    method FeaturedTools() returns (status: int, body: seq<ToolWithButtons>)
      ensures status == 200
      ensures |body| == if |tools| < 6 then |tools| else 6
      ensures ToolsIn(body) == Take(SortDesc(tools, ToolCreated), 6)
      ensures forall k :: 0 <= k < |body| ==> body[k] == ToolStats(body[k].tool)
      ensures forall i, j :: 0 <= i < j < |body| ==> body[i].tool.created_at >= body[j].tool.created_at
      ensures forall t, k :: t in tools && t !in ToolsIn(body) && 0 <= k < |body|
                             ==> t.created_at <= body[k].tool.created_at
    {
      var top := Take(SortDesc(tools, ToolCreated), 6);
      body := WithStatsAll(top);
      assert ToolsIn(body) == top;
      forall t, k | t in tools && t !in ToolsIn(body) && 0 <= k < |body|
        ensures t.created_at <= body[k].tool.created_at
      {
        TakeNewest(tools, 6, t, k);
      }
      status := 200;
    }

    /** The index of the first tool whose slug is `slug`, or `|tools|` when there is none. */
    method FindSlug(slug: string) returns (i: nat)
      ensures i <= |tools|
      ensures i < |tools| <==> HasKey(tools, ToolSlug, slug)
      ensures i < |tools| ==> tools[i].slug == slug
    {
      i := 0;
      while i < |tools| && tools[i].slug != slug
        invariant 0 <= i <= |tools|
        invariant forall k :: 0 <= k < i ==> tools[k].slug != slug
      {
        i := i + 1;
      }
    }

    /**
     * `GET /api/tools/:slug` as written: `.single()` reports a missing row as
     * an error, which the handler throws into its 500 catch, so its own
     * "Tool not found" 404 is never reached.
     */
    method ToolBySlug(slug: string, queryFails: bool) returns (status: int, body: Option<ToolWithButtons>, error: Option<ApiError>)
      requires Valid()
      ensures queryFails ==> status == 500 && body == None && error == Some(QueryFailed)
      ensures !queryFails && !HasKey(tools, ToolSlug, slug)
              ==> status == 500 && body == None && error == Some(NoSingleRow)
      ensures !queryFails && HasKey(tools, ToolSlug, slug)
              ==> status == 200 && error == None && body.Some? && body.value.tool in tools
                  && body.value.tool.slug == slug && body.value == ToolStats(body.value.tool)
      ensures status != 404
    {
      if queryFails {
        return 500, None, Some(QueryFailed);
      }
      var i := FindSlug(slug);
      if i == |tools| {
        return 500, None, Some(NoSingleRow);
      }
      status, body, error := 200, Some(ToolStats(tools[i])), None;
    }

    /**
     * The slug route as evidently intended: with `.maybeSingle()` a missing
     * row is no error, and the handler answers 404 "Tool not found".
     */
    method ToolBySlugMaybeSingle(slug: string, queryFails: bool) returns (status: int, body: Option<ToolWithButtons>, error: Option<ApiError>)
      requires Valid()
      ensures queryFails ==> status == 500 && body == None && error == Some(QueryFailed)
      ensures !queryFails && !HasKey(tools, ToolSlug, slug)
              ==> status == 404 && body == None && error == Some(Message("Tool not found"))
      ensures !queryFails && HasKey(tools, ToolSlug, slug)
              ==> status == 200 && error == None && body.Some? && body.value.tool in tools
                  && body.value.tool.slug == slug && body.value == ToolStats(body.value.tool)
      ensures status == 404 <==> !queryFails && !HasKey(tools, ToolSlug, slug)
    {
      if queryFails {
        return 500, None, Some(QueryFailed);
      }
      var i := FindSlug(slug);
      if i == |tools| {
        return 404, None, Some(Message("Tool not found"));
      }
      status, body, error := 200, Some(ToolStats(tools[i])), None;
    }

    /** GET /api/reviews/:toolId: the tool's reviews, newest first, each with
        its author's username. */
    method ReviewsForTool(toolId: Id) returns (status: int, body: seq<ReviewWithUser>)
      ensures status == 200
      ensures multiset(ReviewsIn(body)) == multiset(WithTool(reviews, ReviewTool, toolId))
      ensures forall k :: 0 <= k < |body| ==> body[k].review.tool_id == toolId
      ensures forall i, j :: 0 <= i < j < |body| ==> body[i].review.created_at >= body[j].review.created_at
      ensures forall k :: 0 <= k < |body| ==> body[k].username == UsernameOf(users, body[k].review.user_id)
    {
      var sorted := SortDesc(WithTool(reviews, ReviewTool, toolId), ReviewCreated);
      body := JoinUsernames(sorted);
      forall k | 0 <= k < |body| ensures body[k].review.tool_id == toolId {
        assert sorted[k] in multiset(sorted);
        WithToolMembers(reviews, ReviewTool, toolId, sorted[k]);
      }
      status := 200;
    }

    /** Pairs each review with its author's username, in order. */
    method JoinUsernames(rs: seq<Review>) returns (body: seq<ReviewWithUser>)
      ensures ReviewsIn(body) == rs
      ensures forall k :: 0 <= k < |body| ==> body[k] == ReviewWithUser(rs[k], UsernameOf(users, rs[k].user_id))
    {
      body := [];
      var i := 0;
      while i < |rs|
        invariant 0 <= i <= |rs|
        invariant |body| == i
        invariant forall k :: 0 <= k < i ==> body[k] == ReviewWithUser(rs[k], UsernameOf(users, rs[k].user_id))
      {
        body := body + [ReviewWithUser(rs[i], UsernameOf(users, rs[i].user_id))];
        i := i + 1;
      }
      assert ReviewsIn(body) == rs;
    }

    /** POST /api/downloads: records who downloaded which tool through which
        button. */
    method TrackDownload(header: Option<string>, provider: string -> Option<AuthUser>,
                         toolId: Id, buttonLabel: string, now: int) returns (status: int, error: Option<ApiError>)
      requires Valid()
      modifies this
      ensures Valid()
      ensures AuthDecision(header, provider).Reject?
              ==> status == 401 && error == Some(Message(AuthDecision(header, provider).message)) && unchanged(this)
      ensures AuthDecision(header, provider).Continue? && !HasKey(old(tools), ToolId, toolId)
              ==> status == 500 && error == Some(ForeignKeyViolation("tool_id")) && unchanged(this)
      ensures AuthDecision(header, provider).Continue? && HasKey(old(tools), ToolId, toolId)
              && !HasKey(old(users), UserId, AuthDecision(header, provider).user.id)
              ==> status == 500 && error == Some(ForeignKeyViolation("user_id")) && unchanged(this)
      ensures status == 201 <==> AuthDecision(header, provider).Continue? && HasKey(old(tools), ToolId, toolId)
                                 && HasKey(old(users), UserId, AuthDecision(header, provider).user.id)
      ensures status == 201 ==>
                && error == None
                && downloads == old(downloads) + [Download(old(nextId), AuthDecision(header, provider).user.id,
                                                           toolId, buttonLabel, now)]
                && users == old(users) && tools == old(tools) && buttons == old(buttons)
                && reviews == old(reviews) && nextId == old(nextId) + 1
    {
      var guard := AuthDecision(header, provider);
      if guard.Reject? {
        return 401, Some(Message(guard.message));
      }
      var user := guard.user;
      if !HasKey(tools, ToolId, toolId) {
        return 500, Some(ForeignKeyViolation("tool_id"));
      }
      if !HasKey(users, UserId, user.id) {
        return 500, Some(ForeignKeyViolation("user_id"));
      }
      downloads := downloads + [Download(nextId, user.id, toolId, buttonLabel, now)];
      nextId := nextId + 1;
      status, error := 201, None;
    }

    /** POST /api/reviews: validates the review under the caller's own user
        id and stores it, unless that user already reviewed the tool. */
    method SubmitReview(header: Option<string>, provider: string -> Option<AuthUser>,
                        body: ReviewPayload, now: int) returns (status: int, error: Option<ApiError>)
      requires Valid()
      modifies this
      ensures Valid()
      ensures AuthDecision(header, provider).Reject?
              ==> status == 401 && error == Some(Message(AuthDecision(header, provider).message)) && unchanged(this)
      ensures status != 201 ==> unchanged(this)
      ensures AuthDecision(header, provider).Continue?
              && ParseReview(ReviewInput(AuthDecision(header, provider).user.id, body.tool_id, body.rating, body.review_text)).Err?
              ==> status == 400
                  && error == Some(Invalid(ParseReview(ReviewInput(AuthDecision(header, provider).user.id, body.tool_id,
                                                                   body.rating, body.review_text)).error))
      ensures AuthDecision(header, provider).Continue?
              && ParseReview(ReviewInput(AuthDecision(header, provider).user.id, body.tool_id, body.rating, body.review_text)).Ok?
              && HasKey(old(reviews), ReviewPair, (AuthDecision(header, provider).user.id, body.tool_id))
              ==> status == 400 && error == Some(Message("You have already reviewed this tool"))
      ensures status == 201 ==>
                && error == None
                && AuthDecision(header, provider).Continue?
                && !HasKey(old(reviews), ReviewPair, (AuthDecision(header, provider).user.id, body.tool_id))
                && reviews == old(reviews) + [Review(old(nextId), AuthDecision(header, provider).user.id, body.tool_id,
                                                     body.rating.Floor, body.review_text, now)]
                && body.rating == body.rating.Floor as real && 1 <= body.rating.Floor <= 5
                && users == old(users) && tools == old(tools) && buttons == old(buttons)
                && downloads == old(downloads) && nextId == old(nextId) + 1
      ensures status == 201 <==>
                && AuthDecision(header, provider).Continue?
                && ParseReview(ReviewInput(AuthDecision(header, provider).user.id, body.tool_id, body.rating, body.review_text)).Ok?
                && !HasKey(old(reviews), ReviewPair, (AuthDecision(header, provider).user.id, body.tool_id))
                && HasKey(old(tools), ToolId, body.tool_id)
                && HasKey(old(users), UserId, AuthDecision(header, provider).user.id)
      ensures status in {201, 400, 401}
    {
      var guard := AuthDecision(header, provider);
      if guard.Reject? {
        return 401, Some(Message(guard.message));
      }
      var user := guard.user;
      var parsed := ParseReview(ReviewInput(user.id, body.tool_id, body.rating, body.review_text));
      if parsed.Err? {
        return 400, Some(Invalid(parsed.error));
      }
      var v := parsed.value;
      if HasKey(reviews, ReviewPair, (user.id, v.tool_id)) {
        return 400, Some(Message("You have already reviewed this tool"));
      }
      if !HasKey(tools, ToolId, v.tool_id) {
        return 400, Some(ForeignKeyViolation("tool_id"));
      }
      if !HasKey(users, UserId, user.id) {
        return 400, Some(ForeignKeyViolation("user_id"));
      }
      var r := Review(nextId, user.id, v.tool_id, v.rating, v.review_text, now);
      AppendDistinct(reviews, r, ReviewPair);
      reviews := reviews + [r];
      nextId := nextId + 1;
      status, error := 201, None;
    }

    /** GET /api/admin/test-login: echoes the admin's e-mail. */
    method AdminTestLogin(header: Option<string>, provider: string -> Option<AuthUser>)
      returns (status: int, email: Option<string>, error: Option<ApiError>)
      ensures AdminDecision(header, provider, AdminTable(users)).Reject?
              ==> status == AdminDecision(header, provider, AdminTable(users)).status && email == None
                  && error == Some(Message(AdminDecision(header, provider, AdminTable(users)).message))
      ensures AdminDecision(header, provider, AdminTable(users)).Continue?
              ==> status == 200 && error == None
                  && email == Some(AdminDecision(header, provider, AdminTable(users)).user.email)
    {
      var guard := AdminDecision(header, provider, AdminTable(users));
      if guard.Reject? {
        return guard.status, None, Some(Message(guard.message));
      }
      status, email, error := 200, Some(guard.user.email), None;
    }

    /** GET /api/admin/tools: the public list, behind the admin guard. */
    method AdminListTools(header: Option<string>, provider: string -> Option<AuthUser>)
      returns (status: int, body: seq<ToolWithButtons>, error: Option<ApiError>)
      ensures AdminDecision(header, provider, AdminTable(users)).Reject?
              ==> status == AdminDecision(header, provider, AdminTable(users)).status && body == []
                  && error == Some(Message(AdminDecision(header, provider, AdminTable(users)).message))
      ensures AdminDecision(header, provider, AdminTable(users)).Continue?
              ==> status == 200 && error == None
                  && |body| == |tools| && multiset(ToolsIn(body)) == multiset(tools)
                  && (forall i, j :: 0 <= i < j < |body| ==> body[i].tool.created_at >= body[j].tool.created_at)
                  && (forall k :: 0 <= k < |body| ==> body[k] == ToolStats(body[k].tool))
    {
      var guard := AdminDecision(header, provider, AdminTable(users));
      if guard.Reject? {
        return guard.status, [], Some(Message(guard.message));
      }
      status, body := ListTools();
      error := None;
    }

    /** GET /api/admin/stats: row counts of three tables and the mean of all
        ratings (0 with none). */
    method AdminStatistics(header: Option<string>, provider: string -> Option<AuthUser>)
      returns (status: int, stats: Option<AdminStats>, error: Option<ApiError>)
      requires Valid()
      ensures AdminDecision(header, provider, AdminTable(users)).Reject?
              ==> status == AdminDecision(header, provider, AdminTable(users)).status && stats == None
                  && error == Some(Message(AdminDecision(header, provider, AdminTable(users)).message))
      ensures AdminDecision(header, provider, AdminTable(users)).Continue?
              ==> status == 200 && error == None && stats.Some?
                  && stats.value.totalTools == |tools| && stats.value.totalDownloads == |downloads|
                  && stats.value.totalReviews == |reviews|
                  && stats.value.averageRating == Average(Ratings(reviews))
                  && (|reviews| == 0 ==> stats.value.averageRating == 0.0)
                  && (|reviews| > 0 ==> 1.0 <= stats.value.averageRating <= 5.0)
    {
      var guard := AdminDecision(header, provider, AdminTable(users));
      if guard.Reject? {
        return guard.status, None, Some(Message(guard.message));
      }
      ConsistentRatings(users, tools, buttons, downloads, reviews, nextId, 0);
      if |reviews| > 0 { AverageInRange(Ratings(reviews)); }
      status := 200;
      stats := Some(AdminStats(|tools|, |downloads|, |reviews|, Average(Ratings(reviews))));
      error := None;
    }

    // --------------------------------------------------- datastore writes
    // One method per datastore call the admin handlers make; each keeps the
    // datastore's constraints.

    /** `insert(...).select().single()` on `tools`: the new row gets a fresh
        id and both timestamps `now`. The slug must be new (the unique
        constraint); the handler checks it first. */
    method InsertTool(f: ToolFields, now: int) returns (t: Tool)
      requires Valid() && !HasKey(tools, ToolSlug, f.slug)
      modifies this
      ensures Valid()
      ensures t == NewTool(old(nextId), f, now)
      ensures tools == old(tools) + [t] && nextId == old(nextId) + 1
      ensures users == old(users) && buttons == old(buttons)
              && downloads == old(downloads) && reviews == old(reviews)
    {
      t := NewTool(nextId, f, now);
      AppendDistinct(tools, t, ToolId);
      AppendDistinct(tools, t, ToolSlug);
      HasKeysAfterAppend(tools, t);
      tools := tools + [t];
      nextId := nextId + 1;
    }

    /** `insert(buttons)` on `download_buttons` for an existing tool. */
    method InsertButtons(toolId: Id, ps: seq<ButtonPayload>)
      requires Valid() && HasKey(tools, ToolId, toolId)
      modifies this
      ensures Valid()
      ensures buttons == old(buttons) + MakeButtons(toolId, ps, old(nextId))
      ensures nextId == old(nextId) + |ps|
      ensures users == old(users) && tools == old(tools)
              && downloads == old(downloads) && reviews == old(reviews)
    {
      var added := MakeButtons(toolId, ps, nextId);
      var bs := buttons + added;
      forall k | 0 <= k < |bs| ensures bs[k].id < nextId + |ps| && HasKey(tools, ToolId, bs[k].tool_id) {
        if k >= |buttons| { assert bs[k] == added[k - |buttons|]; }
      }
      buttons := bs;
      nextId := nextId + |ps|;
    }

    /** `delete().eq('tool_id', id)` on `download_buttons`. */
    method DeleteButtonsOf(toolId: Id)
      requires Valid()
      modifies this
      ensures Valid()
      ensures buttons == WithoutTool(old(buttons), ButtonTool, toolId)
      ensures users == old(users) && tools == old(tools) && downloads == old(downloads)
              && reviews == old(reviews) && nextId == old(nextId)
    {
      var bs := WithoutTool(buttons, ButtonTool, toolId);
      forall k | 0 <= k < |bs| ensures bs[k].id < nextId && HasKey(tools, ToolId, bs[k].tool_id) {
        assert bs[k] in bs;
        WithoutToolMembers(buttons, ButtonTool, toolId, bs[k]);
      }
      buttons := bs;
    }

    /** `update(...).eq('id', id)` on `tools`, for the row at position `k`:
        the fields are replaced and `updated_at` becomes `now`. The new slug
        must not be another tool's; the handler checks it first. */
    method UpdateToolRow(k: nat, f: ToolFields, now: int) returns (t: Tool)
      requires Valid() && k < |tools|
      requires forall i :: 0 <= i < |tools| && i != k ==> tools[i].slug != f.slug
      modifies this
      ensures Valid()
      ensures t == UpdatedTool(old(tools)[k], f, now) && tools == old(tools)[k := t]
      ensures users == old(users) && buttons == old(buttons) && downloads == old(downloads)
              && reviews == old(reviews) && nextId == old(nextId)
    {
      t := UpdatedTool(tools[k], f, now);
      UpdateRowKeepsConsistent(users, tools, buttons, downloads, reviews, nextId, k, t);
      tools := tools[k := t];
    }

    /** `delete().eq('id', id)` on `tools`; the foreign keys cascade the
        delete to the tool's buttons, downloads and reviews. An unknown id
        deletes nothing. */
    method DeleteToolCascade(id: Id)
      requires Valid()
      modifies this
      ensures Valid()
      ensures tools == WithoutTool(old(tools), ToolId, id)
      ensures buttons == WithoutTool(old(buttons), ButtonTool, id)
      ensures downloads == WithoutTool(old(downloads), DownloadTool, id)
      ensures reviews == WithoutTool(old(reviews), ReviewTool, id)
      ensures users == old(users) && nextId == old(nextId)
    {
      var ts, bs, ds, rs :=
        WithoutTool(tools, ToolId, id), WithoutTool(buttons, ButtonTool, id),
        WithoutTool(downloads, DownloadTool, id), WithoutTool(reviews, ReviewTool, id);
      DeleteKeepsConsistent(users, tools, buttons, downloads, reviews, nextId, id);
      tools, buttons, downloads, reviews := ts, bs, ds, rs;
    }

    /** Rows that had a tool keep it when a tool is appended, and the new
        tool is there. */
    static lemma HasKeysAfterAppend(ts: seq<Tool>, t: Tool)
      ensures forall id :: HasKey(ts, ToolId, id) ==> HasKey(ts + [t], ToolId, id)
      ensures HasKey(ts + [t], ToolId, t.id)
    {
      forall id | HasKey(ts, ToolId, id) ensures HasKey(ts + [t], ToolId, id) {
        HasKeyAppend(ts, [t], ToolId, id);
      }
      assert (ts + [t])[|ts|] == t;
    }

    // ------------------------------------------------------ admin writes

    /** POST /api/admin/tools: validates and inserts the tool, then its
        buttons as given, with `order || 0`. */
    method CreateTool(header: Option<string>, provider: string -> Option<AuthUser>, isUrl: string -> bool,
                      body: ToolPayload, now: int) returns (status: int, created: Option<Tool>, error: Option<ApiError>)
      requires Valid()
      modifies this
      ensures Valid()
      ensures AdminDecision(header, provider, AdminTable(old(users))).Reject?
              ==> status == AdminDecision(header, provider, AdminTable(old(users))).status
                  && error == Some(Message(AdminDecision(header, provider, AdminTable(old(users))).message))
                  && unchanged(this)
      ensures status != 201 ==> created == None && unchanged(this)
      ensures AdminDecision(header, provider, AdminTable(old(users))).Continue? && ParseTool(body.fields, isUrl).Err?
              ==> status == 400 && error == Some(Invalid(ParseTool(body.fields, isUrl).error))
      ensures AdminDecision(header, provider, AdminTable(old(users))).Continue? && ParseTool(body.fields, isUrl).Ok?
              && HasKey(old(tools), ToolSlug, ParseTool(body.fields, isUrl).value.slug)
              ==> status == 400 && error == Some(UniqueViolation("slug"))
      ensures status == 201 <==>
                AdminDecision(header, provider, AdminTable(old(users))).Continue? && ParseTool(body.fields, isUrl).Ok?
                && !HasKey(old(tools), ToolSlug, ParseTool(body.fields, isUrl).value.slug)
      ensures status == 201 ==>
                && error == None
                && created == Some(NewTool(old(nextId), ParseTool(body.fields, isUrl).value, now))
                && tools == old(tools) + [created.value]
                && buttons == old(buttons) + MakeButtons(old(nextId), body.downloadButtons.GetOr([]), old(nextId) + 1)
                && users == old(users) && downloads == old(downloads) && reviews == old(reviews)
    {
      var guard := AdminDecision(header, provider, AdminTable(users));
      if guard.Reject? {
        return guard.status, None, Some(Message(guard.message));
      }
      var parsed := ParseTool(body.fields, isUrl);
      if parsed.Err? {
        return 400, None, Some(Invalid(parsed.error));
      }
      if HasKey(tools, ToolSlug, parsed.value.slug) {
        return 400, None, Some(UniqueViolation("slug"));
      }
      var t := InsertTool(parsed.value, now);
      assert HasKey(tools, ToolId, t.id) by { assert tools[|tools| - 1] == t; }
      InsertButtons(t.id, body.downloadButtons.GetOr([]));
      status, created, error := 201, Some(t), None;
    }

    /** PUT /api/admin/tools/:id: validates before any write, updates the
        tool, then deletes all its buttons and inserts the given ones with
        `order || 0`. An unknown id fails at `.single()`. */
    method UpdateTool(header: Option<string>, provider: string -> Option<AuthUser>, isUrl: string -> bool,
                      id: Id, body: ToolPayload, now: int) returns (status: int, updated: Option<Tool>, error: Option<ApiError>)
      requires Valid()
      modifies this
      ensures Valid()
      ensures AdminDecision(header, provider, AdminTable(old(users))).Reject?
              ==> status == AdminDecision(header, provider, AdminTable(old(users))).status
                  && error == Some(Message(AdminDecision(header, provider, AdminTable(old(users))).message))
                  && unchanged(this)
      ensures status != 200 ==> updated == None && unchanged(this)
      ensures AdminDecision(header, provider, AdminTable(old(users))).Continue? && ParseTool(body.fields, isUrl).Err?
              ==> status == 400 && error == Some(Invalid(ParseTool(body.fields, isUrl).error))
      ensures AdminDecision(header, provider, AdminTable(old(users))).Continue? && ParseTool(body.fields, isUrl).Ok?
              && !HasKey(old(tools), ToolId, id)
              ==> status == 400 && error == Some(NoSingleRow)
      ensures AdminDecision(header, provider, AdminTable(old(users))).Continue? && ParseTool(body.fields, isUrl).Ok?
              && HasKey(old(tools), ToolId, id)
              && (exists i :: 0 <= i < |old(tools)| && old(tools)[i].id != id
                             && old(tools)[i].slug == ParseTool(body.fields, isUrl).value.slug)
              ==> status == 400 && error == Some(UniqueViolation("slug"))
      ensures status == 200 <==>
                && AdminDecision(header, provider, AdminTable(old(users))).Continue?
                && ParseTool(body.fields, isUrl).Ok?
                && HasKey(old(tools), ToolId, id)
                && !(exists i :: 0 <= i < |old(tools)| && old(tools)[i].id != id
                                && old(tools)[i].slug == ParseTool(body.fields, isUrl).value.slug)
      ensures status == 200 ==>
                && error == None && updated.Some?
                && AdminDecision(header, provider, AdminTable(old(users))).Continue?
                && ParseTool(body.fields, isUrl).Ok?
                && (exists k :: 0 <= k < |old(tools)| && old(tools)[k].id == id
                      && updated.value == UpdatedTool(old(tools)[k], ParseTool(body.fields, isUrl).value, now)
                      && tools == old(tools)[k := updated.value])
                && buttons == WithoutTool(old(buttons), ButtonTool, id)
                              + MakeButtons(id, body.downloadButtons.GetOr([]), old(nextId))
                && users == old(users) && downloads == old(downloads) && reviews == old(reviews)
    {
      var guard := AdminDecision(header, provider, AdminTable(users));
      if guard.Reject? {
        return guard.status, None, Some(Message(guard.message));
      }
      var parsed := ParseTool(body.fields, isUrl);
      if parsed.Err? {
        return 400, None, Some(Invalid(parsed.error));
      }
      var f := parsed.value;
      var k := FindTool(id);
      if k == |tools| {
        return 400, None, Some(NoSingleRow);
      }
      var taken := SlugTakenByOther(f.slug, k);
      if taken {
        return 400, None, Some(UniqueViolation("slug"));
      }
      var t := UpdateToolRow(k, f, now);
      DeleteButtonsOf(id);
      assert HasKey(tools, ToolId, id) by { assert ToolId(tools[k]) == id; }
      InsertButtons(id, body.downloadButtons.GetOr([]));
      status, updated, error := 200, Some(t), None;
    }

    /** The position of the tool with id `id`, or the table's length when
        there is none. */
    method FindTool(id: Id) returns (k: nat)
      ensures k <= |tools|
      ensures k < |tools| ==> tools[k].id == id
      ensures k == |tools| <==> !HasKey(tools, ToolId, id)
    {
      k := 0;
      while k < |tools| && tools[k].id != id
        invariant 0 <= k <= |tools|
        invariant forall j :: 0 <= j < k ==> tools[j].id != id
      {
        k := k + 1;
      }
    }

    /** Whether a tool other than the one at position `k` has slug `slug`. */
    method SlugTakenByOther(slug: string, k: nat) returns (taken: bool)
      ensures taken <==> exists i :: 0 <= i < |tools| && i != k && tools[i].slug == slug
    {
      var j := 0;
      while j < |tools| && (j == k || tools[j].slug != slug)
        invariant 0 <= j <= |tools|
        invariant forall i :: 0 <= i < j && i != k ==> tools[i].slug != slug
      {
        j := j + 1;
      }
      taken := j < |tools|;
    }

    /** DELETE /api/admin/tools/:id: removes the tool with its buttons,
        downloads and reviews. Deleting an unknown id succeeds and changes
        nothing. */
    method DeleteTool(header: Option<string>, provider: string -> Option<AuthUser>, id: Id)
      returns (status: int, error: Option<ApiError>)
      requires Valid()
      modifies this
      ensures Valid()
      ensures AdminDecision(header, provider, AdminTable(old(users))).Reject?
              ==> status == AdminDecision(header, provider, AdminTable(old(users))).status
                  && error == Some(Message(AdminDecision(header, provider, AdminTable(old(users))).message))
                  && unchanged(this)
      ensures AdminDecision(header, provider, AdminTable(old(users))).Continue?
              ==> status == 200 && error == None
                  && tools == WithoutTool(old(tools), ToolId, id)
                  && buttons == WithoutTool(old(buttons), ButtonTool, id)
                  && downloads == WithoutTool(old(downloads), DownloadTool, id)
                  && reviews == WithoutTool(old(reviews), ReviewTool, id)
                  && users == old(users) && nextId == old(nextId)
    {
      var guard := AdminDecision(header, provider, AdminTable(users));
      if guard.Reject? {
        return guard.status, Some(Message(guard.message));
      }
      DeleteToolCascade(id);
      status, error := 200, None;
    }
  }

  /** After the cascading delete of tool `id`, no row refers to it. */
  lemma DeleteLeavesNoRows(tools: seq<Tool>, buttons: seq<DownloadButton>, downloads: seq<Download>,
                           reviews: seq<Review>, id: Id)
    ensures !HasKey(WithoutTool(tools, ToolId, id), ToolId, id)
    ensures WithTool(WithoutTool(buttons, ButtonTool, id), ButtonTool, id) == []
    ensures WithTool(WithoutTool(downloads, DownloadTool, id), DownloadTool, id) == []
    ensures WithTool(WithoutTool(reviews, ReviewTool, id), ReviewTool, id) == []
  {
    WithToolOfWithout(buttons, ButtonTool, id, id);
    WithToolOfWithout(downloads, DownloadTool, id, id);
    WithToolOfWithout(reviews, ReviewTool, id, id);
  }

  /** Updating tool `k` in place (same id, a slug no other tool has) keeps
      the datastore consistent. */
  lemma UpdateRowKeepsConsistent(users: seq<User>, tools: seq<Tool>, buttons: seq<DownloadButton>,
                                 downloads: seq<Download>, reviews: seq<Review>, nextId: nat, k: nat, t: Tool)
    requires Consistent(users, tools, buttons, downloads, reviews, nextId)
    requires k < |tools| && t.id == tools[k].id
    requires forall i :: 0 <= i < |tools| && i != k ==> tools[i].slug != t.slug
    ensures Consistent(users, tools[k := t], buttons, downloads, reviews, nextId)
  {
    var ts := tools[k := t];
    forall id | HasKey(tools, ToolId, id) ensures HasKey(ts, ToolId, id) {
      var i :| 0 <= i < |tools| && ToolId(tools[i]) == id;
      assert ToolId(ts[i]) == id;
    }
  }

  /**
   * On an empty catalogue the slug route as written answers 500 where the
   * corrected route answers 404.
   */
  method SlugRouteDeadBranch(slug: string) returns (asWritten: int, corrected: int)
    ensures asWritten == 500 && corrected == 404
  {
    var store := new Store([]);
    var body, error;
    asWritten, body, error := store.ToolBySlug(slug, false);
    corrected, body, error := store.ToolBySlugMaybeSingle(slug, false);
  }
}
