/** What a catalogue card (src/components/ToolCard.tsx) derives from one
    tool: its picture, its stats with missing values as zero, the first
    three tags and a "+n" badge for the rest, and its link. */
module ToolCard {
  import opened Wrappers
  import opened Text
  import opened Schema
  import Routes

  const CardPlaceholder: string := "https://placehold.co/800x450/1a1a1a/ef4444?text=No+Image"

  /** `tool.images[0] || placeholder`: a missing or empty first image falls
      back to the placeholder, so the card always has a picture. */
  function PrimaryImage(t: Tool): (r: string)
    ensures |t.images| > 0 && t.images[0] != "" ==> r == t.images[0]
    ensures |t.images| == 0 || t.images[0] == "" ==> r == CardPlaceholder
    ensures r != ""
  {
    if |t.images| > 0 && t.images[0] != "" then t.images[0] else CardPlaceholder
  }

  /** The figures the card shows; a stat the tool came without reads 0. */
  datatype CardStats = CardStats(downloads: int, rating: real, reviews: int)

  function Stats(tw: ToolWithButtons): (r: CardStats)
    ensures r.downloads == (if tw.download_count.Some? then tw.download_count.value else 0)
    ensures r.rating == (if tw.average_rating.Some? then tw.average_rating.value else 0.0)
    ensures r.reviews == (if tw.review_count.Some? then tw.review_count.value else 0)
  {
    CardStats(tw.download_count.GetOr(0), tw.average_rating.GetOr(0.0), tw.review_count.GetOr(0))
  }

  /** The rating overlay is drawn only when the tool has reviews. */
  predicate ShowRating(tw: ToolWithButtons) {
    Stats(tw).reviews > 0
  }

  /** On a tool as the server assembles it, a drawn rating lies between 1
      and 5 whenever the stored ratings do, and no rating is drawn without
      reviews. */
  lemma ServedRatingInRange(tool: Tool, buttons: seq<DownloadButton>, downloadCount: Option<nat>,
                            ratings: Option<seq<int>>)
    requires ratings.Some? ==> Routes.AllRatingsValid(ratings.value)
    ensures ratings.None? || ratings.value == [] ==> !ShowRating(Routes.AssembleStats(tool, buttons, downloadCount, ratings))
    ensures ShowRating(Routes.AssembleStats(tool, buttons, downloadCount, ratings))
            ==> 1.0 <= Stats(Routes.AssembleStats(tool, buttons, downloadCount, ratings)).rating <= 5.0
  {
  }

  /** At most three tags are drawn, the first ones in order. */
  function ShownTags(tags: seq<string>): (r: seq<string>)
    ensures |r| == if |tags| < 3 then |tags| else 3
    ensures r == tags[..|r|]
  {
    if |tags| <= 3 then tags else tags[..3]
  }

  /** How many tags the card leaves out. */
  function HiddenTagCount(tags: seq<string>): (r: nat)
    ensures r == |tags| - |ShownTags(tags)|
  {
    if |tags| > 3 then |tags| - 3 else 0
  }

  /** The `+n` badge, present exactly when more than three tags exist. */
  function OverflowBadge(tags: seq<string>): (r: Option<string>)
    ensures r.Some? <==> |tags| > 3
    ensures r.Some? ==> r.value == "+" + NatToString(|tags| - 3)
  {
    if |tags| > 3 then Some("+" + NatToString(HiddenTagCount(tags))) else None
  }

  /** The drawn tags and the badge's count account for every tag. */
  lemma TagsAccounted(tags: seq<string>)
    ensures ShownTags(tags) + tags[|ShownTags(tags)|..] == tags
    ensures |ShownTags(tags)| + HiddenTagCount(tags) == |tags|
    ensures OverflowBadge(tags).Some? <==> HiddenTagCount(tags) > 0
  {
  }

  /** The tag row is drawn only when the tool has tags. */
  predicate ShowTagRow(t: Tool) {
    |t.tags| > 0
  }

  /** The card links to `/tool/` and the slug. */
  function Href(t: Tool): (r: string)
    ensures StartsWith(r, "/tool/") && r[|"/tool/"|..] == t.slug
  {
    "/tool/" + t.slug
  }

  /** Different slugs give different links, so (slugs being unique) each
      card leads to its own tool. */
  lemma HrefInjective(a: Tool, b: Tool)
    requires Href(a) == Href(b)
    ensures a.slug == b.slug
  {
    assert a.slug == Href(a)[|"/tool/"|..];
  }
}
