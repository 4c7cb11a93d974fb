/** Per-item classification: identity, relevance and category. */
module Classify {
  import opened WeiboTypes

  /** `get_id`: synthetic items have no identity; a card is identified by
      its status id. */
  function Id(p: RawPost): (r: Option<string>)
    ensures r.None? <==> p.Synthetic?
    ensures p.Ordinary? ==> r == Some(p.card.mblog.id)
  {
    match p
    case Synthetic(_, _) => None
    case Ordinary(c) => Some(c.mblog.id)
  }

  /** `filter_platform_custom`: only cards of type 9 carry a post; the
      others (card groups, adverts) are dropped. */
  function IsWeiboPost(c: Card): (keep: bool)
    ensures keep <==> c.cardType == 9
  {
    c.cardType == WeiboCardType
  }

  predicate IsVideo(m: Mblog) {
    m.pageType == Some("video")
  }

  /** The `categories` table of the adapter. */
  const Categories: map<int, string> :=
    map[1 := "转发", 2 := "视频", 3 := "图文", 50 := "撤置顶"]

  /** `get_category`: a priority cascade.  The synthetic marker wins, then
      a repost, then a video; everything else is text-and-image. */
  function Category(p: RawPost): (c: int)
    ensures p.Synthetic? ==> c == p.kind
    ensures p.Ordinary? ==> (c == 1 <==> p.card.mblog.hasRetweet)
    ensures p.Ordinary? ==> (c == 2 <==> !p.card.mblog.hasRetweet && IsVideo(p.card.mblog))
    ensures p.Ordinary? ==> (c == 3 <==> !p.card.mblog.hasRetweet && !IsVideo(p.card.mblog))
  {
    match p
    case Synthetic(kind, _) => kind
    case Ordinary(c) =>
      if c.mblog.hasRetweet then 1
      else if IsVideo(c.mblog) then 2
      else 3
  }

  /** A repost whose page metadata is a video is still a repost. */
  lemma RepostOutranksVideo(c: Card)
    requires c.mblog.hasRetweet && IsVideo(c.mblog)
    ensures Category(Ordinary(c)) == 1
  {
  }

  /** Every category the adapter can produce, for a card or for the unpin
      item it manufactures, is declared in its table. */
  lemma CategoryIsDeclared(p: RawPost)
    requires p.Ordinary? || p.kind == UnpinKind
    ensures Category(p) in Categories
    ensures p.Synthetic? ==> Categories[Category(p)] == UnpinText
  {
  }
}
