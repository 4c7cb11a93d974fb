/** The values the Weibo adapter works on: the cards returned by the
    container API, the synthetic "unpin" item the adapter manufactures,
    and the normalised post it hands to delivery. */
module WeiboTypes {

  datatype Option<+T> = None | Some(value: T)

  datatype Result<+T, +E> = Ok(value: T) | Err(error: E)

  /** A subscription target: the account's uid, as text. */
  type Target = string

  /** The `_type` marker of a synthetic item; Python treats it as present
      exactly when it is truthy, that is, non-zero. */
  type Marker = k: int | k != 0 witness 50

  /** `card_type` of a card that carries an ordinary post. */
  const WeiboCardType: int := 9

  /** `_type` (and category) of the synthetic "unpin" item. */
  const UnpinKind: Marker := 50

  /** Above this many pictures the list in a card is truncated. */
  const MaxInlinePics: int := 9

  const PlatformName: string := "weibo"

  /** Text of the placeholder post produced for an unpin event. */
  const UnpinText: string := "撤置顶"

  /** `mblog.user`: the numeric account id and the display name. */
  datatype User = User(id: nat, screenName: string)

  /** One entry of `mblog.pics`; only the `large.url` variant is read. */
  datatype Pic = Pic(largeUrl: string)

  /** The status object `mblog` of a card (or the expanded status fetched
      for a long post).  `hasRetweet` is "`retweeted_status` is present and
      non-empty"; `pageType` is `page_info.type`, None when `page_info` is
      absent, empty or has no `type`; `pics` is None when the key is absent. */
  datatype Mblog = Mblog(
    id: string,
    mid: string,
    isTop: bool,
    hasRetweet: bool,
    pageType: Option<string>,
    user: User,
    bid: string,
    isLongText: bool,
    picNum: int,
    pics: Option<seq<Pic>>,
    text: string)

  /** One element of `data.cards` as fetched. */
  datatype Card = Card(cardType: int, mblog: Mblog)

  /** An item of the adapter's output list: a fetched card, or the synthetic
      `{'_type': kind, 'target': name}` item. */
  datatype RawPost = Ordinary(card: Card) | Synthetic(kind: Marker, target: string)

  /** The normalised `Post`.  `overrideUsePic` is None when the constructor
      is called without it (the Post class's own default applies). */
  datatype Post = Post(
    platform: string,
    text: string,
    url: string,
    pics: seq<string>,
    targetName: string,
    overrideUsePic: Option<bool>)
}
