/** `parse`: the mapping from an item of the adapter's output list to a
    normalised `Post`.  The detail-page fetch used for truncated posts is the
    parameter `expand` (keyed by `mid`, None when the fetch or the extraction
    of the status from the page fails); the HTML-to-text sanitizer is the
    parameter `strip`. */
module Normalize {
  import opened WeiboTypes
  import opened Text
  import opened PinTracking

  const WeiboHost: string := "https://weibo.com/"

  /** Why `parse` raises instead of returning a post. */
  datatype ParseError =
    | MissingMblog          // a synthetic item other than unpin has no `mblog`
    | ExpansionUnavailable  // the detail page could not be fetched or read

  /** The status list in a card is truncated: the text is long, or there
      are more pictures than the card carries. */
  function NeedsExpansion(m: Mblog): (b: bool)
    ensures b <==> m.isLongText || m.picNum > 9
  {
    m.isLongText || m.picNum > MaxInlinePics
  }

  /** `'https://weibo.com/{}/{}'.format(user.id, bid)`. */
  function DetailUrl(uid: nat, bid: string): (url: string)
    ensures |url| > |WeiboHost| + 1 && url[..|WeiboHost|] == WeiboHost
  {
    WeiboHost + Decimal(uid) + "/" + bid
  }

  /** Position of the first `/` in `s`, `|s|` when there is none. */
  function SlashIndex(s: string): (k: nat)
    ensures k <= |s|
  {
    if s == [] then 0 else if s[0] == '/' then 0 else 1 + SlashIndex(s[1..])
  }

  lemma {:induction false} SlashAfterDigits(d: string, rest: string)
    requires forall i :: 0 <= i < |d| ==> '0' <= d[i] <= '9'
    ensures SlashIndex(d + "/" + rest) == |d|
  {
    if d != [] {
      assert (d + "/" + rest)[1..] == d[1..] + "/" + rest;
      SlashAfterDigits(d[1..], rest);
    }
  }

  /** Distinct posts (account id, post id) get distinct detail URLs: the
      pair can be read back from the URL. */
  lemma DetailUrlInjective(uid1: nat, bid1: string, uid2: nat, bid2: string)
    requires DetailUrl(uid1, bid1) == DetailUrl(uid2, bid2)
    ensures uid1 == uid2 && bid1 == bid2
  {
    var d1, d2 := Decimal(uid1), Decimal(uid2);
    var path := DetailUrl(uid1, bid1)[|WeiboHost|..];
    assert path == d1 + "/" + bid1;
    assert path == d2 + "/" + bid2;
    SlashAfterDigits(d1, bid1);
    SlashAfterDigits(d2, bid2);
    assert d1 == path[..|d1|] && d2 == path[..|d2|];
    DecimalRoundTrip(uid1);
    DecimalRoundTrip(uid2);
    assert bid1 == path[|d1| + 1..] && bid2 == path[|d2| + 1..];
  }

  /** `[img['large']['url'] for img in pics]`. */
  function LargeUrls(pics: seq<Pic>): (urls: seq<string>)
    ensures |urls| == |pics|
    ensures forall i :: 0 <= i < |pics| ==> urls[i] == pics[i].largeUrl
  {
    if pics == [] then [] else [pics[0].largeUrl] + LargeUrls(pics[1..])
  }

  /** The post built from a (possibly expanded) status object. */
  function BuildPost(info: Mblog, strip: string -> string): (post: Post)
    ensures post.platform == PlatformName && post.overrideUsePic.None?
    ensures post.text == strip(ReplaceBr(info.text))
    ensures post.url == DetailUrl(info.user.id, info.bid)
    ensures post.targetName == info.user.screenName
    ensures info.pics.None? ==> post.pics == []
    ensures info.pics.Some? ==>
              |post.pics| == |info.pics.value| &&
              forall i :: 0 <= i < |post.pics| ==> post.pics[i] == info.pics.value[i].largeUrl
  {
    var pics := match info.pics case Some(ps) => LargeUrls(ps) case None => [];
    Post(PlatformName, strip(ReplaceBr(info.text)), DetailUrl(info.user.id, info.bid),
         pics, info.user.screenName, None)
  }

  /** `parse`. */
  function Parse(p: RawPost, expand: string -> Option<Mblog>, strip: string -> string): (r: Result<Post, ParseError>)
    ensures p.Synthetic? && p.kind == UnpinKind ==>
              r == Ok(Post(PlatformName, UnpinText, "", [], p.target, Some(false)))
    ensures p.Synthetic? && p.kind != UnpinKind ==> r == Err(MissingMblog)
    ensures p.Ordinary? ==>
              (r.Err? <==> NeedsExpansion(p.card.mblog) && expand(p.card.mblog.mid).None?)
    ensures p.Ordinary? && !NeedsExpansion(p.card.mblog) ==> r == Ok(BuildPost(p.card.mblog, strip))
    ensures p.Ordinary? && NeedsExpansion(p.card.mblog) && expand(p.card.mblog.mid).Some? ==>
              r == Ok(BuildPost(expand(p.card.mblog.mid).value, strip))
  {
    match p
    case Synthetic(kind, target) =>
      if kind == UnpinKind then Ok(Post(PlatformName, UnpinText, "", [], target, Some(false)))
      else Err(MissingMblog)
    case Ordinary(card) =>
      var info := card.mblog;
      if NeedsExpansion(info) then
        match expand(info.mid)
        case None => Err(ExpansionUnavailable)
        case Some(full) => Ok(BuildPost(full, strip))
      else Ok(BuildPost(info, strip))
  }

  /** A post that is neither long nor over the picture limit never depends
      on the detail-page fetch: it is not made. */
  lemma ShortPostSkipsExpansion(c: Card, expand1: string -> Option<Mblog>,
                                expand2: string -> Option<Mblog>, strip: string -> string)
    requires !c.mblog.isLongText && c.mblog.picNum <= 9
    ensures Parse(Ordinary(c), expand1, strip) == Parse(Ordinary(c), expand2, strip)
  {
  }

  /** A truncated post depends on the fetch only through the page of its own
      `mid`. */
  lemma ExpansionReadsOwnMid(c: Card, expand1: string -> Option<Mblog>,
                             expand2: string -> Option<Mblog>, strip: string -> string)
    requires expand1(c.mblog.mid) == expand2(c.mblog.mid)
    ensures Parse(Ordinary(c), expand1, strip) == Parse(Ordinary(c), expand2, strip)
  {
  }

  /** The unpin item manufactured by pin tracking always normalises to the
      placeholder post, without pictures, attributed to the old pin's
      account. */
  lemma UnpinEventParses(stored: Option<Card>, current: Option<Card>,
                         expand: string -> Option<Mblog>, strip: string -> string)
    requires UnpinEvent(stored, current).Some?
    ensures Parse(UnpinEvent(stored, current).value, expand, strip) ==
            Ok(Post(PlatformName, UnpinText, "", [], stored.value.mblog.user.screenName, Some(false)))
  {
  }
}
