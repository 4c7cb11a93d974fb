# Weibo platform adapter — a Dafny model

This project models the Weibo adapter of nonebot-hk-reporter, a bot that
watches social-media accounts and forwards their new posts. The adapter
receives the card list that the Weibo container API returns for a watched
account (a *target*). It does three things with that list:

- It classifies each card. A card has an identity, it is either relevant or
  not, and it has a category: repost, video or text-and-image.
- It tracks each target's pinned post from one poll to the next. When the
  pin disappears, or is replaced by a different post, it emits one synthetic
  "unpin" item.
- It normalises every output item into a `Post`. Truncated posts (long
  text, or more than nine pictures) are first expanded through a second
  fetch.

Modules:

- `WeiboTypes` (`weibo_types.dfy`) holds the data model. A fetched `Card`
  is `Card(cardType, mblog)`. The adapter outputs the tagged union
  `RawPost = Ordinary(Card) | Synthetic(kind, target)`. The normalised
  result is a `Post`.
- `Classify` (`classify.dfy`) holds `get_id`, `filter_platform_custom`,
  `get_category` and the category table.
- `PinTracking` (`pin_tracking.dfy`) holds `_get_top` as a loop, proved
  against a first-match specification. It also holds the class
  `WeiboAdapter`, whose fields are `top` (the per-target pin map) and
  `inited`. Its method `FilterCommon` is `filter_common`. The class
  invariant says that each stored pin is the first pinned card of that
  target's most recent batch. `PinLifecycle` walks through three polls: the
  pin is set, then kept while a new post arrives, then gone.
- `Text` (`text.dfy`) holds the `<br />` to newline rewrite of `_get_text`
  and the decimal rendering of a user id.
- `Normalize` (`normalize.dfy`) holds `parse`, and the way a post is built
  from a status object.

The novelty filter of the base class `Platform` is not part of this model.
`FilterCommon` therefore takes that filter's output for the batch as the
parameter `baseNew`. The `inited` flag belongs to the base class too; here
it is an explicit field. The model assumes that the first batch of a target
sets this flag. The detail-page fetch used by `parse` is the parameter
`expand`, which maps a `mid` to the expanded status, or to None when the
fetch or the extraction fails. The HTML sanitizer is the parameter `strip`.

The code has no guard against an empty or failed fetch: `get_sub_list`
returns `[]` when the response's `ok` is false. After the first batch, an
empty batch replaces the stored pin with None and reports an unpin whenever
a pin was stored (`PinTracking.EmptyBatchAfterPinUnpins`).

## Model

| member | source | states |
|---|---|---|
| `Classify.Id` | src/plugins/nonebot_hk_reporter/platform/weibo.py:49-52 | no identity exactly for synthetic items; a card's identity is its status id |
| `Classify.IsWeiboPost` | src/plugins/nonebot_hk_reporter/platform/weibo.py:54-55 | a card is kept exactly when its card type is 9 |
| `Classify.Category` | src/plugins/nonebot_hk_reporter/platform/weibo.py:65-73 | priority cascade: a synthetic item's category is its marker; for a card, 1 iff it embeds a repost, 2 iff it is no repost and its page info is a video (`IsVideo`: `page_info.type` is `'video'`), 3 iff it is neither |
| `Classify.RepostOutranksVideo` | src/plugins/nonebot_hk_reporter/platform/weibo.py:68-71 | a repost whose page info is a video is still category 1 |
| `Classify.CategoryIsDeclared` | src/plugins/nonebot_hk_reporter/platform/weibo.py:16-21 | every category produced for a card or for the unpin item is a key of the category table, and the unpin item's label is "撤置顶" (`Categories` is the table) |
| `PinTracking.FirstPinnedIndex` | src/plugins/nonebot_hk_reporter/platform/weibo.py:79-84 | the index found holds a type-9 card with `isTop` set, and no earlier card is one; the index is the batch length when there is none |
| `PinTracking.FirstPinned` | src/plugins/nonebot_hk_reporter/platform/weibo.py:79-84 | the pin is a type-9 card of the batch with `isTop` set; there is no pin iff no card of the batch is such a card (`IsPinned`, lines 81-82) |
| `PinTracking.GetTop` | src/plugins/nonebot_hk_reporter/platform/weibo.py:79-84 | the scan returns the first pinned card in list order (same as `FirstPinned`), or None |
| `PinTracking.UnpinEvent` | src/plugins/nonebot_hk_reporter/platform/weibo.py:94-100 | an event exists iff a pin was stored and the new batch has no pin or a pin with a different id; the event is `_type` 50 with the old pin's screen name |
| `PinTracking.PollResult` | src/plugins/nonebot_hk_reporter/platform/weibo.py:92-102 | the result starts with the base filter's items, in order, followed by at most one synthetic item; a synthetic item can only be last, and it is the unpin event; when the unpin condition holds, the last item is that event |
| `PinTracking.KeptPinIsSilent` | src/plugins/nonebot_hk_reporter/platform/weibo.py:94-95 | a pin that stays (same id) produces no event |
| `PinTracking.NoStoredPinIsSilent` | src/plugins/nonebot_hk_reporter/platform/weibo.py:94-95 | with no stored pin (in particular, no pin in the previous batch nor in this one) there is no event, and the result is exactly the base filter's items |
| `PinTracking.FirstPinnedSkipsOtherCards` | src/plugins/nonebot_hk_reporter/platform/weibo.py:80-82 | a card of another type is never taken as the pin, even when its `isTop` is set |
| `PinTracking.EmptyBatchAfterPinUnpins` | src/plugins/nonebot_hk_reporter/platform/weibo.py:92-100 | after a stored pin, an empty batch yields exactly one unpin item (there is no empty-list guard) |
| `PinTracking.WeiboAdapter.constructor` | src/plugins/nonebot_hk_reporter/platform/weibo.py:25-27 | a new adapter has no stored pins and no initialised targets |
| `PinTracking.WeiboAdapter.FilterCommon` | src/plugins/nonebot_hk_reporter/platform/weibo.py:86-102 | first batch of a target: returns nothing and stores the batch's pin as the baseline; later batches: returns `PollResult` against the stored pin; either way, the target's entry becomes the batch's pin and other targets are unchanged |
| `Text.ReplaceBr` | src/plugins/nonebot_hk_reporter/platform/weibo.py:75-76 | the rewrite never lengthens the text |
| `Text.ReplaceBrFirstTag` | src/plugins/nonebot_hk_reporter/platform/weibo.py:76 | the text before the first `<br />` is copied, that tag becomes one newline, and the rewrite continues after it; with `ReplaceBrKeepsPlainText` this determines the result as `str.replace` does |
| `Text.NewlineFreePrefix` | src/plugins/nonebot_hk_reporter/platform/weibo.py:76 | a newline-free prefix of the rewritten text is a prefix of the original |
| `Text.NoBrLeft` | src/plugins/nonebot_hk_reporter/platform/weibo.py:76 | no `<br />` remains anywhere in the rewritten text |
| `Text.ReplaceBrKeepsPlainText` | src/plugins/nonebot_hk_reporter/platform/weibo.py:76 | text without `<br />` is returned unchanged |
| `Text.Decimal` | src/plugins/nonebot_hk_reporter/platform/weibo.py:116 | the rendered user id is non-empty, all digits, and starts with `0` only when it is exactly `0` (no leading zero) |
| `Text.DecimalRoundTrip` | src/plugins/nonebot_hk_reporter/platform/weibo.py:116 | reading the rendered digits back gives the user id |
| `Normalize.NeedsExpansion` | src/plugins/nonebot_hk_reporter/platform/weibo.py:109 | expansion is needed exactly when `isLongText` is set or `pic_num` exceeds 9 |
| `Normalize.DetailUrl` | src/plugins/nonebot_hk_reporter/platform/weibo.py:116 | the detail URL starts with `https://weibo.com/` and has a path after it |
| `Normalize.DetailUrlInjective` | src/plugins/nonebot_hk_reporter/platform/weibo.py:116 | equal detail URLs mean the same account id and the same post id |
| `Normalize.LargeUrls` | src/plugins/nonebot_hk_reporter/platform/weibo.py:115 | one URL per picture entry, in order, each being that entry's large URL |
| `Normalize.BuildPost` | src/plugins/nonebot_hk_reporter/platform/weibo.py:114-118 | the post's text is the sanitised, newline-converted status text; its URL is the detail URL; its name is the user's screen name; its pictures are the large URLs (none when `pics` is absent); the image override is not set |
| `Normalize.Parse` | src/plugins/nonebot_hk_reporter/platform/weibo.py:104-118 | an unpin item gives the fixed placeholder post (text "撤置顶", no URL, no pictures, override false, named after the event's target); another synthetic item has no `mblog` and fails; a card fails iff it needs expansion and the expansion is unavailable; otherwise the post is built from the card's status, or from the expanded status when expansion is needed |
| `Normalize.ShortPostSkipsExpansion` | src/plugins/nonebot_hk_reporter/platform/weibo.py:109-113 | a post that is not long and has at most 9 pictures never depends on the detail fetch |
| `Normalize.ExpansionReadsOwnMid` | src/plugins/nonebot_hk_reporter/platform/weibo.py:111 | a truncated post depends on the detail fetch only through its own `mid` |
| `Normalize.UnpinEventParses` | src/plugins/nonebot_hk_reporter/platform/weibo.py:100-107 | the unpin item that pin tracking emits normalises to the placeholder post, attributed to the old pin's account |

## Left out

- `get_account_name` and `get_sub_list` are HTTP calls to the Weibo API and are left out. A batch is an input of `FilterCommon`. A response with `ok` false becomes an empty list, which `EmptyBatchAfterPinUnpins` covers.
- The detail-page fetch in `parse`, with its regular-expression search and `json.loads`, is the parameter `expand`. A failed fetch, a missing match or bad JSON all show up as `ExpansionUnavailable`.
- The HTML stripping in `_get_text`, done by BeautifulSoup, is the parameter `strip`. Only the `<br />` rewrite is modelled.
- `get_date` parses a date string into a float timestamp with `strptime`. It is library date parsing over floats, so it is left out.
- `get_tags` always returns None and is left out.
- The `categories`, `enable_tag` and `platform_name` class attributes are constants. Only `categories` and the platform name are used.
- The base class's novelty filter and its seen-item memory are part of `platform.py`, which is not part of this model. Its output is the parameter `baseNew`. The model assumes that the base class sets the `inited` flag on the first batch.
- `async` scheduling and `logger.info` calls are left out. There is no per-target locking: the adapter has none.
- The model assumes every key the code reads is present. It does not model the `KeyError` or `TypeError` that Python raises on a card without `mblog`, a status without `isLongText` or `pic_num`, or `pics` set to null. The one exception is a synthetic item whose marker is not 50: `parse` fails on it with `MissingMblog`.
- `Text.Decimal`: the model keeps user ids as natural numbers rendered in decimal. A user id that the API sends as a string is not modelled.
