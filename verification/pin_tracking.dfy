/** Pin-change detection: the pinned post of each target is remembered
    between polls, and its disappearance or replacement is reported as one
    synthetic "unpin" item after the ordinary new items. */
module PinTracking {
  import opened WeiboTypes
  import opened Classify

  /** A relevant card whose status carries a truthy `isTop`. */
  predicate IsPinned(c: Card) {
    IsWeiboPost(c) && c.mblog.isTop
  }

  /** Position of the first pinned card of the batch, `|batch|` when there
      is none. */
  function FirstPinnedIndex(batch: seq<Card>): (k: nat)
    ensures k <= |batch|
    ensures k < |batch| ==> IsPinned(batch[k])
    ensures forall j :: 0 <= j < k ==> !IsPinned(batch[j])
  {
    if batch == [] then 0
    else if IsPinned(batch[0]) then 0
    else 1 + FirstPinnedIndex(batch[1..])
  }

  /** The pinned post of a batch: the first pinned card in list order. */
  function FirstPinned(batch: seq<Card>): (top: Option<Card>)
    ensures top.Some? ==> IsWeiboPost(top.value) && top.value.mblog.isTop && top.value in batch
    ensures top.None? <==> forall j :: 0 <= j < |batch| ==> !IsPinned(batch[j])
  {
    var k := FirstPinnedIndex(batch);
    if k < |batch| then Some(batch[k]) else None
  }

  /** `_get_top`: scan the batch and return the first pinned card. */
  method GetTop(batch: seq<Card>) returns (top: Option<Card>)
    ensures top == FirstPinned(batch)
    ensures top.Some? ==> exists k :: 0 <= k < |batch| && batch[k] == top.value &&
                                      forall j :: 0 <= j < k ==> !IsPinned(batch[j])
  {
    for i := 0 to |batch|
      invariant forall j :: 0 <= j < i ==> !IsPinned(batch[j])
    {
      if batch[i].cardType == WeiboCardType {
        if batch[i].mblog.isTop {
          return Some(batch[i]);
        }
      }
    }
    return None;
  }

  /** The synthetic item appended when the stored pin `stored` is gone from
      the new batch, or replaced by a pin with a different id. */
  function UnpinEvent(stored: Option<Card>, current: Option<Card>): (e: Option<RawPost>)
    ensures e.Some? <==> stored.Some? &&
                         (current.None? || Id(Ordinary(stored.value)) != Id(Ordinary(current.value)))
    ensures e.Some? ==> e.value.Synthetic? && e.value.kind == UnpinKind &&
                        e.value.target == stored.value.mblog.user.screenName
  {
    match stored
    case None => None
    case Some(pin) =>
      if current.None? || Id(Ordinary(pin)) != Id(Ordinary(current.value)) then
        Some(Synthetic(UnpinKind, pin.mblog.user.screenName))
      else None
  }

  /** The list returned after initialisation: what the base class's novelty
      filter kept, then at most one unpin item. */
  function PollResult(baseNew: seq<Card>, stored: Option<Card>, current: Option<Card>): (res: seq<RawPost>)
    ensures |res| == |baseNew| + (if UnpinEvent(stored, current).Some? then 1 else 0)
    ensures forall i :: 0 <= i < |baseNew| ==> res[i] == Ordinary(baseNew[i])
    ensures forall i :: 0 <= i < |res| && res[i].Synthetic? ==>
              i == |res| - 1 && Some(res[i]) == UnpinEvent(stored, current)
    ensures UnpinEvent(stored, current).Some? ==> res[|res| - 1] == UnpinEvent(stored, current).value
  {
    var ordinary := seq(|baseNew|, i requires 0 <= i < |baseNew| => Ordinary(baseNew[i]));
    match UnpinEvent(stored, current)
    case Some(e) => ordinary + [e]
    case None => ordinary
  }

  /** A pin that stays (same id) produces no event, whatever else changed
      in the batch. */
  lemma KeptPinIsSilent(stored: Card, batch: seq<Card>)
    requires FirstPinned(batch).Some? && FirstPinned(batch).value.mblog.id == stored.mblog.id
    ensures UnpinEvent(Some(stored), FirstPinned(batch)) == None
  {
  }

  /** Without a stored pin (in particular, no pin in the previous batch and
      none in this one) the result is exactly the base filter's items. */
  lemma NoStoredPinIsSilent(baseNew: seq<Card>, current: Option<Card>)
    ensures UnpinEvent(None, current) == None
    ensures |PollResult(baseNew, None, current)| == |baseNew|
    ensures forall i :: 0 <= i < |baseNew| ==> PollResult(baseNew, None, current)[i] == Ordinary(baseNew[i])
  {
  }

  /** A card of another type is never taken for the pin, even when its
      status says `isTop`. */
  lemma FirstPinnedSkipsOtherCards(c: Card, batch: seq<Card>)
    requires c.cardType != WeiboCardType
    ensures FirstPinned([c] + batch) == FirstPinned(batch)
  {
  }

  /** An empty batch after a stored pin reports the pin as removed: there
      is no guard against an empty (or failed) fetch. */
  lemma EmptyBatchAfterPinUnpins(stored: Card)
    ensures PollResult([], Some(stored), FirstPinned([])) ==
            [Synthetic(UnpinKind, stored.mblog.user.screenName)]
  {
  }

  /** The per-target pin memory of the adapter, with the novelty filter's
      own `inited` flag made explicit. */
  class WeiboAdapter {
    /** `self.top`: the pin seen in each target's most recent batch. */
    var top: map<Target, Option<Card>>
    /** Targets whose first batch has been processed. */
    var inited: set<Target>
    /** The most recent batch of each target, for the invariant only. */
    ghost var lastBatch: map<Target, seq<Card>>

    ghost predicate Valid()
      reads this
    {
      && inited <= top.Keys
      && top.Keys == lastBatch.Keys
      && forall t :: t in top ==> top[t] == FirstPinned(lastBatch[t])
    }

    constructor ()
      ensures Valid()
      ensures top == map[] && inited == {} && lastBatch == map[]
    {
      top := map[];
      inited := {};
      lastBatch := map[];
    }

    /** `filter_common`.  `baseNew` is what the base class's novelty filter
        returns for this batch. */
    method FilterCommon(target: Target, batch: seq<Card>, baseNew: seq<Card>) returns (res: seq<RawPost>)
      requires Valid()
      modifies this
      ensures Valid()
      ensures inited == old(inited) + {target}
      ensures top == old(top)[target := FirstPinned(batch)]
      ensures lastBatch == old(lastBatch)[target := batch]
      ensures target !in old(inited) ==> res == []
      ensures target in old(inited) ==> res == PollResult(baseNew, old(top)[target], FirstPinned(batch))
    {
      if target !in inited {
        var first := GetTop(batch);
        top := top[target := first];
        lastBatch := lastBatch[target := batch];
        inited := inited + {target};
        res := [];
      } else {
        var newPost := GetTop(batch);
        res := seq(|baseNew|, i requires 0 <= i < |baseNew| => Ordinary(baseNew[i]));
        var stored := top[target];
        if (stored.Some? && newPost.None?) ||
           (stored.Some? && newPost.Some? && Id(Ordinary(stored.value)) != Id(Ordinary(newPost.value))) {
          res := res + [Synthetic(UnpinKind, stored.value.mblog.user.screenName)];
        }
        top := top[target := newPost];
        lastBatch := lastBatch[target := batch];
      }
    }
  }

  /** The three-poll example: a pin set on the first poll, kept on the
      second while a new post arrives, gone on the third. */
  method PinLifecycle(alice: User, p1: Mblog, p2: Mblog, p3: Mblog)
    requires p1.isTop && !p2.isTop && !p3.isTop && p1.user == alice
  {
    var pinned := Card(WeiboCardType, p1);
    var card2 := Card(WeiboCardType, p2);
    var card3 := Card(WeiboCardType, p3);
    var w := new WeiboAdapter();
    var r1 := w.FilterCommon("T", [pinned], [pinned]);
    assert r1 == [];
    var r2 := w.FilterCommon("T", [card2, pinned], [card2]);
    assert FirstPinned([card2, pinned]) == Some(pinned);
    assert r2 == [Ordinary(card2)];
    var r3 := w.FilterCommon("T", [card3], [card3]);
    assert FirstPinned([card3]) == None;
    assert r3 == [Ordinary(card3), Synthetic(UnpinKind, alice.screenName)];
  }
}
