/**
 * Which outfit icon goes into each of the seven outfit slots.
 *
 * Slots are resolved one after another in table order. For a slot, the equipped
 * outfit ids are scanned in their own order and the first one whose decimal
 * rendering starts with the slot's prefix and that no earlier slot has taken is
 * claimed; a slot with no such id shows its fallback icon. Two pairs of slots
 * share a prefix ("211" and "203"), so the set of claimed ids is all that keeps
 * one id out of two slots.
 */
module Resolver {
  import opened Wrappers
  import opened PyStr

  const SlotCount: nat := 7

  /** Prefix each slot's id must start with, in slot order. */
  const RequiredStarts: seq<string> := ["211", "214", "211", "203", "204", "205", "203"]

  /** Icon shown in a slot that no equipped id fills, in slot order. */
  const FallbackIds: seq<string> :=
    ["211000000", "214000000", "208000000", "203000000", "204000000", "205000000", "203000000"]

  /** What a slot resolved to: an equipped outfit id, or the slot's fallback icon id. */
  datatype Pick = Matched(id: int) | Fallback(code: string)

  /** The icon identifier a pick is fetched by (the `{matched}` part of the icon URL). */
  function AssetKey(p: Pick): (key: string)
    ensures p.Matched? ==> key == DecimalString(p.id) && ParseDecimal(key) == Some(p.id)
    ensures p.Fallback? ==> key == p.code
  {
    ParseDecimalRoundTripFor(p);
    match p
    case Matched(id) => DecimalString(id)
    case Fallback(code) => code
  }

  lemma ParseDecimalRoundTripFor(p: Pick)
    ensures p.Matched? ==> ParseDecimal(DecimalString(p.id)) == Some(p.id)
  {
    if p.Matched? {
      ParseDecimalRoundTrip(p.id);
    }
  }

  /** An outfit id may fill a slot with prefix `code` when it starts with `code` and is not yet claimed. */
  predicate Qualifies(oid: int, code: string, used: set<int>) {
    StartsWith(DecimalString(oid), code) && oid !in used
  }

  /** Index of the first id at or after `from` that qualifies. */
  function FirstQualifying(ids: seq<int>, code: string, used: set<int>, from: nat): (r: Option<nat>)
    requires from <= |ids|
    ensures r.Some? ==> from <= r.value < |ids| && Qualifies(ids[r.value], code, used)
    ensures forall j :: from <= j < (if r.Some? then r.value else |ids|) ==> !Qualifies(ids[j], code, used)
    decreases |ids| - from
  {
    if from == |ids| then None
    else if Qualifies(ids[from], code, used) then Some(from)
    else FirstQualifying(ids, code, used, from + 1)
  }

  /** The pick for slot `idx` when the ids in `used` are already claimed. */
  function SlotPick(clothes: seq<int>, idx: nat, used: set<int>): Pick
    requires idx < SlotCount
  {
    match FirstQualifying(clothes, RequiredStarts[idx], used, 0)
    case Some(k) => Matched(clothes[k])
    case None => Fallback(FallbackIds[idx])
  }

  /** The claimed set after a pick: a matched id joins it, a fallback leaves it alone. */
  function Claim(used: set<int>, p: Pick): set<int> {
    if p.Matched? then used + {p.id} else used
  }

  /** The ids claimed by a sequence of picks. */
  function MatchedIds(picks: seq<Pick>): set<int> {
    set p | p in picks && p.Matched? :: p.id
  }

  lemma MatchedIdsSnoc(picks: seq<Pick>, p: Pick)
    ensures MatchedIds(picks + [p]) == Claim(MatchedIds(picks), p)
  {
    var a, b := MatchedIds(picks + [p]), Claim(MatchedIds(picks), p);
    forall x | x in a ensures x in b {
      var q :| q in picks + [p] && q.Matched? && q.id == x;
      if q != p {
        assert q in picks;
      }
    }
    forall x | x in b ensures x in a {
      if p.Matched? && x == p.id {
        assert p in picks + [p];
      } else {
        var q :| q in picks && q.Matched? && q.id == x;
        assert q in picks + [p];
      }
    }
  }

  lemma MatchedIdsHas(picks: seq<Pick>, x: int)
    ensures x in MatchedIds(picks) <==> Matched(x) in picks
  {
    if Matched(x) in picks {
      assert Matched(x).id == x;
    }
  }

  /** The state after the first `k` slots: their picks and the ids claimed so far. */
  datatype Resolution = Resolution(picks: seq<Pick>, used: set<int>)

  function ResolveUpTo(clothes: seq<int>, k: nat): (r: Resolution)
    requires k <= SlotCount
    ensures |r.picks| == k
    ensures r.used == MatchedIds(r.picks)
  {
    if k == 0 then Resolution([], {})
    else
      var prev := ResolveUpTo(clothes, k - 1);
      var p := SlotPick(clothes, k - 1, prev.used);
      MatchedIdsSnoc(prev.picks, p);
      Resolution(prev.picks + [p], Claim(prev.used, p))
  }

  /** The seven picks, in slot order. */
  function Resolve(clothes: seq<int>): seq<Pick> {
    ResolveUpTo(clothes, SlotCount).picks
  }

  /**
   * One slot (`fetch_outfit_image` without its fetch): scans `clothes` in order,
   * claims the first qualifying id and stops, or falls back.
   */
  method FetchOutfitSlot(clothes: seq<int>, idx: nat, used: set<int>) returns (pick: Pick, usedAfter: set<int>)
    requires idx < SlotCount
    ensures pick == SlotPick(clothes, idx, used)
    ensures usedAfter == Claim(used, pick)
  {
    var code := RequiredStarts[idx];
    var matched: Option<nat> := None;
    usedAfter := used;
    var i := 0;
    while i < |clothes|
      invariant 0 <= i <= |clothes|
      invariant matched.None? && usedAfter == used
      invariant FirstQualifying(clothes, code, used, i) == FirstQualifying(clothes, code, used, 0)
    {
      var oid := clothes[i];
      if Qualifies(oid, code, usedAfter) {
        assert FirstQualifying(clothes, code, used, i) == Some(i);
        matched := Some(i);
        usedAfter := usedAfter + {oid};
        break;
      }
      i := i + 1;
    }
    if matched.None? {
      assert FirstQualifying(clothes, code, used, 0) == None;
      pick := Fallback(FallbackIds[idx]);
    } else {
      pick := Matched(clothes[matched.value]);
    }
  }

  /** All seven slots in table order, threading the claimed set from one slot to the next. */
  method ResolveOutfit(clothes: seq<int>) returns (picks: seq<Pick>)
    ensures picks == Resolve(clothes)
  {
    picks := [];
    var used: set<int> := {};
    for idx := 0 to SlotCount
      invariant Resolution(picks, used) == ResolveUpTo(clothes, idx)
    {
      var pick;
      pick, used := FetchOutfitSlot(clothes, idx, used);
      picks := picks + [pick];
    }
  }

  // ---------------------------------------------------------------------------
  // Properties of the resolution

  /** Resolving more slots only extends the earlier picks, and the claimed set only grows. */
  lemma {:induction false} ResolvePrefix(clothes: seq<int>, j: nat, k: nat)
    requires j <= k <= SlotCount
    ensures ResolveUpTo(clothes, k).picks[..j] == ResolveUpTo(clothes, j).picks
    ensures ResolveUpTo(clothes, j).used <= ResolveUpTo(clothes, k).used
    decreases k - j
  {
    if j < k {
      ResolvePrefix(clothes, j, k - 1);
      var prev := ResolveUpTo(clothes, k - 1);
      var p := SlotPick(clothes, k - 1, prev.used);
      assert ResolveUpTo(clothes, k) == Resolution(prev.picks + [p], Claim(prev.used, p));
      assert (prev.picks + [p])[..j] == prev.picks[..j];
    }
  }

  /** Slot `i` is resolved against exactly the ids the earlier slots claimed. */
  lemma PickAt(clothes: seq<int>, i: nat)
    requires i < SlotCount
    ensures |Resolve(clothes)| == SlotCount
    ensures ResolveUpTo(clothes, i).used == MatchedIds(Resolve(clothes)[..i])
    ensures Resolve(clothes)[i] == SlotPick(clothes, i, MatchedIds(Resolve(clothes)[..i]))
  {
    ResolvePrefix(clothes, i, SlotCount);
    ResolvePrefix(clothes, i + 1, SlotCount);
    assert Resolve(clothes)[i] == ResolveUpTo(clothes, SlotCount).picks[..i + 1][i];
  }

  /** Exactly one pick per slot, in slot order. */
  lemma ResolveLength(clothes: seq<int>)
    ensures |Resolve(clothes)| == SlotCount
  {
    PickAt(clothes, 0);
  }

  /** A matched id is an equipped id that starts with its slot's prefix and no earlier slot took. */
  lemma MatchedHasPrefix(clothes: seq<int>, i: nat)
    requires i < SlotCount
    ensures |Resolve(clothes)| == SlotCount
    ensures Resolve(clothes)[i].Matched? ==>
              Resolve(clothes)[i].id in clothes &&
              StartsWith(DecimalString(Resolve(clothes)[i].id), RequiredStarts[i]) &&
              Matched(Resolve(clothes)[i].id) !in Resolve(clothes)[..i]
  {
    PickAt(clothes, i);
  }

  /** A slot that matches nothing shows that slot's own fallback. */
  lemma FallbackIsOwn(clothes: seq<int>, i: nat)
    requires i < SlotCount
    ensures |Resolve(clothes)| == SlotCount
    ensures Resolve(clothes)[i].Fallback? ==> Resolve(clothes)[i] == Fallback(FallbackIds[i])
  {
    PickAt(clothes, i);
  }

  /** No outfit id fills two slots. */
  lemma NoIdTwice(clothes: seq<int>, i: nat, j: nat)
    requires i < j < SlotCount
    ensures |Resolve(clothes)| == SlotCount
    ensures Resolve(clothes)[i].Matched? && Resolve(clothes)[j].Matched? ==>
              Resolve(clothes)[i].id != Resolve(clothes)[j].id
  {
    var picks := Resolve(clothes);
    PickAt(clothes, j);
    if picks[i].Matched? {
      assert picks[i] in picks[..j];
      assert picks[i].id in MatchedIds(picks[..j]);
    }
  }

  /**
   * The id a slot takes is the earliest qualifying one: every equipped id before
   * it either lacks the slot's prefix or was taken by an earlier slot.
   */
  lemma EarliestPick(clothes: seq<int>, i: nat)
    requires i < SlotCount
    ensures |Resolve(clothes)| == SlotCount
    ensures Resolve(clothes)[i].Matched? ==>
              exists p :: 0 <= p < |clothes| && clothes[p] == Resolve(clothes)[i].id &&
                forall q :: 0 <= q < p ==>
                  !StartsWith(DecimalString(clothes[q]), RequiredStarts[i]) ||
                  Matched(clothes[q]) in Resolve(clothes)[..i]
  {
    var picks := Resolve(clothes);
    PickAt(clothes, i);
    var used := MatchedIds(picks[..i]);
    var r := FirstQualifying(clothes, RequiredStarts[i], used, 0);
    if r.Some? {
      var p := r.value;
      forall q | 0 <= q < p
        ensures !StartsWith(DecimalString(clothes[q]), RequiredStarts[i]) || Matched(clothes[q]) in picks[..i]
      {
        assert !Qualifies(clothes[q], RequiredStarts[i], used);
        if clothes[q] in used {
          var m :| m in picks[..i] && m.Matched? && m.id == clothes[q];
        }
      }
    }
  }

  /**
   * A slot falls back exactly when every equipped id with its prefix was already
   * taken by an earlier slot (in particular, when none has the prefix).
   */
  lemma FallbackIff(clothes: seq<int>, i: nat)
    requires i < SlotCount
    ensures |Resolve(clothes)| == SlotCount
    ensures Resolve(clothes)[i].Fallback? <==>
              forall q :: 0 <= q < |clothes| && StartsWith(DecimalString(clothes[q]), RequiredStarts[i]) ==>
                Matched(clothes[q]) in Resolve(clothes)[..i]
  {
    var picks := Resolve(clothes);
    PickAt(clothes, i);
    var used := MatchedIds(picks[..i]);
    var r := FirstQualifying(clothes, RequiredStarts[i], used, 0);
    if r.Some? {
      var p := r.value;
      MatchedIdsHas(picks[..i], clothes[p]);
    } else {
      forall q | 0 <= q < |clothes| && StartsWith(DecimalString(clothes[q]), RequiredStarts[i])
        ensures Matched(clothes[q]) in picks[..i]
      {
        assert !Qualifies(clothes[q], RequiredStarts[i], used);
        var m :| m in picks[..i] && m.Matched? && m.id == clothes[q];
      }
    }
  }

  /** The ids claimed over all slots are exactly the matched picks, all of them equipped ids. */
  lemma UsedIdsAreMatched(clothes: seq<int>)
    ensures ResolveUpTo(clothes, SlotCount).used == MatchedIds(Resolve(clothes))
    ensures ResolveUpTo(clothes, SlotCount).used <= set x | x in clothes
  {
    var picks := Resolve(clothes);
    forall x | x in ResolveUpTo(clothes, SlotCount).used ensures x in clothes {
      var m :| m in picks && m.Matched? && m.id == x;
      var i :| 0 <= i < |picks| && picks[i] == m;
      MatchedHasPrefix(clothes, i);
    }
  }

  /** With nothing equipped every slot shows its fallback. */
  lemma EmptyOutfitFallsBack()
    ensures Resolve([]) == [Fallback(FallbackIds[0]), Fallback(FallbackIds[1]), Fallback(FallbackIds[2]),
                            Fallback(FallbackIds[3]), Fallback(FallbackIds[4]), Fallback(FallbackIds[5]),
                            Fallback(FallbackIds[6])]
  {
    ResolveLength([]);
    forall i | 0 <= i < SlotCount ensures Resolve([])[i] == Fallback(FallbackIds[i]) {
      PickAt([], i);
    }
  }

  /** The renderings of the two example ids, built up a few digits at a time. */
  lemma ExampleRendering211001()
    ensures DecimalString(211001) == "211001"
  {
    assert DecimalString(21) == "21";
    assert DecimalString(2110) == "2110";
  }

  lemma ExampleRendering214002()
    ensures DecimalString(214002) == "214002"
  {
    assert DecimalString(21) == "21";
    assert DecimalString(2140) == "2140";
  }

  /** How each slot of the example below resolves, given what the earlier slots claimed. */
  lemma ExampleSlotPicks()
    ensures SlotPick([211001, 214002], 0, {}) == Matched(211001)
    ensures SlotPick([211001, 214002], 1, {211001}) == Matched(214002)
    ensures forall i :: 2 <= i < SlotCount ==>
              SlotPick([211001, 214002], i, {211001, 214002}) == Fallback(FallbackIds[i])
  {
    ExampleRendering211001();
    ExampleRendering214002();
    // each refused prefix differs from the rendering at some position
    assert "211001"[2] != "214"[2] && "214002"[2] != "211"[2];
    assert "211001"[1] != "203"[1] && "214002"[1] != "203"[1];
  }

  /** The fallbacks of slots `k` and after, in slot order. */
  function FallbacksFrom(k: nat): seq<Pick>
    requires k <= SlotCount
    decreases SlotCount - k
  {
    if k == SlotCount then [] else [Fallback(FallbackIds[k])] + FallbacksFrom(k + 1)
  }

  /** Once every remaining slot would fall back, the rest of the resolution is those fallbacks. */
  lemma {:induction false} RemainingFallBack(clothes: seq<int>, k: nat, done: seq<Pick>, used: set<int>)
    requires k <= SlotCount
    requires ResolveUpTo(clothes, k) == Resolution(done, used)
    requires forall i :: k <= i < SlotCount ==> SlotPick(clothes, i, used) == Fallback(FallbackIds[i])
    ensures Resolve(clothes) == done + FallbacksFrom(k)
    decreases SlotCount - k
  {
    if k < SlotCount {
      var p := SlotPick(clothes, k, used);
      assert p == Fallback(FallbackIds[k]);
      assert Claim(used, p) == used;
      assert ResolveUpTo(clothes, k + 1) == Resolution(done + [p], used);
      RemainingFallBack(clothes, k + 1, done + [p], used);
      assert FallbacksFrom(k) == [p] + FallbacksFrom(k + 1);
      assert done + [p] + FallbacksFrom(k + 1) == done + ([p] + FallbacksFrom(k + 1));
    }
  }

  lemma ExampleFirstTwo(c: seq<int>)
    requires c == [211001, 214002]
    ensures ResolveUpTo(c, 2) == Resolution([Matched(211001), Matched(214002)], {211001, 214002})
  {
    ExampleSlotPicks();
    assert ResolveUpTo(c, 0) == Resolution([], {});
    assert ResolveUpTo(c, 1) == Resolution([Matched(211001)], {211001});
  }

  lemma ExampleResolution(c: seq<int>)
    requires c == [211001, 214002]
    ensures Resolve(c) ==
              [Matched(211001), Matched(214002), Fallback("208000000"), Fallback("203000000"),
               Fallback("204000000"), Fallback("205000000"), Fallback("203000000")]
  {
    ExampleSlotPicks();
    ExampleFirstTwo(c);
    RemainingFallBack(c, 2, [Matched(211001), Matched(214002)], {211001, 214002});
  }

  /**
   * [211001, 214002]: slot 0 takes 211001 and slot 1 takes 214002; slot 2 shares
   * slot 0's prefix but 211001 is taken, so it falls back to "208000000".
   */
  lemma FirstSlotWinsExample()
    ensures Resolve([211001, 214002]) ==
              [Matched(211001), Matched(214002), Fallback("208000000"), Fallback("203000000"),
               Fallback("204000000"), Fallback("205000000"), Fallback("203000000")]
  {
    ExampleResolution([211001, 214002]);
  }
}
