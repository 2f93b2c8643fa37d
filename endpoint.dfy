/**
 * The `/outfit-image` handler: the order in which it checks its query
 * arguments, the upstream calls it makes, and what it answers.
 */
module Endpoint {
  import opened Wrappers
  import opened PyStr
  import opened Snapshot
  import opened Resolver
  import opened Compositor

  /** The static API key the `key` argument must equal. */
  const MainKey: string := "MERO&ZIX"

  /** The query arguments; `None` is an argument that is absent. */
  datatype Request = Request(uid: Option<string>, region: Option<string>, key: Option<string>)

  /** What the handler answers: an error status with its message, or the composed PNG (as its paste list). */
  datatype Response = Refused(status: nat, error: string) | Png(layers: seq<Layer>)

  /** One call to an upstream service, in the order the handler makes it. */
  datatype Call =
    | PlayerInfo(uid: string, region: string)
    | OutfitIcon(slot: nat, asset: string)
    | BackgroundImage
    | PetIcon(id: int)
    | Portrait(skillId: int)
    | WeaponIcon(id: int)

  /** Python truthiness of a query argument: present and non-empty. */
  predicate Given(arg: Option<string>) {
    arg.Some? && arg.value != ""
  }

  /**
   * The checks made before anything else: a missing `uid` or `region` is a 400
   * whatever the key, and only then is a key other than `MainKey` a 403.
   */
  function Gate(req: Request): (r: Option<Response>)
    ensures r.Some? ==> r.value.Refused?
    ensures r.Some? && r.value.status == 400 <==> !Given(req.uid) || !Given(req.region)
    ensures r.Some? && r.value.status == 403 <==> Given(req.uid) && Given(req.region) && req.key != Some(MainKey)
    ensures r.None? <==> Given(req.uid) && Given(req.region) && req.key == Some(MainKey)
  {
    if !Given(req.uid) || !Given(req.region) then Some(Refused(400, "Missing uid or region"))
    else if req.key != Some(MainKey) then Some(Refused(403, "Invalid or missing API key"))
    else None
  }

  /**
   * The seven icon fetches, one per slot, each by its pick's icon id. They are
   * listed in slot order; the source runs them concurrently.
   */
  function IconCalls(picks: seq<Pick>): (calls: seq<Call>)
    ensures |calls| == |picks|
    ensures forall i :: 0 <= i < |picks| ==> calls[i] == OutfitIcon(i, AssetKey(picks[i]))
  {
    seq(|picks|, i requires 0 <= i < |picks| => OutfitIcon(i, AssetKey(picks[i])))
  }

  /**
   * Two matched slots never fetch the same icon. (Fallback icons can repeat:
   * slots 3 and 6 share the fallback "203000000".)
   */
  lemma MatchedAssetsDistinct(c: seq<int>, i: nat, j: nat)
    requires i < j < SlotCount
    ensures |IconCalls(Resolve(c))| == SlotCount
    ensures Resolve(c)[i].Matched? && Resolve(c)[j].Matched? ==>
              IconCalls(Resolve(c))[i].asset != IconCalls(Resolve(c))[j].asset
  {
    ResolveLength(c);
    NoIdTwice(c, i, j);
    var picks := Resolve(c);
    if picks[i].Matched? && picks[j].Matched? {
      DecimalStringInjective(picks[i].id, picks[j].id);
    }
  }

  /**
   * The fetches made while compositing, after the background: the pet icon for a
   * non-zero pet id, the avatar portrait always, the weapon icon for a non-zero
   * first weapon id.
   */
  function LateCalls(a: Account): (calls: seq<Call>)
    ensures |calls| == 1 + (if PetShown(a) then 1 else 0) + (if WeaponShown(a) then 1 else 0)
    ensures calls[0].PetIcon? <==> a.petId.Some? && a.petId.value != 0
    ensures calls[0].PetIcon? ==> calls[0] == PetIcon(a.petId.value)
    ensures calls[if PetShown(a) then 1 else 0] == Portrait(AvatarId(a.skills))
    ensures calls[|calls| - 1].WeaponIcon? <==> |a.weapons| > 0 && a.weapons[0] != 0
    ensures calls[|calls| - 1].WeaponIcon? ==> calls[|calls| - 1] == WeaponIcon(a.weapons[0])
  {
    (if PetShown(a) then [PetIcon(a.petId.value)] else [])
    + [Portrait(AvatarId(a.skills))]
    + (if WeaponShown(a) then [WeaponIcon(WeaponId(a).value)] else [])
  }

  /** The calls made before compositing: the player record, the seven outfit icons, the background. */
  function EarlyCalls(req: Request, a: Account): (calls: seq<Call>)
    requires Given(req.uid) && Given(req.region)
    ensures |calls| == 2 + SlotCount
    ensures calls[0] == PlayerInfo(req.uid.value, req.region.value)
    ensures |Resolve(a.outfit)| == SlotCount
    ensures forall i :: 0 <= i < SlotCount ==> calls[i + 1] == OutfitIcon(i, AssetKey(Resolve(a.outfit)[i]))
    ensures calls[|calls| - 1] == BackgroundImage
  {
    ResolveLength(a.outfit);
    [PlayerInfo(req.uid.value, req.region.value)] + IconCalls(Resolve(a.outfit)) + [BackgroundImage]
  }

  /**
   * `outfit_image`. The player record and the fetch outcomes are what the
   * upstream services would answer for this request; `calls` lists the upstream
   * calls the handler makes. The seven icon fetches and the background fetch run
   * concurrently in the source; `calls` lists them in one sequential order.
   */
  method OutfitImage(req: Request, player: Option<Account>, o: Outcomes) returns (resp: Response, calls: seq<Call>)
    // the argument checks come first and call nothing upstream
    ensures Gate(req).Some? ==> resp == Gate(req).value && calls == []
    // otherwise the player record is fetched first, and is all that is fetched when it fails
    ensures Gate(req).None? && player.None? ==>
              resp == Refused(500, "Failed to fetch player info") &&
              calls == [PlayerInfo(req.uid.value, req.region.value)]
    // the outfit icon fetches are submitted before the background is fetched,
    // so they are made even when the background fails
    ensures Gate(req).None? && player.Some? && !o.background ==>
              resp == Refused(500, "Failed to fetch background image") &&
              calls == EarlyCalls(req, player.value)
    // with a background, the present layers are pasted and the pet, avatar and weapon fetched
    ensures Gate(req).None? && player.Some? && o.background ==>
              resp == Png(Keep(FullPlan(player.value), o)) &&
              calls == EarlyCalls(req, player.value) + LateCalls(player.value)
  {
    var refusal := Gate(req);
    if refusal.Some? {
      return refusal.value, [];
    }
    calls := [PlayerInfo(req.uid.value, req.region.value)];
    if player.None? {
      return Refused(500, "Failed to fetch player info"), calls;
    }
    var account := player.value;
    var picks := ResolveOutfit(account.outfit);
    calls := calls + IconCalls(picks) + [BackgroundImage];
    if !o.background {
      return Refused(500, "Failed to fetch background image"), calls;
    }
    var layers := Composite(account, o);
    calls := calls + LateCalls(account);
    resp := Png(layers);
  }
}
