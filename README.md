# Outfit preview composer — a verified model

The service behind `GET /outfit-image` (`api.py`) draws a preview of a game
character: it checks the request's `uid`, `region` and `key`, fetches the
player record, decides which outfit icon goes into each of seven outfit slots,
fetches those icons and a background, and pastes the icons, the pet, the
avatar portrait and the weapon onto the background at fixed places.

This project models the decisions in that pipeline and proves what they
guarantee:

- **Argument checks** (`Endpoint.Gate`): a missing or empty `uid` or `region` is
  a 400 whatever the key; only then is a key other than the static key a 403.
- **Outfit slot resolution** (`Resolver`): seven slots, each with a prefix and a
  fallback icon id. Slots are resolved in table order; for each, the equipped
  outfit ids are scanned in their own order and the first one whose decimal
  rendering starts with the slot's prefix and that no earlier slot claimed is
  taken and claimed; otherwise the slot gets its fallback. `FetchOutfitSlot` is
  the scan loop with its early exit, `ResolveOutfit` the loop over slots that
  threads the claimed set. `FetchOutfitSlot` is proved equal to the one-slot
  specification (`SlotPick` and `Claim`), and `ResolveOutfit` is proved equal
  to the specification `Resolve`. The properties below are proved about
  `Resolve`.
- **Avatar selection** (`Snapshot.AvatarId`): the first equipped skill whose
  decimal rendering ends in "06", else 406.
- **Pet and weapon** (`Snapshot`): the weapon id is the first equipped weapon;
  the pet and weapon layers are attempted only for a truthy (present, non-zero) id.
- **Layer plan** (`Compositor`): pixels are abstract; a layer is its source and
  its box. `Composite` builds the paste list step by step and is proved equal
  to `Keep(FullPlan(a), o)`: the planned layers (seven outfit slots, pet,
  centred avatar, weapon) whose image fetch succeeded, in that order, each at
  its fixed place.
- **Handler** (`Endpoint.OutfitImage`): the response and the upstream calls
  made, for every combination of argument errors, player-record failure and
  background failure. The calls are listed in one sequential order (see
  "## Left out").

Python's `str(int)`, `startswith` and `endswith` are modelled in `PyStr`;
`DecimalString` is paired with a parser and proved to round-trip, so distinct
ids always have distinct renderings.

Three behaviours of the source that the model follows as written:

- The seven outfit icon fetches are submitted (api.py:73-74) before the
  background is fetched (api.py:78), so they are made even when the background
  fetch then fails; only the pet, avatar and weapon fetches are skipped.
  `Endpoint.OutfitImage` states which calls are made in each case.
- The weapon is pasted under `if weapon_id:` (api.py:117), so a first weapon id
  of 0 is skipped like a missing one (`Snapshot.WeaponShown`).
- An empty `uid` or `region` counts as missing (api.py:37, `not uid`).

The upstream services are parameters: the player record arrives as
`Option<Account>` (`None` for a failed or empty answer), and whether each
image fetch produced an image arrives as `Compositor.Outcomes`.

## Model

| member | source | states |
|---|---|---|
| PyStr.DecimalString | api.py:63 | `str(oid)`: non-empty; all digits exactly when the id is non-negative, a leading minus exactly when negative; no leading zero unless the id is 0, and never "-0" |
| PyStr.ParseDecimalRoundTrip | api.py:63 | reading back the rendering of any integer gives that integer |
| PyStr.DecimalStringInjective | api.py:63 | two ids with the same rendering are the same id |
| Snapshot.FirstEndingIn06 | api.py:109 | the index found is the first at or after the start whose rendering ends in "06"; none before it (or none at all) does |
| Snapshot.AvatarId | api.py:109 | the avatar id is the earliest skill ending in "06" when one exists, else 406 |
| Snapshot.AvatarIdIgnoresLaterSkills | api.py:109 | once a qualifying skill exists, appending more skills does not change the avatar id |
| Snapshot.AvatarIdExampleMatch | api.py:109 | skills [105, 206, 306] give 206 |
| Snapshot.AvatarIdExampleDefault | api.py:109 | skills [101, 102] give 406 |
| Resolver.AssetKey | api.py:68-70 | a matched slot is fetched by the matched id's decimal rendering, which reads back as that id; a falling-back slot is fetched by its fallback id as written |
| Resolver.FirstQualifying | api.py:62-67 | the scan stops at the first id that has the prefix and is unclaimed; every id before it fails one of the two |
| Resolver.ResolveUpTo | api.py:56-74 | after k slots there are k picks and the claimed set is exactly the set of matched ids |
| Resolver.FetchOutfitSlot | api.py:60-69 | the scan loop with its early exit picks `SlotPick` and adds the matched id, and only it, to the claimed set |
| Resolver.ResolveOutfit | api.py:73-74 | running the slots in table order and threading the claimed set yields exactly `Resolve` |
| Resolver.ResolvePrefix | api.py:64-66 | resolving more slots never changes earlier picks, and the claimed set only grows |
| Resolver.PickAt | api.py:60-74 | slot i is resolved against exactly the ids claimed by slots 0..i-1 |
| Resolver.ResolveLength | api.py:54-74 | resolution yields exactly seven picks, one per slot |
| Resolver.MatchedHasPrefix | api.py:62-66 | an id matched to slot i is equipped, starts with slot i's prefix, and no earlier slot holds it |
| Resolver.FallbackIsOwn | api.py:68-69 | a slot that falls back gets its own fallback id |
| Resolver.NoIdTwice | api.py:64-66 | no outfit id is matched to two slots |
| Resolver.EarliestPick | api.py:62-67 | the matched id is the earliest equipped id with the prefix not already taken by an earlier slot |
| Resolver.FallbackIff | api.py:62-69 | a slot falls back exactly when every equipped id with its prefix was taken by an earlier slot |
| Resolver.UsedIdsAreMatched | api.py:56-66 | the final claimed set is exactly the matched ids, all of them equipped |
| Resolver.EmptyOutfitFallsBack | api.py:68-69 | an empty outfit gives all seven fallbacks in slot order |
| Resolver.RemainingFallBack | api.py:68-74 | once every remaining slot would fall back, the rest of the result is those fallbacks in slot order |
| Resolver.FirstSlotWinsExample | api.py:54-74 | ids [211001, 214002] fill slots 0 and 1; slot 2 (prefix "211") falls back to "208000000" |
| Compositor.AvatarLayer | api.py:111-114 | the avatar is 650x780 at y 145, inside the 1024-wide canvas, horizontally centred to within one pixel |
| Compositor.FixedLayer | api.py:83-121 | each source has one fixed layer showing that source |
| Compositor.Composite | api.py:93-121 | the paste sequence equals the planned layers whose image is present, in plan order |
| Compositor.KeepFullPlan | api.py:101-121 | after the outfit slots that arrived come the pet (id truthy and image arrived), the avatar (image arrived) and the weapon (first id truthy and image arrived), in that order |
| Compositor.KeepMembers | api.py:94-121 | a layer is kept exactly when it is planned and its image is present |
| Compositor.KeepRanked | api.py:94-121 | skipping absent layers never reorders the remaining ones |
| Compositor.FullPlanRanked | api.py:94-121 | the planned layers come in order: outfit slots 0..6, pet, avatar, weapon |
| Compositor.PasteOrder | api.py:94-121 | the pasted layers come in that order, whatever is absent |
| Compositor.FixedPlaces | api.py:83-121 | a layer is pasted exactly when planned and present, and always at its fixed place |
| Compositor.PlannedExtras | api.py:49-51 | the pet layer is planned exactly for a non-zero pet id, the weapon layer exactly for a non-zero first equipped weapon, the avatar layer always; the plan has 8 to 10 layers accordingly |
| Compositor.ExtraFailedSlot | api.py:94-99 | one more failed outfit fetch removes that slot's layer and changes nothing else |
| Compositor.OneSlotFailure | api.py:94-99 | when only slot i's icon fails, the picture is the all-present one without slot i's layer |
| Endpoint.Gate | api.py:37-40 | missing uid or region gives 400 whatever the key; otherwise a wrong or missing key gives 403; otherwise the request passes |
| Endpoint.MatchedAssetsDistinct | api.py:64-70 | two slots that both matched an outfit id never fetch the same icon |
| Endpoint.LateCalls | api.py:101-119 | after the background: the pet icon exactly for a non-zero pet id, the avatar portrait always and keyed by `AvatarId`, the weapon icon exactly for a non-zero first weapon id |
| Snapshot.WeaponId | api.py:50-51 | no weapon id exactly when no weapon is equipped; otherwise the first equipped weapon |
| Compositor.FullPlan | api.py:93-121 | the plan starts with the seven outfit layers, has the pet layer right after them when the pet id is truthy, and ends with the weapon when it is truthy, else the avatar; 8 to 10 layers |
| Endpoint.EarlyCalls | api.py:42-78 | the nine calls made before compositing: the player record, then one icon fetch per slot by that slot's pick, and the background (listed in one sequential order) |
| Endpoint.OutfitImage | api.py:32-121 | argument errors call nothing upstream; a failed player record ends after that one call with 500; a failed background ends with 500, the icon fetches having already been submitted; otherwise the picture is the kept layer plan and the pet, avatar and weapon are fetched |

## Left out

- HTTP plumbing: Flask routing, reading `request.args`, `jsonify`, `send_file`, and the port read at startup (api.py:31-35, 124-131).
- Network I/O: `requests.get` in `fetch_player_info` and `fetch_and_process_image` (api.py:13-29). The player record is an `Option<Account>` parameter and each image fetch's success is a field of `Outcomes`. A player-info answer that is not JSON, or a network exception there, makes the source fail with an error page of the framework's own; the model folds these into the `None` case.
- Pixels: PIL decoding, `convert("RGBA")`, `resize`, alpha-masked `paste` and the PNG encoding (api.py:23-25, 98-99, 106, 114, 121, 125). A layer records only its box, so the model does not show that resizing is exact or that transparent pixels keep the background.
- Concurrency: the outfit slots are resolved and fetched in worker threads (api.py:10, 74, 95) that share the claimed-id set. The model resolves the slots one after another in table order. Under some thread schedules the source could give an id to a later slot of the same prefix, or to two slots; the model does not cover that.
- JSON navigation with `.get(...)` defaults (api.py:47-50): the record arrives already parsed, with missing lists read as empty. Ids are integers; ids of other JSON types are not modelled.
- Endpoint.EarlyCalls, Endpoint.IconCalls and Endpoint.OutfitImage record the upstream calls in one sequential order. In the source the seven icon fetches run in a worker pool (api.py:10, 73-74) at the same time as the background fetch (api.py:78), so they need not run in slot order, the background need not come last, and a 500 for a failed background can be answered before the icon fetches finish. What the source does fix, and the model states, is which calls are made, that the player record comes first, and that the pet, avatar and weapon fetches come after the background.
- URL templates, including the `.pg` extension for pet and weapon icons (api.py:70, 103, 110, 118): an upstream call is recorded by the id it uses, not by its URL.
- The background image's own URL and its resize to 1024x1024 (api.py:77-78): only its success or failure is modelled.
