/**
 * The picture as an ordered list of pastes onto the 1024x1024 background. Pixels
 * are abstract: a layer is where an image goes and how large it is drawn. Each
 * layer has a fixed place; a layer whose image could not be fetched is skipped
 * and the others stay where they are.
 */
module Compositor {
  import opened Wrappers
  import opened Snapshot
  import Resolver

  /** Side of the square background canvas. */
  const CanvasSize: int := 1024

  /** Which image a layer shows. */
  datatype Source = OutfitSlot(slot: nat) | Pet | Avatar | Weapon

  /** One paste: the image's source, its top-left corner and its drawn size. */
  datatype Layer = Layer(source: Source, x: int, y: int, width: int, height: int)

  /** The outfit slots' places on the canvas, in slot order. */
  const OutfitLayers: seq<Layer> := [
    Layer(OutfitSlot(0), 760, 92, 170, 170),
    Layer(OutfitSlot(1), 810, 310, 170, 120),
    Layer(OutfitSlot(2), 790, 490, 170, 170),
    Layer(OutfitSlot(3), 72, 505, 170, 170),
    Layer(OutfitSlot(4), 130, 792, 170, 170),
    Layer(OutfitSlot(5), 728, 760, 170, 170),
    Layer(OutfitSlot(6), 72, 230, 170, 170)
  ]

  const PetLayer: Layer := Layer(Pet, 700, 700, 140, 170)

  const AvatarWidth: int := 650
  const AvatarHeight: int := 780

  /** The avatar is centred horizontally (Python `//`, which for these positive operands is `/`) at y = 145. */
  function AvatarLayer(): (l: Layer)
    ensures l.source == Avatar && l.width == AvatarWidth && l.height == AvatarHeight
    ensures l.y == 145
    ensures 0 <= l.x && l.x + l.width <= CanvasSize
    ensures l.x - (CanvasSize - (l.x + l.width)) in {-1, 0}
  {
    Layer(Avatar, (CanvasSize - AvatarWidth) / 2, 145, AvatarWidth, AvatarHeight)
  }

  const WeaponLayer: Layer := Layer(Weapon, 670, 564, 330, 200)

  predicate KnownSource(s: Source) {
    s.OutfitSlot? ==> s.slot < Resolver.SlotCount
  }

  /** The fixed place of each source's layer. */
  function FixedLayer(s: Source): (l: Layer)
    requires KnownSource(s)
    ensures l.source == s
  {
    match s
    case OutfitSlot(i) => OutfitLayers[i]
    case Pet => PetLayer
    case Avatar => AvatarLayer()
    case Weapon => WeaponLayer
  }

  /** Position of a source in the paste order: outfit slots 0..6, then pet, avatar, weapon. */
  function Rank(s: Source): nat {
    match s
    case OutfitSlot(i) => i
    case Pet => 7
    case Avatar => 8
    case Weapon => 9
  }

  /**
   * Every layer the handler tries to paste for an account, in paste order: the
   * seven outfit slots, the pet when its id is truthy, the avatar, and the weapon
   * when the first weapon id is truthy.
   */
  function FullPlan(a: Account): (plan: seq<Layer>)
    ensures |plan| == 8 + (if PetShown(a) then 1 else 0) + (if WeaponShown(a) then 1 else 0)
    ensures plan[..Resolver.SlotCount] == OutfitLayers
    ensures plan[|plan| - 1] == (if WeaponShown(a) then WeaponLayer else AvatarLayer())
    ensures PetShown(a) ==> plan[Resolver.SlotCount] == PetLayer
  {
    OutfitLayers
    + (if PetShown(a) then [PetLayer] else [])
    + [AvatarLayer()]
    + (if WeaponShown(a) then [WeaponLayer] else [])
  }

  /**
   * Whether each attempted image fetch produced an image. Outfit fetches are per
   * slot; the background fetch gates the whole picture.
   */
  datatype Outcomes = Outcomes(background: bool, failedSlots: set<nat>, pet: bool, avatar: bool, weapon: bool)

  predicate Present(o: Outcomes, s: Source) {
    match s
    case OutfitSlot(i) => i !in o.failedSlots
    case Pet => o.pet
    case Avatar => o.avatar
    case Weapon => o.weapon
  }

  /** The layers of `plan` whose image is present, in their original order. */
  function Keep(plan: seq<Layer>, o: Outcomes): seq<Layer> {
    if plan == [] then []
    else Keep(plan[..|plan| - 1], o) + (if Present(o, plan[|plan| - 1].source) then [plan[|plan| - 1]] else [])
  }

  lemma KeepSnoc(plan: seq<Layer>, l: Layer, o: Outcomes)
    ensures Keep(plan + [l], o) == Keep(plan, o) + (if Present(o, l.source) then [l] else [])
  {
    assert (plan + [l])[..|plan|] == plan;
  }

  /** The kept layers of the whole plan: the kept outfit slots, then each extra layer that is shown and present. */
  lemma KeepFullPlan(a: Account, o: Outcomes)
    ensures Keep(FullPlan(a), o) ==
              Keep(OutfitLayers, o)
              + (if PetShown(a) && o.pet then [PetLayer] else [])
              + (if o.avatar then [AvatarLayer()] else [])
              + (if WeaponShown(a) && o.weapon then [WeaponLayer] else [])
  {
    var withPet := OutfitLayers + (if PetShown(a) then [PetLayer] else []);
    if PetShown(a) {
      KeepSnoc(OutfitLayers, PetLayer, o);
    } else {
      assert withPet == OutfitLayers;
    }
    var withAvatar := withPet + [AvatarLayer()];
    KeepSnoc(withPet, AvatarLayer(), o);
    if WeaponShown(a) {
      KeepSnoc(withAvatar, WeaponLayer, o);
    } else {
      assert FullPlan(a) == withAvatar;
    }
  }

  /**
   * The paste sequence: the outfit loop, then the pet, avatar and weapon blocks.
   * `layers` is what gets pasted, in order.
   */
  method Composite(a: Account, o: Outcomes) returns (layers: seq<Layer>)
    ensures layers == Keep(FullPlan(a), o)
  {
    layers := [];
    for idx := 0 to Resolver.SlotCount
      invariant layers == Keep(OutfitLayers[..idx], o)
    {
      KeepSnoc(OutfitLayers[..idx], OutfitLayers[idx], o);
      assert OutfitLayers[..idx + 1] == OutfitLayers[..idx] + [OutfitLayers[idx]];
      if idx !in o.failedSlots {
        layers := layers + [OutfitLayers[idx]];
      }
    }
    assert OutfitLayers[..Resolver.SlotCount] == OutfitLayers;
    ghost var pasted := layers;
    if PetShown(a) {
      if o.pet {
        layers := layers + [PetLayer];
      }
    }
    pasted := pasted + (if PetShown(a) && o.pet then [PetLayer] else []);
    assert layers == pasted;
    var avatar := AvatarLayer();
    if o.avatar {
      layers := layers + [avatar];
    }
    pasted := pasted + (if o.avatar then [AvatarLayer()] else []);
    assert layers == pasted;
    if WeaponShown(a) {
      if o.weapon {
        layers := layers + [WeaponLayer];
      }
    }
    KeepFullPlan(a, o);
  }

  // ---------------------------------------------------------------------------
  // Properties of the paste sequence

  /** Each layer comes strictly later in the paste order than the one before it. */
  predicate StrictlyRanked(ls: seq<Layer>) {
    forall i, j :: 0 <= i < j < |ls| ==> Rank(ls[i].source) < Rank(ls[j].source)
  }

  /** The layers kept are exactly the planned layers whose image is present. */
  lemma {:induction false} KeepMembers(plan: seq<Layer>, o: Outcomes, l: Layer)
    ensures l in Keep(plan, o) <==> l in plan && Present(o, l.source)
    decreases |plan|
  {
    if plan != [] {
      var init, last := plan[..|plan| - 1], plan[|plan| - 1];
      KeepMembers(init, o, l);
      assert plan == init + [last];
    }
  }

  /** Skipping layers never reorders the ones that remain. */
  lemma {:induction false} KeepRanked(plan: seq<Layer>, o: Outcomes)
    requires StrictlyRanked(plan)
    ensures StrictlyRanked(Keep(plan, o))
    decreases |plan|
  {
    if plan != [] {
      var init, last := plan[..|plan| - 1], plan[|plan| - 1];
      KeepRanked(init, o);
      var kept := Keep(init, o);
      forall l | l in kept ensures Rank(l.source) < Rank(last.source) {
        KeepMembers(init, o, l);
        var i :| 0 <= i < |init| && init[i] == l;
        assert plan[i] == l;
      }
      if Present(o, last.source) {
        var ls := kept + [last];
        forall i, j | 0 <= i < j < |ls| ensures Rank(ls[i].source) < Rank(ls[j].source) {
          if j == |kept| {
            assert ls[i] in kept;
          } else {
            assert ls[i] == kept[i] && ls[j] == kept[j];
          }
        }
      }
    }
  }

  lemma FullPlanRanked(a: Account)
    ensures StrictlyRanked(FullPlan(a))
  {
    var plan := FullPlan(a);
    forall i, j | 0 <= i < j < |plan| ensures Rank(plan[i].source) < Rank(plan[j].source) {
      if j < 7 {
        assert plan[i] == OutfitLayers[i] && plan[j] == OutfitLayers[j];
      } else if i < 7 {
        assert plan[i] == OutfitLayers[i];
      }
    }
  }

  /**
   * Paste order: outfit slots in slot order, then the pet, then the avatar, then
   * the weapon, whichever of them are present.
   */
  lemma PasteOrder(a: Account, o: Outcomes)
    ensures StrictlyRanked(Keep(FullPlan(a), o))
  {
    FullPlanRanked(a);
    KeepRanked(FullPlan(a), o);
  }

  /**
   * A layer is pasted exactly when it is planned for the account and its image
   * is present, and it is pasted at its fixed place whatever else is missing.
   */
  lemma FixedPlaces(a: Account, o: Outcomes, l: Layer)
    ensures l in Keep(FullPlan(a), o) <==> l in FullPlan(a) && Present(o, l.source)
    ensures l in Keep(FullPlan(a), o) ==> KnownSource(l.source) && l == FixedLayer(l.source)
  {
    KeepMembers(FullPlan(a), o, l);
    if l in FullPlan(a) {
      var i :| 0 <= i < |FullPlan(a)| && FullPlan(a)[i] == l;
      if i < 7 {
        assert l == OutfitLayers[i];
      }
    }
  }

  /**
   * The pet layer is planned exactly for a non-zero pet id, the weapon layer
   * exactly for a non-zero first weapon id, and the avatar layer always.
   */
  lemma PlannedExtras(a: Account)
    ensures PetLayer in FullPlan(a) <==> a.petId.Some? && a.petId.value != 0
    ensures WeaponLayer in FullPlan(a) <==> |a.weapons| > 0 && a.weapons[0] != 0
    ensures AvatarLayer() in FullPlan(a)
    ensures |FullPlan(a)| == 8 + (if PetShown(a) then 1 else 0) + (if WeaponShown(a) then 1 else 0)
  {
    var plan := FullPlan(a);
    assert plan[..7] == OutfitLayers;
    assert forall l :: l in OutfitLayers ==> l.source.OutfitSlot?;
  }

  /** The layers of `ls` that do not show `s`. */
  function Without(ls: seq<Layer>, s: Source): seq<Layer> {
    if ls == [] then []
    else Without(ls[..|ls| - 1], s) + (if ls[|ls| - 1].source != s then [ls[|ls| - 1]] else [])
  }

  /**
   * One more failed outfit fetch removes that slot's layer and nothing else:
   * every other layer is pasted as before, in the same order, at the same place.
   */
  lemma {:induction false} ExtraFailedSlot(plan: seq<Layer>, o: Outcomes, i: nat)
    ensures Keep(plan, o.(failedSlots := o.failedSlots + {i})) == Without(Keep(plan, o), OutfitSlot(i))
    decreases |plan|
  {
    if plan != [] {
      var init, last := plan[..|plan| - 1], plan[|plan| - 1];
      var o' := o.(failedSlots := o.failedSlots + {i});
      ExtraFailedSlot(init, o, i);
      var kept := Keep(init, o);
      assert Present(o', last.source) <==> Present(o, last.source) && last.source != OutfitSlot(i);
      if Present(o, last.source) {
        assert (kept + [last])[..|kept|] == kept;
      } else {
        assert kept + [] == kept;
      }
    }
  }

  /** When only slot `i`'s icon fails, the picture is the full one minus that slot's layer. */
  lemma OneSlotFailure(a: Account, o: Outcomes, i: nat)
    requires o.failedSlots == {i}
    ensures Keep(FullPlan(a), o) == Without(Keep(FullPlan(a), o.(failedSlots := {})), OutfitSlot(i))
  {
    ExtraFailedSlot(FullPlan(a), o.(failedSlots := {}), i);
    assert o.(failedSlots := {}).(failedSlots := {} + {i}) == o;
  }
}
