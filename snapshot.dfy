/**
 * The player record the service receives from the player-info API, already
 * parsed, and the values it derives from it: the weapon id, whether a pet or
 * weapon layer is attempted, and the skill id used to look up the avatar.
 */
module Snapshot {
  import opened Wrappers
  import opened PyStr

  /**
   * The fields the handler reads. A missing outfit, skill or weapon list reads
   * as empty (the `.get(..., [])` defaults); a missing pet id reads as `None`.
   */
  datatype Account = Account(
    outfit: seq<int>,   // AccountProfileInfo.EquippedOutfit
    skills: seq<int>,   // AccountProfileInfo.EquippedSkills
    petId: Option<int>, // petInfo.id
    weapons: seq<int>)  // AccountInfo.EquippedWeapon

  /** Python truthiness of an optional integer id: present and non-zero. */
  predicate Truthy(id: Option<int>) {
    id.Some? && id.value != 0
  }

  /** The first equipped weapon, or nothing when none is equipped. */
  function WeaponId(a: Account): (r: Option<int>)
    ensures r.None? <==> a.weapons == []
    ensures r.Some? ==> r.value == a.weapons[0]
  {
    if |a.weapons| > 0 then Some(a.weapons[0]) else None
  }

  /** The pet layer is attempted only for a truthy pet id. */
  predicate PetShown(a: Account) {
    Truthy(a.petId)
  }

  /** The weapon layer is attempted only for a truthy first weapon id (so an id 0 is skipped). */
  predicate WeaponShown(a: Account) {
    Truthy(WeaponId(a))
  }

  /** Avatar id used when no equipped skill qualifies. */
  const DefaultAvatarId: int := 406

  predicate EndsIn06(skill: int) {
    EndsWith(DecimalString(skill), "06")
  }

  /** Index of the first skill at or after `from` whose rendering ends in "06". */
  function FirstEndingIn06(skills: seq<int>, from: nat): (r: Option<nat>)
    requires from <= |skills|
    ensures r.Some? ==> from <= r.value < |skills| && EndsIn06(skills[r.value])
    ensures forall j :: from <= j < (if r.Some? then r.value else |skills|) ==> !EndsIn06(skills[j])
    decreases |skills| - from
  {
    if from == |skills| then None
    else if EndsIn06(skills[from]) then Some(from)
    else FirstEndingIn06(skills, from + 1)
  }

  /**
   * The skill id the avatar portrait is looked up by: the first equipped skill
   * whose decimal rendering ends in "06", or `DefaultAvatarId` when none does.
   */
  function AvatarId(skills: seq<int>): (r: int)
    ensures (forall j :: 0 <= j < |skills| ==> !EndsIn06(skills[j])) ==> r == DefaultAvatarId
    ensures (exists j :: 0 <= j < |skills| && EndsIn06(skills[j])) ==>
              exists i :: 0 <= i < |skills| && skills[i] == r && EndsIn06(r) &&
                forall j :: 0 <= j < i ==> !EndsIn06(skills[j])
  {
    match FirstEndingIn06(skills, 0)
    case Some(i) => skills[i]
    case None => DefaultAvatarId
  }

  lemma {:induction false} FirstEndingIn06Append(skills: seq<int>, more: seq<int>, from: nat)
    requires from <= |skills|
    requires FirstEndingIn06(skills, from).Some?
    ensures FirstEndingIn06(skills + more, from) == FirstEndingIn06(skills, from)
    decreases |skills| - from
  {
    var all := skills + more;
    assert all[from] == skills[from];
    if EndsIn06(skills[from]) {
      assert FirstEndingIn06(all, from) == Some(from);
    } else {
      assert FirstEndingIn06(all, from) == FirstEndingIn06(all, from + 1);
      FirstEndingIn06Append(skills, more, from + 1);
    }
  }

  /** Later skills never matter once an earlier one qualifies. */
  lemma AvatarIdIgnoresLaterSkills(skills: seq<int>, more: seq<int>)
    requires exists j :: 0 <= j < |skills| && EndsIn06(skills[j])
    ensures AvatarId(skills + more) == AvatarId(skills)
  {
    FirstEndingIn06Append(skills, more, 0);
  }

  /** [105, 206, 306]: the second skill is the first ending in "06". */
  lemma AvatarIdExampleMatch()
    ensures AvatarId([105, 206, 306]) == 206
  {
    assert DecimalString(105) == "105";
    assert DecimalString(206) == "206";
    assert !EndsIn06(105) && EndsIn06(206);
    assert FirstEndingIn06([105, 206, 306], 0) == Some(1);
  }

  /** [101, 102]: no skill ends in "06", so the default is used. */
  lemma AvatarIdExampleDefault()
    ensures AvatarId([101, 102]) == DefaultAvatarId
  {
    assert DecimalString(101) == "101";
    assert DecimalString(102) == "102";
  }
}
