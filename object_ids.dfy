// The editor's trigger object ids and the `isTriggerID` switch over them
// (src/utils/ObjectIDs.hpp).
module ObjectIds {
  const MOVE_TRIGGER: int := 901
  const STOP_TRIGGER: int := 1616
  const PULSE_TRIGGER: int := 1006
  const ALPHA_TRIGGER: int := 1007
  const TOGGLE_TRIGGER: int := 1049
  const SPAWN_TRIGGER: int := 1268
  const ROTATE_TRIGGER: int := 1346
  const SCALE_TRIGGER: int := 2067
  const FOLLOW_TRIGGER: int := 1347
  const ANIMATE_TRIGGER: int := 1585
  const FOLLOW_PLAYER_Y_TRIGGER: int := 1814
  const ADVANCED_FOLLOW_TRIGGER: int := 3016
  const EDIT_ADVANCED_FOLLOW_TRIGGER: int := 3660
  const RE_TARGET_ADVANCED_FOLLOW_TRIGGER: int := 3661
  const AREA_MOVE_TRIGGER: int := 3006
  const AREA_ROTATE_TRIGGER: int := 3007
  const AREA_SCALE_TRIGGER: int := 3008
  const AREA_FADE_TRIGGER: int := 3009
  const AREA_TINT_TRIGGER: int := 3010
  const EDIT_AREA_MOVE_TRIGGER: int := 3011
  const EDIT_AREA_ROTATE_TRIGGER: int := 3012
  const EDIT_AREA_SCALE_TRIGGER: int := 3013
  const EDIT_AREA_FADE_TRIGGER: int := 3014
  const EDIT_AREA_TINT_TRIGGER: int := 3015
  const CHANGE_BG_TRIGGER: int := 3029
  const CHANGE_GROUND_TRIGGER: int := 3030
  const CHANGE_MIDGROUND_TRIGGER: int := 3031
  const TOUCH_TRIGGER: int := 1595
  const COUNT_TRIGGER: int := 1611
  const INSTANT_COUNT_TRIGGER: int := 1811
  const PICKUP_TRIGGER: int := 1817
  const RANDOM_TRIGGER: int := 1912
  const ADVANCED_RANDOM_TRIGGER: int := 2068
  const SEQUENCE_TRIGGER: int := 3607
  const SPAWN_PARTICLE_TRIGGER: int := 3608
  const RESET_TRIGGER: int := 3618
  const CAMERA_ZOOM_TRIGGER: int := 1913
  const CAMERA_STATIC_TRIGGER: int := 1914
  const CAMERA_OFFSET_TRIGGER: int := 1916
  const CAMERA_GP_OFFSET_TRIGGER: int := 2901
  const CAMERA_ROTATE_TRIGGER: int := 2015
  const CAMERA_EDGE_TRIGGER: int := 2062
  const CAMERA_MODE_TRIGGER: int := 2925
  const COLLISION_TRIGGER: int := 1815
  const TIME_WARP_TRIGGER: int := 1935
  const MIDGROUND_SETUP_TRIGGER: int := 2999
  const BG_SPEED_TRIGGER: int := 3606
  const MIDGROUND_SPEED_TRIGGER: int := 3612
  const INSTANT_COLLISION_TRIGGER: int := 3609
  const ON_DEATH_TRIGGER: int := 1812
  const PLAYER_CONTROL_TRIGGER: int := 1932

  /** `isTriggerID`: one `case` returning true per constant, in declaration order; `default` returns false. */
  predicate IsTriggerId(id: int)
  {
    id == MOVE_TRIGGER || id == STOP_TRIGGER || id == PULSE_TRIGGER
    || id == ALPHA_TRIGGER || id == TOGGLE_TRIGGER || id == SPAWN_TRIGGER
    || id == ROTATE_TRIGGER || id == SCALE_TRIGGER || id == FOLLOW_TRIGGER
    || id == ANIMATE_TRIGGER || id == FOLLOW_PLAYER_Y_TRIGGER || id == ADVANCED_FOLLOW_TRIGGER
    || id == EDIT_ADVANCED_FOLLOW_TRIGGER || id == RE_TARGET_ADVANCED_FOLLOW_TRIGGER || id == AREA_MOVE_TRIGGER
    || id == AREA_ROTATE_TRIGGER || id == AREA_SCALE_TRIGGER || id == AREA_FADE_TRIGGER
    || id == AREA_TINT_TRIGGER || id == EDIT_AREA_MOVE_TRIGGER || id == EDIT_AREA_ROTATE_TRIGGER
    || id == EDIT_AREA_SCALE_TRIGGER || id == EDIT_AREA_FADE_TRIGGER || id == EDIT_AREA_TINT_TRIGGER
    || id == CHANGE_BG_TRIGGER || id == CHANGE_GROUND_TRIGGER || id == CHANGE_MIDGROUND_TRIGGER
    || id == TOUCH_TRIGGER || id == COUNT_TRIGGER || id == INSTANT_COUNT_TRIGGER
    || id == PICKUP_TRIGGER || id == RANDOM_TRIGGER || id == ADVANCED_RANDOM_TRIGGER
    || id == SEQUENCE_TRIGGER || id == SPAWN_PARTICLE_TRIGGER || id == RESET_TRIGGER
    || id == CAMERA_ZOOM_TRIGGER || id == CAMERA_STATIC_TRIGGER || id == CAMERA_OFFSET_TRIGGER
    || id == CAMERA_GP_OFFSET_TRIGGER || id == CAMERA_ROTATE_TRIGGER || id == CAMERA_EDGE_TRIGGER
    || id == CAMERA_MODE_TRIGGER || id == COLLISION_TRIGGER || id == TIME_WARP_TRIGGER
    || id == MIDGROUND_SETUP_TRIGGER || id == BG_SPEED_TRIGGER || id == MIDGROUND_SPEED_TRIGGER
    || id == INSTANT_COLLISION_TRIGGER || id == ON_DEATH_TRIGGER || id == PLAYER_CONTROL_TRIGGER
  }

  /** The same 51 constants as a set, in ascending id order, split into three runs of 17. */
  const LowTriggerIds: set<int> := {
    MOVE_TRIGGER, PULSE_TRIGGER, ALPHA_TRIGGER, TOGGLE_TRIGGER,
    SPAWN_TRIGGER, ROTATE_TRIGGER, FOLLOW_TRIGGER, ANIMATE_TRIGGER,
    TOUCH_TRIGGER, COUNT_TRIGGER, STOP_TRIGGER, INSTANT_COUNT_TRIGGER,
    ON_DEATH_TRIGGER, FOLLOW_PLAYER_Y_TRIGGER, COLLISION_TRIGGER, PICKUP_TRIGGER,
    RANDOM_TRIGGER
  }
  const MiddleTriggerIds: set<int> := {
    CAMERA_ZOOM_TRIGGER, CAMERA_STATIC_TRIGGER, CAMERA_OFFSET_TRIGGER, PLAYER_CONTROL_TRIGGER,
    TIME_WARP_TRIGGER, CAMERA_ROTATE_TRIGGER, CAMERA_EDGE_TRIGGER, SCALE_TRIGGER,
    ADVANCED_RANDOM_TRIGGER, CAMERA_GP_OFFSET_TRIGGER, CAMERA_MODE_TRIGGER, MIDGROUND_SETUP_TRIGGER,
    AREA_MOVE_TRIGGER, AREA_ROTATE_TRIGGER, AREA_SCALE_TRIGGER, AREA_FADE_TRIGGER,
    AREA_TINT_TRIGGER
  }
  const HighTriggerIds: set<int> := {
    EDIT_AREA_MOVE_TRIGGER, EDIT_AREA_ROTATE_TRIGGER, EDIT_AREA_SCALE_TRIGGER, EDIT_AREA_FADE_TRIGGER,
    EDIT_AREA_TINT_TRIGGER, ADVANCED_FOLLOW_TRIGGER, CHANGE_BG_TRIGGER, CHANGE_GROUND_TRIGGER,
    CHANGE_MIDGROUND_TRIGGER, BG_SPEED_TRIGGER, SEQUENCE_TRIGGER, SPAWN_PARTICLE_TRIGGER,
    INSTANT_COLLISION_TRIGGER, MIDGROUND_SPEED_TRIGGER, RESET_TRIGGER, EDIT_ADVANCED_FOLLOW_TRIGGER,
    RE_TARGET_ADVANCED_FOLLOW_TRIGGER
  }
  const TriggerIdSet: set<int> := LowTriggerIds + MiddleTriggerIds + HighTriggerIds

  /** `isTriggerID` is membership in the set of named constants: true for each case label and false for every other id. */
  lemma IsTriggerIdIffNamed(id: int)
    ensures IsTriggerId(id) <==> id in TriggerIdSet
  {
  }

  /** The run LowTriggerIds holds 17 distinct ids between 901 and 1912. */
  lemma LowTriggerIdsDistinct()
    ensures |LowTriggerIds| == 17
    ensures forall y :: y in LowTriggerIds ==> MOVE_TRIGGER <= y <= RANDOM_TRIGGER
  {
    assert |{MOVE_TRIGGER, PULSE_TRIGGER}| == 2;
    assert |{MOVE_TRIGGER, PULSE_TRIGGER, ALPHA_TRIGGER}| == 3;
    assert |{MOVE_TRIGGER, PULSE_TRIGGER, ALPHA_TRIGGER, TOGGLE_TRIGGER}| == 4;
    assert |{MOVE_TRIGGER, PULSE_TRIGGER, ALPHA_TRIGGER, TOGGLE_TRIGGER, SPAWN_TRIGGER}| == 5;
    assert |{MOVE_TRIGGER, PULSE_TRIGGER, ALPHA_TRIGGER, TOGGLE_TRIGGER, SPAWN_TRIGGER, ROTATE_TRIGGER}| == 6;
    assert |{MOVE_TRIGGER, PULSE_TRIGGER, ALPHA_TRIGGER, TOGGLE_TRIGGER, SPAWN_TRIGGER, ROTATE_TRIGGER, FOLLOW_TRIGGER}| == 7;
    assert |{MOVE_TRIGGER, PULSE_TRIGGER, ALPHA_TRIGGER, TOGGLE_TRIGGER, SPAWN_TRIGGER, ROTATE_TRIGGER, FOLLOW_TRIGGER, ANIMATE_TRIGGER}| == 8;
    assert |{MOVE_TRIGGER, PULSE_TRIGGER, ALPHA_TRIGGER, TOGGLE_TRIGGER, SPAWN_TRIGGER, ROTATE_TRIGGER, FOLLOW_TRIGGER, ANIMATE_TRIGGER, TOUCH_TRIGGER}| == 9;
    assert |{MOVE_TRIGGER, PULSE_TRIGGER, ALPHA_TRIGGER, TOGGLE_TRIGGER, SPAWN_TRIGGER, ROTATE_TRIGGER, FOLLOW_TRIGGER, ANIMATE_TRIGGER, TOUCH_TRIGGER, COUNT_TRIGGER}| == 10;
    assert |{MOVE_TRIGGER, PULSE_TRIGGER, ALPHA_TRIGGER, TOGGLE_TRIGGER, SPAWN_TRIGGER, ROTATE_TRIGGER, FOLLOW_TRIGGER, ANIMATE_TRIGGER, TOUCH_TRIGGER, COUNT_TRIGGER, STOP_TRIGGER}| == 11;
    assert |{MOVE_TRIGGER, PULSE_TRIGGER, ALPHA_TRIGGER, TOGGLE_TRIGGER, SPAWN_TRIGGER, ROTATE_TRIGGER, FOLLOW_TRIGGER, ANIMATE_TRIGGER, TOUCH_TRIGGER, COUNT_TRIGGER, STOP_TRIGGER, INSTANT_COUNT_TRIGGER}| == 12;
    assert |{MOVE_TRIGGER, PULSE_TRIGGER, ALPHA_TRIGGER, TOGGLE_TRIGGER, SPAWN_TRIGGER, ROTATE_TRIGGER, FOLLOW_TRIGGER, ANIMATE_TRIGGER, TOUCH_TRIGGER, COUNT_TRIGGER, STOP_TRIGGER, INSTANT_COUNT_TRIGGER, ON_DEATH_TRIGGER}| == 13;
    assert |{MOVE_TRIGGER, PULSE_TRIGGER, ALPHA_TRIGGER, TOGGLE_TRIGGER, SPAWN_TRIGGER, ROTATE_TRIGGER, FOLLOW_TRIGGER, ANIMATE_TRIGGER, TOUCH_TRIGGER, COUNT_TRIGGER, STOP_TRIGGER, INSTANT_COUNT_TRIGGER, ON_DEATH_TRIGGER, FOLLOW_PLAYER_Y_TRIGGER}| == 14;
    assert |{MOVE_TRIGGER, PULSE_TRIGGER, ALPHA_TRIGGER, TOGGLE_TRIGGER, SPAWN_TRIGGER, ROTATE_TRIGGER, FOLLOW_TRIGGER, ANIMATE_TRIGGER, TOUCH_TRIGGER, COUNT_TRIGGER, STOP_TRIGGER, INSTANT_COUNT_TRIGGER, ON_DEATH_TRIGGER, FOLLOW_PLAYER_Y_TRIGGER, COLLISION_TRIGGER}| == 15;
    assert |{MOVE_TRIGGER, PULSE_TRIGGER, ALPHA_TRIGGER, TOGGLE_TRIGGER, SPAWN_TRIGGER, ROTATE_TRIGGER, FOLLOW_TRIGGER, ANIMATE_TRIGGER, TOUCH_TRIGGER, COUNT_TRIGGER, STOP_TRIGGER, INSTANT_COUNT_TRIGGER, ON_DEATH_TRIGGER, FOLLOW_PLAYER_Y_TRIGGER, COLLISION_TRIGGER, PICKUP_TRIGGER}| == 16;
  }

  /** The run MiddleTriggerIds holds 17 distinct ids between 1913 and 3010. */
  lemma MiddleTriggerIdsDistinct()
    ensures |MiddleTriggerIds| == 17
    ensures forall y :: y in MiddleTriggerIds ==> CAMERA_ZOOM_TRIGGER <= y <= AREA_TINT_TRIGGER
  {
    assert |{CAMERA_ZOOM_TRIGGER, CAMERA_STATIC_TRIGGER}| == 2;
    assert |{CAMERA_ZOOM_TRIGGER, CAMERA_STATIC_TRIGGER, CAMERA_OFFSET_TRIGGER}| == 3;
    assert |{CAMERA_ZOOM_TRIGGER, CAMERA_STATIC_TRIGGER, CAMERA_OFFSET_TRIGGER, PLAYER_CONTROL_TRIGGER}| == 4;
    assert |{CAMERA_ZOOM_TRIGGER, CAMERA_STATIC_TRIGGER, CAMERA_OFFSET_TRIGGER, PLAYER_CONTROL_TRIGGER, TIME_WARP_TRIGGER}| == 5;
    assert |{CAMERA_ZOOM_TRIGGER, CAMERA_STATIC_TRIGGER, CAMERA_OFFSET_TRIGGER, PLAYER_CONTROL_TRIGGER, TIME_WARP_TRIGGER, CAMERA_ROTATE_TRIGGER}| == 6;
    assert |{CAMERA_ZOOM_TRIGGER, CAMERA_STATIC_TRIGGER, CAMERA_OFFSET_TRIGGER, PLAYER_CONTROL_TRIGGER, TIME_WARP_TRIGGER, CAMERA_ROTATE_TRIGGER, CAMERA_EDGE_TRIGGER}| == 7;
    assert |{CAMERA_ZOOM_TRIGGER, CAMERA_STATIC_TRIGGER, CAMERA_OFFSET_TRIGGER, PLAYER_CONTROL_TRIGGER, TIME_WARP_TRIGGER, CAMERA_ROTATE_TRIGGER, CAMERA_EDGE_TRIGGER, SCALE_TRIGGER}| == 8;
    assert |{CAMERA_ZOOM_TRIGGER, CAMERA_STATIC_TRIGGER, CAMERA_OFFSET_TRIGGER, PLAYER_CONTROL_TRIGGER, TIME_WARP_TRIGGER, CAMERA_ROTATE_TRIGGER, CAMERA_EDGE_TRIGGER, SCALE_TRIGGER, ADVANCED_RANDOM_TRIGGER}| == 9;
    assert |{CAMERA_ZOOM_TRIGGER, CAMERA_STATIC_TRIGGER, CAMERA_OFFSET_TRIGGER, PLAYER_CONTROL_TRIGGER, TIME_WARP_TRIGGER, CAMERA_ROTATE_TRIGGER, CAMERA_EDGE_TRIGGER, SCALE_TRIGGER, ADVANCED_RANDOM_TRIGGER, CAMERA_GP_OFFSET_TRIGGER}| == 10;
    assert |{CAMERA_ZOOM_TRIGGER, CAMERA_STATIC_TRIGGER, CAMERA_OFFSET_TRIGGER, PLAYER_CONTROL_TRIGGER, TIME_WARP_TRIGGER, CAMERA_ROTATE_TRIGGER, CAMERA_EDGE_TRIGGER, SCALE_TRIGGER, ADVANCED_RANDOM_TRIGGER, CAMERA_GP_OFFSET_TRIGGER, CAMERA_MODE_TRIGGER}| == 11;
    assert |{CAMERA_ZOOM_TRIGGER, CAMERA_STATIC_TRIGGER, CAMERA_OFFSET_TRIGGER, PLAYER_CONTROL_TRIGGER, TIME_WARP_TRIGGER, CAMERA_ROTATE_TRIGGER, CAMERA_EDGE_TRIGGER, SCALE_TRIGGER, ADVANCED_RANDOM_TRIGGER, CAMERA_GP_OFFSET_TRIGGER, CAMERA_MODE_TRIGGER, MIDGROUND_SETUP_TRIGGER}| == 12;
    assert |{CAMERA_ZOOM_TRIGGER, CAMERA_STATIC_TRIGGER, CAMERA_OFFSET_TRIGGER, PLAYER_CONTROL_TRIGGER, TIME_WARP_TRIGGER, CAMERA_ROTATE_TRIGGER, CAMERA_EDGE_TRIGGER, SCALE_TRIGGER, ADVANCED_RANDOM_TRIGGER, CAMERA_GP_OFFSET_TRIGGER, CAMERA_MODE_TRIGGER, MIDGROUND_SETUP_TRIGGER, AREA_MOVE_TRIGGER}| == 13;
    assert |{CAMERA_ZOOM_TRIGGER, CAMERA_STATIC_TRIGGER, CAMERA_OFFSET_TRIGGER, PLAYER_CONTROL_TRIGGER, TIME_WARP_TRIGGER, CAMERA_ROTATE_TRIGGER, CAMERA_EDGE_TRIGGER, SCALE_TRIGGER, ADVANCED_RANDOM_TRIGGER, CAMERA_GP_OFFSET_TRIGGER, CAMERA_MODE_TRIGGER, MIDGROUND_SETUP_TRIGGER, AREA_MOVE_TRIGGER, AREA_ROTATE_TRIGGER}| == 14;
    assert |{CAMERA_ZOOM_TRIGGER, CAMERA_STATIC_TRIGGER, CAMERA_OFFSET_TRIGGER, PLAYER_CONTROL_TRIGGER, TIME_WARP_TRIGGER, CAMERA_ROTATE_TRIGGER, CAMERA_EDGE_TRIGGER, SCALE_TRIGGER, ADVANCED_RANDOM_TRIGGER, CAMERA_GP_OFFSET_TRIGGER, CAMERA_MODE_TRIGGER, MIDGROUND_SETUP_TRIGGER, AREA_MOVE_TRIGGER, AREA_ROTATE_TRIGGER, AREA_SCALE_TRIGGER}| == 15;
    assert |{CAMERA_ZOOM_TRIGGER, CAMERA_STATIC_TRIGGER, CAMERA_OFFSET_TRIGGER, PLAYER_CONTROL_TRIGGER, TIME_WARP_TRIGGER, CAMERA_ROTATE_TRIGGER, CAMERA_EDGE_TRIGGER, SCALE_TRIGGER, ADVANCED_RANDOM_TRIGGER, CAMERA_GP_OFFSET_TRIGGER, CAMERA_MODE_TRIGGER, MIDGROUND_SETUP_TRIGGER, AREA_MOVE_TRIGGER, AREA_ROTATE_TRIGGER, AREA_SCALE_TRIGGER, AREA_FADE_TRIGGER}| == 16;
  }

  /** The run HighTriggerIds holds 17 distinct ids between 3011 and 3661. */
  lemma HighTriggerIdsDistinct()
    ensures |HighTriggerIds| == 17
    ensures forall y :: y in HighTriggerIds ==> EDIT_AREA_MOVE_TRIGGER <= y <= RE_TARGET_ADVANCED_FOLLOW_TRIGGER
  {
    assert |{EDIT_AREA_MOVE_TRIGGER, EDIT_AREA_ROTATE_TRIGGER}| == 2;
    assert |{EDIT_AREA_MOVE_TRIGGER, EDIT_AREA_ROTATE_TRIGGER, EDIT_AREA_SCALE_TRIGGER}| == 3;
    assert |{EDIT_AREA_MOVE_TRIGGER, EDIT_AREA_ROTATE_TRIGGER, EDIT_AREA_SCALE_TRIGGER, EDIT_AREA_FADE_TRIGGER}| == 4;
    assert |{EDIT_AREA_MOVE_TRIGGER, EDIT_AREA_ROTATE_TRIGGER, EDIT_AREA_SCALE_TRIGGER, EDIT_AREA_FADE_TRIGGER, EDIT_AREA_TINT_TRIGGER}| == 5;
    assert |{EDIT_AREA_MOVE_TRIGGER, EDIT_AREA_ROTATE_TRIGGER, EDIT_AREA_SCALE_TRIGGER, EDIT_AREA_FADE_TRIGGER, EDIT_AREA_TINT_TRIGGER, ADVANCED_FOLLOW_TRIGGER}| == 6;
    assert |{EDIT_AREA_MOVE_TRIGGER, EDIT_AREA_ROTATE_TRIGGER, EDIT_AREA_SCALE_TRIGGER, EDIT_AREA_FADE_TRIGGER, EDIT_AREA_TINT_TRIGGER, ADVANCED_FOLLOW_TRIGGER, CHANGE_BG_TRIGGER}| == 7;
    assert |{EDIT_AREA_MOVE_TRIGGER, EDIT_AREA_ROTATE_TRIGGER, EDIT_AREA_SCALE_TRIGGER, EDIT_AREA_FADE_TRIGGER, EDIT_AREA_TINT_TRIGGER, ADVANCED_FOLLOW_TRIGGER, CHANGE_BG_TRIGGER, CHANGE_GROUND_TRIGGER}| == 8;
    assert |{EDIT_AREA_MOVE_TRIGGER, EDIT_AREA_ROTATE_TRIGGER, EDIT_AREA_SCALE_TRIGGER, EDIT_AREA_FADE_TRIGGER, EDIT_AREA_TINT_TRIGGER, ADVANCED_FOLLOW_TRIGGER, CHANGE_BG_TRIGGER, CHANGE_GROUND_TRIGGER, CHANGE_MIDGROUND_TRIGGER}| == 9;
    assert |{EDIT_AREA_MOVE_TRIGGER, EDIT_AREA_ROTATE_TRIGGER, EDIT_AREA_SCALE_TRIGGER, EDIT_AREA_FADE_TRIGGER, EDIT_AREA_TINT_TRIGGER, ADVANCED_FOLLOW_TRIGGER, CHANGE_BG_TRIGGER, CHANGE_GROUND_TRIGGER, CHANGE_MIDGROUND_TRIGGER, BG_SPEED_TRIGGER}| == 10;
    assert |{EDIT_AREA_MOVE_TRIGGER, EDIT_AREA_ROTATE_TRIGGER, EDIT_AREA_SCALE_TRIGGER, EDIT_AREA_FADE_TRIGGER, EDIT_AREA_TINT_TRIGGER, ADVANCED_FOLLOW_TRIGGER, CHANGE_BG_TRIGGER, CHANGE_GROUND_TRIGGER, CHANGE_MIDGROUND_TRIGGER, BG_SPEED_TRIGGER, SEQUENCE_TRIGGER}| == 11;
    assert |{EDIT_AREA_MOVE_TRIGGER, EDIT_AREA_ROTATE_TRIGGER, EDIT_AREA_SCALE_TRIGGER, EDIT_AREA_FADE_TRIGGER, EDIT_AREA_TINT_TRIGGER, ADVANCED_FOLLOW_TRIGGER, CHANGE_BG_TRIGGER, CHANGE_GROUND_TRIGGER, CHANGE_MIDGROUND_TRIGGER, BG_SPEED_TRIGGER, SEQUENCE_TRIGGER, SPAWN_PARTICLE_TRIGGER}| == 12;
    assert |{EDIT_AREA_MOVE_TRIGGER, EDIT_AREA_ROTATE_TRIGGER, EDIT_AREA_SCALE_TRIGGER, EDIT_AREA_FADE_TRIGGER, EDIT_AREA_TINT_TRIGGER, ADVANCED_FOLLOW_TRIGGER, CHANGE_BG_TRIGGER, CHANGE_GROUND_TRIGGER, CHANGE_MIDGROUND_TRIGGER, BG_SPEED_TRIGGER, SEQUENCE_TRIGGER, SPAWN_PARTICLE_TRIGGER, INSTANT_COLLISION_TRIGGER}| == 13;
    assert |{EDIT_AREA_MOVE_TRIGGER, EDIT_AREA_ROTATE_TRIGGER, EDIT_AREA_SCALE_TRIGGER, EDIT_AREA_FADE_TRIGGER, EDIT_AREA_TINT_TRIGGER, ADVANCED_FOLLOW_TRIGGER, CHANGE_BG_TRIGGER, CHANGE_GROUND_TRIGGER, CHANGE_MIDGROUND_TRIGGER, BG_SPEED_TRIGGER, SEQUENCE_TRIGGER, SPAWN_PARTICLE_TRIGGER, INSTANT_COLLISION_TRIGGER, MIDGROUND_SPEED_TRIGGER}| == 14;
    assert |{EDIT_AREA_MOVE_TRIGGER, EDIT_AREA_ROTATE_TRIGGER, EDIT_AREA_SCALE_TRIGGER, EDIT_AREA_FADE_TRIGGER, EDIT_AREA_TINT_TRIGGER, ADVANCED_FOLLOW_TRIGGER, CHANGE_BG_TRIGGER, CHANGE_GROUND_TRIGGER, CHANGE_MIDGROUND_TRIGGER, BG_SPEED_TRIGGER, SEQUENCE_TRIGGER, SPAWN_PARTICLE_TRIGGER, INSTANT_COLLISION_TRIGGER, MIDGROUND_SPEED_TRIGGER, RESET_TRIGGER}| == 15;
    assert |{EDIT_AREA_MOVE_TRIGGER, EDIT_AREA_ROTATE_TRIGGER, EDIT_AREA_SCALE_TRIGGER, EDIT_AREA_FADE_TRIGGER, EDIT_AREA_TINT_TRIGGER, ADVANCED_FOLLOW_TRIGGER, CHANGE_BG_TRIGGER, CHANGE_GROUND_TRIGGER, CHANGE_MIDGROUND_TRIGGER, BG_SPEED_TRIGGER, SEQUENCE_TRIGGER, SPAWN_PARTICLE_TRIGGER, INSTANT_COLLISION_TRIGGER, MIDGROUND_SPEED_TRIGGER, RESET_TRIGGER, EDIT_ADVANCED_FOLLOW_TRIGGER}| == 16;
  }

  /** The 51 case labels of the switch are pairwise distinct: the set they form has 51 elements. */
  lemma TriggerIdsDistinct()
    ensures |TriggerIdSet| == 51
  {
    LowTriggerIdsDistinct();
    MiddleTriggerIdsDistinct();
    HighTriggerIdsDistinct();
    SeparatedUnionSize(LowTriggerIds, MiddleTriggerIds, MOVE_TRIGGER, RANDOM_TRIGGER, CAMERA_ZOOM_TRIGGER, AREA_TINT_TRIGGER);
    SeparatedUnionSize(LowTriggerIds + MiddleTriggerIds, HighTriggerIds, MOVE_TRIGGER, AREA_TINT_TRIGGER, EDIT_AREA_MOVE_TRIGGER, RE_TARGET_ADVANCED_FOLLOW_TRIGGER);
  }

  /** Two sets of ids lying in disjoint ranges [lo1, hi1] < [lo2, hi2] share nothing, so their union's size is the sum. */
  lemma SeparatedUnionSize(a: set<int>, b: set<int>, lo1: int, hi1: int, lo2: int, hi2: int)
    requires forall y :: y in a ==> lo1 <= y <= hi1
    requires forall y :: y in b ==> lo2 <= y <= hi2
    requires lo1 <= hi1 < lo2 <= hi2
    ensures |a + b| == |a| + |b|
    ensures forall y :: y in a + b ==> lo1 <= y <= hi2
  {
    assert forall y :: y in a ==> y !in b;
    assert a * b == {};
  }

  /** The area triggers (3006..3010) and the edit-area triggers (3011..3015) form one contiguous block of trigger ids. */
  lemma AreaTriggersAreTriggers(id: int)
    requires AREA_MOVE_TRIGGER <= id <= EDIT_AREA_TINT_TRIGGER
    ensures IsTriggerId(id)
  {
  }
}
