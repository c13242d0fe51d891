// Trigger indicators (src/features/TriggerIndicators.cpp): which lines the
// editor draws from a trigger to the objects it targets, their colours, and
// how often the indicators are recalculated.
module TriggerIndicators {
  import opened Wrappers
  import Cocos
  import ObjectIds
  import Editor

  /** A level with more objects in groups than this is "too many". */
  const TOO_MANY_OBJECTS: int := 1000
  /** Recalculation throttle: frames counted before the object count is checked again. */
  const THROTTLE_FRAMES: nat := 50

  /** `GJActionCommand` as the stop trigger stores it; any other stored value is `Unknown`. */
  datatype ActionCommand = Stop | Pause | Resume | Unknown

  /** `TriggerIndicatorColors`. */
  datatype IndicatorColors = NoColors | SelectedOnly | AllColors

  /** `getTriggerColor`: a colour per trigger kind; toggle and stop triggers depend on their settings; anything else is white. */
  function TriggerColor(objectId: int, activateGroup: bool, command: ActionCommand): Cocos.Color3B
  {
    if objectId == ObjectIds.MOVE_TRIGGER || objectId == ObjectIds.AREA_MOVE_TRIGGER || objectId == ObjectIds.EDIT_AREA_MOVE_TRIGGER then Cocos.Color3B(255, 0, 255)
    else if objectId == ObjectIds.ROTATE_TRIGGER || objectId == ObjectIds.AREA_ROTATE_TRIGGER || objectId == ObjectIds.EDIT_AREA_ROTATE_TRIGGER then Cocos.Color3B(127, 127, 255)
    else if objectId == ObjectIds.SCALE_TRIGGER || objectId == ObjectIds.AREA_SCALE_TRIGGER || objectId == ObjectIds.EDIT_AREA_SCALE_TRIGGER then Cocos.Color3B(63, 191, 255)
    else if objectId == ObjectIds.PULSE_TRIGGER || objectId == ObjectIds.AREA_TINT_TRIGGER || objectId == ObjectIds.EDIT_AREA_TINT_TRIGGER then Cocos.Color3B(255, 255, 0)
    else if objectId == ObjectIds.ALPHA_TRIGGER || objectId == ObjectIds.AREA_FADE_TRIGGER || objectId == ObjectIds.EDIT_AREA_FADE_TRIGGER then Cocos.Color3B(0, 255, 255)
    else if objectId == ObjectIds.TOGGLE_TRIGGER then (if activateGroup then Cocos.Color3B(0, 255, 127) else Cocos.Color3B(255, 63, 63))
    else if objectId == ObjectIds.SPAWN_TRIGGER then Cocos.Color3B(35, 204, 127)
    else if objectId == ObjectIds.FOLLOW_TRIGGER then Cocos.Color3B(255, 127, 127)
    else if objectId == ObjectIds.ADVANCED_FOLLOW_TRIGGER || objectId == ObjectIds.EDIT_ADVANCED_FOLLOW_TRIGGER || objectId == ObjectIds.RE_TARGET_ADVANCED_FOLLOW_TRIGGER then Cocos.Color3B(204, 255, 199)
    else if objectId == ObjectIds.ANIMATE_TRIGGER then Cocos.Color3B(255, 183, 0)
    else if objectId == ObjectIds.FOLLOW_PLAYER_Y_TRIGGER then Cocos.Color3B(255, 255, 127)
    else if objectId == ObjectIds.CHANGE_BG_TRIGGER then Cocos.Color3B(127, 255, 255)
    else if objectId == ObjectIds.CHANGE_GROUND_TRIGGER then Cocos.Color3B(255, 255, 127)
    else if objectId == ObjectIds.CHANGE_MIDGROUND_TRIGGER then Cocos.Color3B(255, 127, 255)
    else if objectId == ObjectIds.TOUCH_TRIGGER then Cocos.Color3B(0, 137, 178)
    else if objectId == ObjectIds.COUNT_TRIGGER then Cocos.Color3B(255, 183, 252)
    else if objectId == ObjectIds.INSTANT_COUNT_TRIGGER then Cocos.Color3B(255, 135, 255)
    else if objectId == ObjectIds.PICKUP_TRIGGER then Cocos.Color3B(255, 109, 0)
    else if objectId == ObjectIds.RANDOM_TRIGGER then Cocos.Color3B(63, 127, 255)
    else if objectId == ObjectIds.STOP_TRIGGER then
      (match command
       case Pause => Cocos.Color3B(255, 63, 0)
       case Resume => Cocos.Color3B(63, 255, 0)
       case _ => Cocos.Color3B(163, 0, 86))
    else if objectId == ObjectIds.ADVANCED_RANDOM_TRIGGER || objectId == ObjectIds.SEQUENCE_TRIGGER then Cocos.Color3B(165, 94, 255)
    else if objectId == ObjectIds.SPAWN_PARTICLE_TRIGGER then Cocos.Color3B(150, 150, 150)
    else if objectId == ObjectIds.RESET_TRIGGER then Cocos.Color3B(255, 100, 0)
    else if objectId == ObjectIds.CAMERA_ZOOM_TRIGGER then Cocos.Color3B(127, 127, 255)
    else if objectId == ObjectIds.CAMERA_STATIC_TRIGGER then Cocos.Color3B(255, 127, 127)
    else if objectId == ObjectIds.CAMERA_ROTATE_TRIGGER then Cocos.Color3B(255, 245, 0)
    else if objectId == ObjectIds.CAMERA_EDGE_TRIGGER then Cocos.Color3B(0, 199, 255)
    else if objectId == ObjectIds.CAMERA_MODE_TRIGGER then Cocos.Color3B(191, 255, 0)
    else if objectId == ObjectIds.COLLISION_TRIGGER then Cocos.Color3B(83, 66, 250)
    else if objectId == ObjectIds.TIME_WARP_TRIGGER then Cocos.Color3B(153, 127, 153)
    else if objectId == ObjectIds.BG_SPEED_TRIGGER then Cocos.Color3B(127, 255, 255)
    else if objectId == ObjectIds.ON_DEATH_TRIGGER then Cocos.Color3B(204, 101, 101)
    else if objectId == ObjectIds.PLAYER_CONTROL_TRIGGER then Cocos.Color3B(101, 255, 255)
    else if objectId == ObjectIds.MIDGROUND_SETUP_TRIGGER || objectId == ObjectIds.MIDGROUND_SPEED_TRIGGER then Cocos.Color3B(255, 127, 255)
    else if objectId == ObjectIds.CAMERA_OFFSET_TRIGGER || objectId == ObjectIds.CAMERA_GP_OFFSET_TRIGGER then Cocos.Color3B(127, 255, 127)
    else Cocos.WHITE
  }

  /**
   * Colour rules worth naming: every colour is a valid RGB triple; only triggers
   * get a non-white colour; the toggle colour follows `activateGroup`; the stop
   * colour follows the command, with unknown commands drawn as Stop.
   */
  lemma TriggerColorRules(objectId: int, activateGroup: bool, command: ActionCommand)
    ensures Cocos.ValidColor(TriggerColor(objectId, activateGroup, command))
    ensures !ObjectIds.IsTriggerId(objectId) ==> TriggerColor(objectId, activateGroup, command) == Cocos.WHITE
    ensures TriggerColor(ObjectIds.TOGGLE_TRIGGER, activateGroup, command)
      == (if activateGroup then Cocos.Color3B(0, 255, 127) else Cocos.Color3B(255, 63, 63))
    ensures TriggerColor(ObjectIds.STOP_TRIGGER, activateGroup, Unknown) == TriggerColor(ObjectIds.STOP_TRIGGER, activateGroup, Stop)
    ensures TriggerColor(ObjectIds.STOP_TRIGGER, activateGroup, Pause) != TriggerColor(ObjectIds.STOP_TRIGGER, activateGroup, Stop)
    ensures TriggerColor(ObjectIds.STOP_TRIGGER, activateGroup, Resume) != TriggerColor(ObjectIds.STOP_TRIGGER, activateGroup, Stop)
  {
  }

  /** The instant collision trigger is a trigger id without a colour case, so it is drawn white. */
  lemma InstantCollisionIsWhite(activateGroup: bool, command: ActionCommand)
    ensures ObjectIds.IsTriggerId(ObjectIds.INSTANT_COLLISION_TRIGGER)
    ensures TriggerColor(ObjectIds.INSTANT_COLLISION_TRIGGER, activateGroup, command) == Cocos.WHITE
  {
  }

  /** `usesDashedLine`: center slots are drawn dashed. */
  predicate UsesDashedLine(slot: Editor.SlotType)
  {
    slot == Editor.Center
  }

  /** `parseTriggerIndicatorColors`: "None" and "All" are recognised; any other text means "Selected Only". */
  function ParseIndicatorColors(s: string): (c: IndicatorColors)
    ensures c == NoColors <==> s == "None"
    ensures c == AllColors <==> s == "All"
    ensures c == SelectedOnly <==> s != "None" && s != "All"
  {
    if s == "None" then NoColors
    else if s == "All" then AllColors
    else SelectedOnly
  }

  /** `shouldRender`: a selected end always draws; otherwise the indicator kind must be on and either end visible. */
  predicate ShouldRender(triggerSelected: bool, targetSelected: bool, triggerVisible: bool, targetVisible: bool, renderTypeOfIndicator: bool)
  {
    if triggerSelected || targetSelected then true
    else renderTypeOfIndicator && (triggerVisible || targetVisible)
  }

  /** Selection overrides the view options; with neither end selected nor visible nothing draws. */
  lemma ShouldRenderCases(ts: bool, os: bool, tv: bool, ov: bool, show: bool)
    ensures ts || os ==> ShouldRender(ts, os, tv, ov, show)
    ensures !ts && !os && !tv && !ov ==> !ShouldRender(ts, os, tv, ov, show)
    ensures !ts && !os && !show ==> !ShouldRender(ts, os, tv, ov, show)
    ensures ShouldRender(ts, os, tv, ov, show) ==> ShouldRender(ts, os, tv, ov, true)
  {
  }

  /** The line colour of an output slot: the trigger's colour unless colouring is off, then green for targets and cyan for centers. */
  function SlotLineColor(colors: IndicatorColors, objectId: int, activateGroup: bool, command: ActionCommand, centerSlot: bool): (c: Cocos.Color3B)
    ensures Cocos.ValidColor(c)
    ensures colors != NoColors ==> c == TriggerColor(objectId, activateGroup, command)
    ensures colors == NoColors ==> c == (if centerSlot then Cocos.Color3B(0, 255, 255) else Cocos.Color3B(0, 255, 0))
  {
    TriggerColorRules(objectId, activateGroup, command);
    if colors != NoColors then TriggerColor(objectId, activateGroup, command)
    else if centerSlot then Cocos.Color3B(0, 255, 255)
    else Cocos.Color3B(0, 255, 0)
  }

  /** One line drawn from an output slot: its colour and whether it is dashed. */
  datatype SlotLine = SlotLine(color: Cocos.Color3B, dashed: bool)

  /**
   * The lines a trigger draws from its output slots: the target slot's first,
   * then the center slot's, each only when the trigger has that slot.
   */
  function OutputLines(colors: IndicatorColors, objectId: int, activateGroup: bool, command: ActionCommand): (lines: seq<SlotLine>)
    ensures |lines| == Editor.OutputSlotCount(Editor.TriggerSlots(objectId).1)
    ensures forall i :: 0 <= i < |lines| ==> Cocos.ValidColor(lines[i].color)
    ensures colors != NoColors ==> forall i :: 0 <= i < |lines| ==> lines[i].color == TriggerColor(objectId, activateGroup, command)
    ensures colors == NoColors && |lines| == 2 ==> lines[0].color != lines[1].color
    ensures forall i :: 0 <= i < |lines| ==>
      (lines[i].dashed <==> (if i == 0 && Editor.TriggerSlots(objectId).1.targetGroupId.Some?
                             then Editor.TriggerSlots(objectId).1.targetGroupId
                             else Editor.TriggerSlots(objectId).1.centerGroupId) == Some(Editor.Center))
  {
    var slots := Editor.TriggerSlots(objectId).1;
    (if slots.targetGroupId.Some?
     then [SlotLine(SlotLineColor(colors, objectId, activateGroup, command, false), UsesDashedLine(slots.targetGroupId.value))]
     else [])
    + (if slots.centerGroupId.Some?
       then [SlotLine(SlotLineColor(colors, objectId, activateGroup, command, true), UsesDashedLine(slots.centerGroupId.value))]
       else [])
  }

  /** The slot markers drawn beside a visible (or selected) trigger: output target, output center, input target. */
  function IndicatorNodes(objectId: int, triggerSelected: bool, triggerOnScreen: bool): (nodes: seq<Editor.SlotType>)
    ensures !triggerSelected && !triggerOnScreen ==> nodes == []
    ensures triggerSelected || triggerOnScreen ==>
      |nodes| == Editor.OutputSlotCount(Editor.TriggerSlots(objectId).1) + Editor.InputSlotCount(Editor.TriggerSlots(objectId).0)
  {
    var slots := Editor.TriggerSlots(objectId);
    if !ShouldRender(triggerSelected, false, triggerOnScreen, false, true) then []
    else
      (if slots.1.targetGroupId.Some? then [slots.1.targetGroupId.value] else [])
      + (if slots.1.centerGroupId.Some? then [slots.1.centerGroupId.value] else [])
      + (if slots.0.targetGroupId.Some? then [slots.0.targetGroupId.value] else [])
  }

  /** One object of a slot's target group, as the classification loop sees it. */
  datatype TargetObject = TargetObject(objectId: int, selected: bool, onScreen: bool)

  /** The options the classification reads. */
  datatype IndicatorOptions = IndicatorOptions(showTriggerToTrigger: bool, showTargets: bool)

  /** A trigger target draws a trigger-to-trigger line when `shouldRender` allows it. */
  predicate DrawsTriggerLine(triggerSelected: bool, triggerOnScreen: bool, o: TargetObject, options: IndicatorOptions)
  {
    ObjectIds.IsTriggerId(o.objectId)
    && ShouldRender(triggerSelected, o.selected, triggerOnScreen, o.onScreen, options.showTriggerToTrigger)
  }

  /** Any other target joins the clusters when all targets are shown or either end is selected. */
  predicate JoinsClusters(triggerSelected: bool, o: TargetObject, options: IndicatorOptions)
  {
    !ObjectIds.IsTriggerId(o.objectId) && (options.showTargets || o.selected || triggerSelected)
  }

  /** The indices of the targets that pass `keep`, in order. */
  function TriggerLineIndices(triggerSelected: bool, triggerOnScreen: bool, objs: seq<TargetObject>, options: IndicatorOptions): (r: seq<nat>)
    ensures forall k :: 0 <= k < |r| ==> r[k] < |objs|
  {
    if objs == [] then []
    else
      var last := if DrawsTriggerLine(triggerSelected, triggerOnScreen, objs[|objs| - 1], options) then [|objs| - 1] else [];
      TriggerLineIndices(triggerSelected, triggerOnScreen, objs[..|objs| - 1], options) + last
  }

  function ClusterIndices(triggerSelected: bool, objs: seq<TargetObject>, options: IndicatorOptions): (r: seq<nat>)
    ensures forall k :: 0 <= k < |r| ==> r[k] < |objs|
  {
    if objs == [] then []
    else
      var last := if JoinsClusters(triggerSelected, objs[|objs| - 1], options) then [|objs| - 1] else [];
      ClusterIndices(triggerSelected, objs[..|objs| - 1], options) + last
  }

  /** A target is listed exactly when its rule admits it. */
  lemma {:induction false} IndicesExact(triggerSelected: bool, triggerOnScreen: bool, objs: seq<TargetObject>, options: IndicatorOptions)
    ensures forall i :: 0 <= i < |objs| ==>
      (i in TriggerLineIndices(triggerSelected, triggerOnScreen, objs, options) <==> DrawsTriggerLine(triggerSelected, triggerOnScreen, objs[i], options))
    ensures forall i :: 0 <= i < |objs| ==>
      (i in ClusterIndices(triggerSelected, objs, options) <==> JoinsClusters(triggerSelected, objs[i], options))
  {
    if objs != [] {
      var init := objs[..|objs| - 1];
      IndicesExact(triggerSelected, triggerOnScreen, init, options);
    }
  }

  /** No target both draws a trigger line and joins the clusters. */
  lemma LinesAndClustersDisjoint(triggerSelected: bool, triggerOnScreen: bool, o: TargetObject, options: IndicatorOptions)
    ensures !(DrawsTriggerLine(triggerSelected, triggerOnScreen, o, options) && JoinsClusters(triggerSelected, o, options))
  {
  }

  /**
   * The classification loop of `recalculateIndicatorsForSlot`: nothing for a
   * missing group, otherwise one batch with the trigger lines and the cluster
   * candidates, by position in the group.
   */
  method ClassifyTargets(triggerSelected: bool, triggerOnScreen: bool, objs: Option<seq<TargetObject>>, options: IndicatorOptions)
    returns (batch: Option<(seq<nat>, seq<nat>)>)
    ensures objs.None? <==> batch.None?
    ensures objs.Some? ==> batch.value.0 == TriggerLineIndices(triggerSelected, triggerOnScreen, objs.value, options)
    ensures objs.Some? ==> batch.value.1 == ClusterIndices(triggerSelected, objs.value, options)
  {
    if objs.None? {
      return None;
    }
    var items := objs.value;
    var lines: seq<nat> := [];
    var clustered: seq<nat> := [];
    var i := 0;
    while i < |items|
      invariant 0 <= i <= |items|
      invariant lines == TriggerLineIndices(triggerSelected, triggerOnScreen, items[..i], options)
      invariant clustered == ClusterIndices(triggerSelected, items[..i], options)
    {
      var obj := items[i];
      assert items[..i + 1][..i] == items[..i];
      if ObjectIds.IsTriggerId(obj.objectId) {
        if ShouldRender(triggerSelected, obj.selected, triggerOnScreen, obj.onScreen, options.showTriggerToTrigger) {
          lines := lines + [i];
        }
      } else if options.showTargets || obj.selected || triggerSelected {
        clustered := clustered + [i];
      }
      i := i + 1;
    }
    assert items[..i] == items;
    return Some((lines, clustered));
  }

  function Sum(counts: seq<nat>): nat
  {
    if counts == [] then 0 else Sum(counts[..|counts| - 1]) + counts[|counts| - 1]
  }

  /** `checkTooManyObjects`: whether the groups hold more than 1000 objects in all. */
  method CheckTooManyObjects(groupSizes: seq<nat>) returns (tooMany: bool)
    ensures tooMany <==> Sum(groupSizes) > TOO_MANY_OBJECTS
  {
    var count := 0;
    var i := 0;
    while i < |groupSizes|
      invariant 0 <= i <= |groupSizes|
      invariant count == Sum(groupSizes[..i])
    {
      assert groupSizes[..i + 1][..i] == groupSizes[..i];
      count := count + groupSizes[i];
      i := i + 1;
    }
    assert groupSizes[..i] == groupSizes;
    tooMany := count > TOO_MANY_OBJECTS;
  }

  /** The throttle's static state: frames since the last count check, and the last verdict. */
  datatype Throttle = Throttle(frames: nat, tooMany: bool)

  /** The throttle at start-up: no frames counted, and "too many" assumed. */
  const INITIAL_THROTTLE: Throttle := Throttle(0, true)

  /**
   * One `draw()` with indicators on, as written: with all targets shown the
   * count is re-checked once the counter passes 50, and indicators are
   * recalculated when there are not too many objects or the counter is 0.
   * Returns the new state and whether indicators were recalculated.
   */
  function ThrottleStep(t: Throttle, showTargets: bool, tooManyNow: bool): (Throttle, bool)
  {
    if showTargets then
      var t' := if t.frames > THROTTLE_FRAMES then Throttle(0, tooManyNow) else t;
      (Throttle(t'.frames + 1, t'.tooMany), !t'.tooMany || t'.frames == 0)
    else (t, true)
  }

  /** The same step with the check at 50 frames, the interval the code's comment states. */
  function ThrottleStepIntended(t: Throttle, showTargets: bool, tooManyNow: bool): (Throttle, bool)
  {
    if showTargets then
      var t' := if t.frames >= THROTTLE_FRAMES then Throttle(0, tooManyNow) else t;
      (Throttle(t'.frames + 1, t'.tooMany), !t'.tooMany || t'.frames == 0)
    else (t, true)
  }

  /** Recalculation flags of `n` frames run from `t` with all targets shown in a level that stays too large. */
  function RunBusy(t: Throttle, n: nat, intended: bool): seq<bool>
    decreases n
  {
    if n == 0 then []
    else
      var step := if intended then ThrottleStepIntended(t, true, true) else ThrottleStep(t, true, true);
      [step.1] + RunBusy(step.0, n - 1, intended)
  }

  /** From counter `k` in a busy level nothing is recalculated until the counter passes `limit`. */
  lemma {:induction false} BusyQuiet(k: nat, n: nat, intended: bool)
    requires 1 <= k && k + n <= (if intended then THROTTLE_FRAMES else THROTTLE_FRAMES + 1)
    ensures |RunBusy(Throttle(k, true), n, intended)| == n
    ensures forall j :: 0 <= j < n ==> !RunBusy(Throttle(k, true), n, intended)[j]
    decreases n
  {
    if n > 0 {
      BusyQuiet(k + 1, n - 1, intended);
    }
  }

  /** Every step of `RunBusy` yields one flag. */
  lemma {:induction false} RunBusyLength(t: Throttle, n: nat, intended: bool)
    ensures |RunBusy(t, n, intended)| == n
    decreases n
  {
    if n > 0 {
      var step := if intended then ThrottleStepIntended(t, true, true) else ThrottleStep(t, true, true);
      RunBusyLength(step.0, n - 1, intended);
    }
  }

  /**
   * With all targets shown and a level that stays too large, the code as
   * written recalculates at the first frame and next at frame 51: once every
   * 51 frames, not every 50.
   */
  lemma BusyPeriodAsWritten()
    ensures |RunBusy(Throttle(0, true), 52, false)| == 52
    ensures RunBusy(Throttle(0, true), 52, false)[0] && RunBusy(Throttle(0, true), 52, false)[51]
    ensures forall j :: 1 <= j < 51 ==> !RunBusy(Throttle(0, true), 52, false)[j]
  {
    BusyRun(false);
  }

  /** With the check at 50 the busy level is recalculated at frames 0 and 50: every 50 frames. */
  lemma BusyPeriodIntended()
    ensures |RunBusy(Throttle(0, true), 51, true)| == 51
    ensures RunBusy(Throttle(0, true), 51, true)[0] && RunBusy(Throttle(0, true), 51, true)[50]
    ensures forall j :: 1 <= j < 50 ==> !RunBusy(Throttle(0, true), 51, true)[j]
  {
    BusyRun(true);
  }

  /** A busy run from a fresh counter: one recalculation, `p - 1` quiet frames, then a recalculation, where `p` is the period. */
  lemma BusyRun(intended: bool)
    ensures var p := if intended then THROTTLE_FRAMES else THROTTLE_FRAMES + 1;
      var r := RunBusy(Throttle(0, true), p + 1, intended);
      |r| == p + 1 && r[0] && r[p] && forall j :: 1 <= j < p ==> !r[j]
  {
    var p := if intended then THROTTLE_FRAMES else THROTTLE_FRAMES + 1;
    var quiet := p - 1;
    // after the first frame the counter is 1; `quiet` frames later it is p
    var tail := RunBusy(Throttle(1, true), p, intended);
    var first := if intended then ThrottleStepIntended(Throttle(0, true), true, true) else ThrottleStep(Throttle(0, true), true, true);
    assert first == (Throttle(1, true), true);
    assert RunBusy(Throttle(0, true), p + 1, intended) == [true] + tail;
    var quietRun := RunBusy(Throttle(1, true), quiet, intended);
    BusyQuiet(1, quiet, intended);
    assert tail == quietRun + [tail[quiet]] by {
      BusyQuietSplit(1, quiet, intended);
    }
    assert tail[quiet] by { BusyQuietLast(1, quiet, intended); }
    assert forall j :: 0 <= j < quiet ==> !tail[j] by {
      forall j | 0 <= j < quiet ensures !tail[j] {
        assert tail[j] == quietRun[j];
      }
    }
  }

  /** A quiet run followed by one more frame. */
  lemma {:induction false} BusyQuietSplit(k: nat, n: nat, intended: bool)
    requires 1 <= k && k + n <= (if intended then THROTTLE_FRAMES else THROTTLE_FRAMES + 1)
    ensures |RunBusy(Throttle(k, true), n + 1, intended)| == n + 1
    ensures RunBusy(Throttle(k, true), n + 1, intended)
      == RunBusy(Throttle(k, true), n, intended) + [RunBusy(Throttle(k, true), n + 1, intended)[n]]
    decreases n
  {
    RunBusyLength(Throttle(k, true), n + 1, intended);
    if n > 0 {
      BusyQuietSplit(k + 1, n - 1, intended);
    }
  }

  /** The frame after a quiet run that brings the counter to the limit re-checks and recalculates. */
  lemma {:induction false} BusyQuietLast(k: nat, n: nat, intended: bool)
    requires 1 <= k && k + n == (if intended then THROTTLE_FRAMES else THROTTLE_FRAMES + 1)
    ensures |RunBusy(Throttle(k, true), n + 1, intended)| == n + 1
    ensures RunBusy(Throttle(k, true), n + 1, intended)[n]
    decreases n
  {
    RunBusyLength(Throttle(k, true), n + 1, intended);
    if n > 0 {
      BusyQuietLast(k + 1, n - 1, intended);
    }
  }

  /** Without "show all" indicators are recalculated every frame; with it, a small level is recalculated every frame once checked. */
  lemma ThrottleRules(t: Throttle, tooManyNow: bool)
    ensures ThrottleStep(t, false, tooManyNow) == (t, true)
    ensures !t.tooMany && t.frames <= THROTTLE_FRAMES ==> ThrottleStep(t, true, tooManyNow).1
    ensures t.frames > THROTTLE_FRAMES ==> ThrottleStep(t, true, tooManyNow) == (Throttle(1, tooManyNow), true)
    ensures ThrottleStep(t, true, tooManyNow).0.frames >= 1
  {
  }

  /** The `draw()` override's throttle, with its static counters as fields. */
  class IndicatorThrottle {
    var state: Throttle
    var recalculations: nat

    constructor ()
      ensures state == INITIAL_THROTTLE && recalculations == 0
    {
      state := INITIAL_THROTTLE;
      recalculations := 0;
    }

    /**
     * One frame: nothing without supporter access or with indicators hidden;
     * otherwise advance the throttle, counting objects only when it asks.
     */
    method Draw(hasPro: bool, showIndicators: bool, showTargets: bool, groupSizes: seq<nat>) returns (recalculated: bool)
      modifies this
      ensures !hasPro || !showIndicators ==> !recalculated && state == old(state) && recalculations == old(recalculations)
      ensures hasPro && showIndicators ==>
        (state, recalculated) == ThrottleStep(old(state), showTargets, Sum(groupSizes) > TOO_MANY_OBJECTS)
      ensures recalculations == old(recalculations) + (if recalculated then 1 else 0)
    {
      recalculated := false;
      if !hasPro || !showIndicators {
        return;
      }
      if showTargets {
        if state.frames > THROTTLE_FRAMES {
          var tooMany := CheckTooManyObjects(groupSizes);
          state := Throttle(0, tooMany);
        }
        if !state.tooMany || state.frames == 0 {
          recalculated := true;
        }
        state := state.(frames := state.frames + 1);
      } else {
        recalculated := true;
      }
      if recalculated {
        recalculations := recalculations + 1;
      }
    }
  }
}
