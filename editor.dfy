// Editor helpers shared by the features (src/utils/Editor.cpp): trigger slot
// tables, group-dictionary lookup, the selection, UI-show events, object
// tinting and button enabling.
module Editor {
  import opened Wrappers
  import opened Cocos
  import ObjectIds

  /** The maximum group id the editor allows. */
  const MAX_GROUP_ID: int := 9999

  datatype SlotType = Generic | Spawn | Center | Transform

  datatype InputSlots = InputSlots(targetGroupId: Option<SlotType>)
  datatype OutputSlots = OutputSlots(targetGroupId: Option<SlotType>, centerGroupId: Option<SlotType>)

  /** A trigger as the slot rules see it. */
  datatype EffectTrigger = EffectTrigger(objectId: int, targetGroupId: int, centerGroupId: int)

  /** `getTriggerSlots`: rotate and move triggers have their own tables, every other trigger the generic one. */
  function TriggerSlots(objectId: int): (slots: (InputSlots, OutputSlots))
    ensures slots.0 == InputSlots(Some(Generic))
    ensures objectId == ObjectIds.ROTATE_TRIGGER ==> slots.1 == OutputSlots(Some(Transform), Some(Center))
    ensures objectId == ObjectIds.MOVE_TRIGGER ==> slots.1 == OutputSlots(Some(Transform), None)
    ensures objectId != ObjectIds.ROTATE_TRIGGER && objectId != ObjectIds.MOVE_TRIGGER ==>
      slots.1 == OutputSlots(Some(Generic), Some(Generic))
  {
    if objectId == ObjectIds.ROTATE_TRIGGER then
      (InputSlots(Some(Generic)), OutputSlots(Some(Transform), Some(Center)))
    else if objectId == ObjectIds.MOVE_TRIGGER then
      (InputSlots(Some(Generic)), OutputSlots(Some(Transform), None))
    else
      (InputSlots(Some(Generic)), OutputSlots(Some(Generic), Some(Generic)))
  }

  /** Slot count of the input side: one per present slot. */
  function InputSlotCount(slots: InputSlots): (n: nat)
    ensures n <= 1
    ensures n == 1 <==> slots.targetGroupId.Some?
  {
    if slots.targetGroupId.Some? then 1 else 0
  }

  /** Slot count of the output side: one per present slot. */
  function OutputSlotCount(slots: OutputSlots): (n: nat)
    ensures n <= 2
    ensures n == 0 <==> slots.targetGroupId.None? && slots.centerGroupId.None?
    ensures n == 2 <==> slots.targetGroupId.Some? && slots.centerGroupId.Some?
  {
    (if slots.targetGroupId.Some? then 1 else 0) + (if slots.centerGroupId.Some? then 1 else 0)
  }

  /** Every trigger has one input slot; a move trigger has one output slot and every other trigger two. */
  lemma SlotCounts(objectId: int)
    ensures InputSlotCount(TriggerSlots(objectId).0) == 1
    ensures OutputSlotCount(TriggerSlots(objectId).1) == if objectId == ObjectIds.MOVE_TRIGGER then 1 else 2
  {
  }

  /** The groups a trigger acts on: its target group, and its center group unless it is a move trigger. */
  function TargetedGroups(trigger: EffectTrigger): seq<int>
  {
    if trigger.objectId == ObjectIds.MOVE_TRIGGER then [trigger.targetGroupId]
    else [trigger.targetGroupId, trigger.centerGroupId]
  }

  /**
   * `getTriggerTargetedGroups`: the target group, then the center group, each
   * only when the trigger's output table has that slot.
   */
  method TriggerTargetedGroups(trigger: EffectTrigger) returns (results: seq<int>)
    ensures |results| == OutputSlotCount(TriggerSlots(trigger.objectId).1)
    ensures results == TargetedGroups(trigger)
  {
    var slots := TriggerSlots(trigger.objectId).1;
    results := [];
    if slots.targetGroupId.Some? {
      results := results + [trigger.targetGroupId];
    }
    if slots.centerGroupId.Some? {
      results := results + [trigger.centerGroupId];
    }
  }

  /**
   * `getObjectsFromGroupDict`: nothing for an id outside 1..9999, for a
   * missing entry or for an empty entry; otherwise the stored objects.
   */
  function ObjectsFromGroupDict<T>(groupDict: map<int, seq<T>>, id: int): (r: Option<seq<T>>)
    ensures r.None? <==> id <= 0 || id > MAX_GROUP_ID || id !in groupDict || |groupDict[id]| == 0
    ensures r.Some? ==> id in groupDict && r.value == groupDict[id] && |r.value| > 0
  {
    if id <= 0 || id > MAX_GROUP_ID then None
    else if id !in groupDict || |groupDict[id]| == 0 then None
    else Some(groupDict[id])
  }

  /** `getSelectedObjects`: the single selected object when there is one, else the whole selection. */
  function SelectedObjects<T>(selectedObject: Option<T>, selectedObjects: seq<T>): (r: seq<T>)
    ensures selectedObject.Some? ==> r == [selectedObject.value]
    ensures selectedObject.None? ==> r == selectedObjects
  {
    match selectedObject
    case Some(obj) => [obj]
    case None => selectedObjects
  }

  datatype ListenerResult = Propagate | Stop

  /** `UIShowFilter::handle` for a filter on `filterUi`: whether the callback runs, and the listener result. */
  function UIShowFilterHandle(filterUi: int, eventUi: int): (r: (bool, ListenerResult))
    ensures r.0 <==> filterUi == eventUi
    ensures r.1 == Propagate
  {
    (filterUi == eventUi, Propagate)
  }

  /**
   * The level editor's tint table (`tinted`, keyed by object) and the colour
   * each object currently shows.
   */
  class TintLayer {
    var tinted: map<int, Color3B>
    var objectColor: map<int, Color3B>

    constructor (colors: map<int, Color3B>)
      ensures tinted == map[] && objectColor == colors
    {
      tinted := map[];
      objectColor := colors;
    }

    /**
     * `tintObject`: with a colour, record it unless the object already has an
     * entry (`insert` does not overwrite) and paint the object; without one,
     * forget the entry.
     */
    method TintObject(obj: int, color: Option<Color3B>)
      modifies this
      ensures color.Some? ==>
        tinted == (if obj in old(tinted) then old(tinted) else old(tinted)[obj := color.value])
        && objectColor == old(objectColor)[obj := color.value]
      ensures color.None? ==> tinted == old(tinted) - {obj} && objectColor == old(objectColor)
    {
      if color.Some? {
        if obj !in tinted {
          tinted := tinted[obj := color.value];
        }
        objectColor := objectColor[obj := color.value];
      } else {
        tinted := tinted - {obj};
      }
    }

    /**
     * `updateVisibility`: the game's own update runs first and leaves the
     * colours `baseColors` (the engine's visibility pass is not part of this
     * model); then every tinted object is painted with its recorded colour.
     */
    method UpdateVisibility(baseColors: map<int, Color3B>)
      modifies this
      ensures tinted == old(tinted)
      ensures forall o :: o in objectColor <==> o in baseColors || o in tinted
      ensures forall o :: o in tinted ==> objectColor[o] == tinted[o]
      ensures forall o :: o in baseColors && o !in tinted ==> objectColor[o] == baseColors[o]
    {
      objectColor := map o | o in baseColors.Keys + tinted.Keys ::
        if o in tinted then tinted[o] else baseColors[o];
    }
  }

  /**
   * Tinting an object twice without clearing it keeps the first colour: the
   * second call paints the object, but the next visibility update restores
   * the first one.
   */
  method RetintKeepsFirstColor(obj: int, first: Color3B, second: Color3B, baseColors: map<int, Color3B>)
    returns (shownAfterTint: Color3B, shownAfterUpdate: Color3B)
    ensures shownAfterTint == second
    ensures shownAfterUpdate == first
  {
    var layer := new TintLayer(map[]);
    layer.TintObject(obj, Some(first));
    layer.TintObject(obj, Some(second));
    shownAfterTint := layer.objectColor[obj];
    layer.UpdateVisibility(baseColors);
    shownAfterUpdate := layer.objectColor[obj];
  }

  /** A menu button: whether it reacts, and the colour and opacity of its image when that image takes them. */
  class MenuButton {
    var enabled: bool
    const hasRgbaImage: bool
    var color: Color3B
    var opacity: int

    constructor (rgba: bool)
      ensures hasRgbaImage == rgba && enabled && color == WHITE && opacity == 255
    {
      hasRgbaImage := rgba;
      enabled := true;
      color := WHITE;
      opacity := 255;
    }
  }

  /**
   * `enableButton`: the button reacts when enabled or when only the look is
   * being changed; the look is white and opaque when enabled, gray and
   * faded otherwise.
   */
  method EnableButton(btn: MenuButton, enabled: bool, visualOnly: bool)
    modifies btn
    ensures btn.enabled == (enabled || visualOnly)
    ensures btn.hasRgbaImage ==> btn.color == (if enabled then WHITE else GRAY) && btn.opacity == (if enabled then 255 else 200)
    ensures !btn.hasRgbaImage ==> btn.color == old(btn.color) && btn.opacity == old(btn.opacity)
  {
    btn.enabled := enabled || visualOnly;
    if btn.hasRgbaImage {
      btn.color := if enabled then WHITE else GRAY;
      btn.opacity := if enabled then 255 else 200;
    }
  }

  /** `enableToggle`: the same flag on the toggler and on both of its buttons. */
  method EnableToggle(toggle: MenuButton, onButton: MenuButton, offButton: MenuButton, enabled: bool, visualOnly: bool)
    requires toggle != onButton && toggle != offButton && onButton != offButton
    modifies toggle, onButton, offButton
    ensures toggle.enabled == (enabled || visualOnly)
    ensures onButton.enabled == (enabled || visualOnly) && offButton.enabled == (enabled || visualOnly)
    ensures onButton.hasRgbaImage ==>
      onButton.color == (if enabled then WHITE else GRAY) && onButton.opacity == (if enabled then 255 else 200)
    ensures offButton.hasRgbaImage ==>
      offButton.color == (if enabled then WHITE else GRAY) && offButton.opacity == (if enabled then 255 else 200)
    ensures !onButton.hasRgbaImage ==> onButton.color == old(onButton.color) && onButton.opacity == old(onButton.opacity)
    ensures !offButton.hasRgbaImage ==> offButton.color == old(offButton.color) && offButton.opacity == old(offButton.opacity)
    ensures toggle.color == old(toggle.color) && toggle.opacity == old(toggle.opacity)
  {
    toggle.enabled := enabled || visualOnly;
    EnableButton(onButton, enabled, visualOnly);
    EnableButton(offButton, enabled, visualOnly);
  }
}
