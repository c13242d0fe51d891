// Low-detail hiding and the view tab of the editor UI
// (src/features/ViewTab/ViewTab.cpp). The editor's existence and the
// "hide-ldm" saved value are parameters.
module ViewTab {
  const UINT_MODULUS: int := 0x1_0000_0000

  /** An editor object as these rules see it. */
  datatype GameObject = GameObject(id: int, isHighDetail: bool)

  /** `shouldHide`: a high-detail object, inside the editor, with "hide-ldm" switched on. */
  predicate ShouldHide(obj: GameObject, editorExists: bool, hideLdm: bool)
  {
    obj.isHighDetail && editorExists && hideLdm
  }

  /** The visibility flag of one object, with the overrides of `GameObjectExtra`. */
  class GameObjectNode {
    const obj: GameObject
    var visible: bool

    constructor (o: GameObject, v: bool)
      ensures obj == o && visible == v
    {
      obj := o;
      visible := v;
    }

    /** `setVisible`: a hidden low-detail object is forced invisible. */
    method SetVisible(v: bool, editorExists: bool, hideLdm: bool)
      modifies this
      ensures visible == (v && !ShouldHide(obj, editorExists, hideLdm))
    {
      var value := v;
      if ShouldHide(obj, editorExists, hideLdm) {
        value := false;
      }
      visible := value;
    }

    /** `updateVisibility`: afterwards the object is visible exactly when it should not be hidden. */
    method UpdateVisibility(editorExists: bool, hideLdm: bool)
      modifies this
      ensures visible == !ShouldHide(obj, editorExists, hideLdm)
    {
      SetVisible(visible || !ShouldHide(obj, editorExists, hideLdm), editorExists, hideLdm);
    }
  }

  /** The editor UI's selection as these overrides feed it. */
  class EditorSelection {
    /** Objects handed on to the game's own `selectObject`/`selectObjects`, oldest first. */
    var selected: seq<GameObject>

    constructor ()
      ensures selected == []
    {
      selected := [];
    }

    /** `selectObject`: pass the object on only when it should not be hidden. */
    method SelectObject(obj: GameObject, editorExists: bool, hideLdm: bool)
      modifies this
      ensures selected == old(selected) + (if ShouldHide(obj, editorExists, hideLdm) then [] else [obj])
    {
      if !ShouldHide(obj, editorExists, hideLdm) {
        selected := selected + [obj];
      }
    }

    /**
     * `selectObjects`: the filtering loop as written, over an unsigned index
     * that is decremented after every iteration, then the remaining objects
     * are passed on.
     */
    method SelectObjects(objs: seq<GameObject>, editorExists: bool, hideLdm: bool) returns (passed: seq<GameObject>)
      modifies this
      ensures passed == DropLeadingHidden(objs, editorExists, hideLdm)
      ensures selected == old(selected) + passed
    {
      passed := objs;
      var objCount: int := |objs|;
      var i: int := 0;
      while i < objCount
        invariant i == 0
        invariant 0 <= objCount <= |passed| <= |objs|
        invariant DropLeadingHidden(passed, editorExists, hideLdm) == DropLeadingHidden(objs, editorExists, hideLdm)
        invariant |passed| > objCount ==> passed == DropLeadingHidden(objs, editorExists, hideLdm)
        invariant selected == old(selected)
        decreases objCount
      {
        var obj := passed[i];
        if |passed| > objCount {
          DropLeadingHiddenIsSuffix(objs, editorExists, hideLdm);
        }
        if ShouldHide(obj, editorExists, hideLdm) {
          assert passed[..i] + passed[i + 1..] == passed[1..];
          passed := passed[..i] + passed[i + 1..];
        }
        i := (i - 1) % UINT_MODULUS;
        objCount := objCount - 1;
        i := (i + 1) % UINT_MODULUS;
      }
      assert objCount == 0;
      if passed == [] {
        assert DropLeadingHidden(passed, editorExists, hideLdm) == [];
      } else {
        assert |passed| > objCount;
      }
      selected := selected + passed;
    }
  }

  /** What `selectObjects` leaves: the objects after the leading run of hidden ones. */
  function DropLeadingHidden(objs: seq<GameObject>, editorExists: bool, hideLdm: bool): seq<GameObject>
  {
    if objs != [] && ShouldHide(objs[0], editorExists, hideLdm)
    then DropLeadingHidden(objs[1..], editorExists, hideLdm)
    else objs
  }

  /** Every object that should be hidden removed, the others kept in order. */
  function FilterHidden(objs: seq<GameObject>, editorExists: bool, hideLdm: bool): seq<GameObject>
  {
    if objs == [] then []
    else if ShouldHide(objs[0], editorExists, hideLdm) then FilterHidden(objs[1..], editorExists, hideLdm)
    else [objs[0]] + FilterHidden(objs[1..], editorExists, hideLdm)
  }

  /** The as-written loop removes a suffix-preserving prefix: its result is a suffix of the input starting with a shown object. */
  lemma {:induction false} DropLeadingHiddenIsSuffix(objs: seq<GameObject>, editorExists: bool, hideLdm: bool)
    ensures var r := DropLeadingHidden(objs, editorExists, hideLdm);
      |r| <= |objs| && r == objs[|objs| - |r|..]
      && (r != [] ==> !ShouldHide(r[0], editorExists, hideLdm))
      && (forall k :: 0 <= k < |objs| - |r| ==> ShouldHide(objs[k], editorExists, hideLdm))
    decreases |objs|
  {
    if objs != [] && ShouldHide(objs[0], editorExists, hideLdm) {
      DropLeadingHiddenIsSuffix(objs[1..], editorExists, hideLdm);
    }
  }

  /** The intended filter leaves no object that should be hidden and keeps every other one. */
  lemma {:induction false} FilterHiddenSound(objs: seq<GameObject>, editorExists: bool, hideLdm: bool)
    ensures forall k :: 0 <= k < |FilterHidden(objs, editorExists, hideLdm)| ==>
      !ShouldHide(FilterHidden(objs, editorExists, hideLdm)[k], editorExists, hideLdm)
    ensures forall o :: o in objs && !ShouldHide(o, editorExists, hideLdm) ==> o in FilterHidden(objs, editorExists, hideLdm)
    ensures forall o :: o in FilterHidden(objs, editorExists, hideLdm) ==> o in objs
    decreases |objs|
  {
    if objs != [] {
      FilterHiddenSound(objs[1..], editorExists, hideLdm);
      var r := FilterHidden(objs, editorExists, hideLdm);
      forall o | o in objs && !ShouldHide(o, editorExists, hideLdm)
        ensures o in r
      {
        if o != objs[0] {
          assert o in objs[1..];
        }
      }
    }
  }

  /** A hidden object behind a shown one survives the as-written loop, which the intended filter removes. */
  lemma SelectObjectsKeepsLaterHidden()
    ensures var shown := GameObject(1, false);
      var hidden := GameObject(2, true);
      DropLeadingHidden([shown, hidden], true, true) == [shown, hidden]
      && FilterHidden([shown, hidden], true, true) == [shown]
  {
    var shown := GameObject(1, false);
    var hidden := GameObject(2, true);
    assert [shown, hidden][1..] == [hidden];
    assert [hidden][1..] == [];
    assert FilterHidden([hidden], true, true) == [];
    assert FilterHidden([shown, hidden], true, true) == [shown];
  }

  /** The view tab's button bar is shown exactly in mode 4 (at creation and after `toggleMode`). */
  predicate ViewBarVisible(selectedMode: int)
  {
    selectedMode == 4
  }

  /** The UI-show binding: the bar is shown only when the UI is shown and the view mode is selected. */
  predicate ViewBarVisibleOnUIShow(show: bool, selectedMode: int)
  {
    show && ViewBarVisible(selectedMode)
  }

  const BUILD_MODE_TAG: int := 2
  const DELETE_MODE_TAG: int := 1
  const EDIT_MODE_TAG: int := 3
  const VIEW_MODE_TAG: int := 4

  /** `updateModeSprite`: the selected mode's button gets the highlighted background. */
  function ModeBackground(selectedMode: int, tag: int): string
  {
    if selectedMode == tag then "GJ_button_02.png" else "GJ_button_01.png"
  }

  /** `updateModeSprites`: the backgrounds of the build, delete, edit and view buttons in that order. */
  function ModeBackgrounds(selectedMode: int): (bgs: seq<string>)
    ensures |bgs| == 4
  {
    [ModeBackground(selectedMode, BUILD_MODE_TAG), ModeBackground(selectedMode, DELETE_MODE_TAG),
     ModeBackground(selectedMode, EDIT_MODE_TAG), ModeBackground(selectedMode, VIEW_MODE_TAG)]
  }

  /** In modes 1..4 exactly one of the four buttons is highlighted; in any other mode none is. */
  lemma OneModeHighlighted(selectedMode: int)
    ensures 1 <= selectedMode <= 4 ==>
      |set k | 0 <= k < 4 && ModeBackgrounds(selectedMode)[k] == "GJ_button_02.png"| == 1
    ensures !(1 <= selectedMode <= 4) ==>
      forall k :: 0 <= k < 4 ==> ModeBackgrounds(selectedMode)[k] == "GJ_button_01.png"
  {
    var bgs := ModeBackgrounds(selectedMode);
    var hl := set k | 0 <= k < 4 && bgs[k] == "GJ_button_02.png";
    assert "GJ_button_01.png" != "GJ_button_02.png" by {
      assert "GJ_button_01.png"[11] != "GJ_button_02.png"[11];
    }
    if selectedMode == BUILD_MODE_TAG {
      assert hl == {0};
    } else if selectedMode == DELETE_MODE_TAG {
      assert hl == {1};
    } else if selectedMode == EDIT_MODE_TAG {
      assert hl == {2};
    } else if selectedMode == VIEW_MODE_TAG {
      assert hl == {3};
    }
  }

  /**
   * The view bar and the mode buttons agree: the bar is up exactly when the
   * view button is the highlighted one, and on UI show it is up only when the
   * UI is shown with the view button highlighted.
   */
  lemma ViewBarFollowsViewButton(show: bool, selectedMode: int)
    ensures ViewBarVisible(selectedMode) <==> ModeBackgrounds(selectedMode)[3] == "GJ_button_02.png"
    ensures ViewBarVisibleOnUIShow(show, selectedMode) <==> show && ModeBackgrounds(selectedMode)[3] == "GJ_button_02.png"
  {
    assert "GJ_button_01.png" != "GJ_button_02.png" by {
      assert "GJ_button_01.png"[11] != "GJ_button_02.png"[11];
    }
  }
}
