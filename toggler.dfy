// The two-state menu button used by the view tab
// (src/utils/BEMenuItemToggler.hpp; src/features/ViewTab/ViewTab.cpp keeps
// an identical private copy). The getter and setter callbacks are a value
// passed in and a log of the values handed out; the two sprite nodes are
// represented by their reference counts.
module Toggler {
  class BEMenuItemToggler {
    var toggled: bool
    /** True when the normal image is the on-node, false when it is the off-node. */
    var showsOnNode: bool
    var offNodeRefs: nat
    var onNodeRefs: nat
    /** Every value passed to the setter callback, oldest first. */
    var setterCalls: seq<bool>

    /** `create`/`init`: not toggled, off image shown, each node retained once. */
    constructor (offRefs: nat, onRefs: nat)
      ensures !toggled && !showsOnNode
      ensures offNodeRefs == offRefs + 1 && onNodeRefs == onRefs + 1
      ensures setterCalls == []
    {
      toggled := false;
      showsOnNode := false;
      offNodeRefs := offRefs + 1;
      onNodeRefs := onRefs + 1;
      setterCalls := [];
    }

    /** `toggle(bool)`: set the state and show the matching node. */
    method ToggleTo(b: bool)
      modifies this
      ensures toggled == b && showsOnNode == b
      ensures offNodeRefs == old(offNodeRefs) && onNodeRefs == old(onNodeRefs)
      ensures setterCalls == old(setterCalls)
    {
      toggled := b;
      showsOnNode := b;
    }

    /** `toggle()`: the same as `toggle(getter())`; `getterValue` is what the getter returns. */
    method Toggle(getterValue: bool)
      modifies this
      ensures toggled == getterValue && showsOnNode == getterValue
      ensures offNodeRefs == old(offNodeRefs) && onNodeRefs == old(onNodeRefs)
      ensures setterCalls == old(setterCalls)
    {
      ToggleTo(getterValue);
    }

    /** `isToggled`. */
    function IsToggled(): (b: bool)
      reads this
      ensures b <==> toggled
    {
      toggled
    }

    /** `activate`: flip the state, then hand the new state to the setter exactly once. */
    method Activate()
      modifies this
      ensures toggled == !old(toggled) && showsOnNode == toggled
      ensures setterCalls == old(setterCalls) + [toggled]
      ensures offNodeRefs == old(offNodeRefs) && onNodeRefs == old(onNodeRefs)
    {
      ToggleTo(!toggled);
      setterCalls := setterCalls + [toggled];
    }

    /** Two activations restore the state and pass the setter both new states in turn. */
    method ActivateTwice()
      modifies this
      ensures toggled == old(toggled) && showsOnNode == old(toggled)
      ensures setterCalls == old(setterCalls) + [!old(toggled), old(toggled)]
    {
      Activate();
      Activate();
    }

    /** The destructor: release each node once. */
    method Release()
      requires offNodeRefs >= 1 && onNodeRefs >= 1
      modifies this
      ensures offNodeRefs == old(offNodeRefs) - 1 && onNodeRefs == old(onNodeRefs) - 1
      ensures toggled == old(toggled) && setterCalls == old(setterCalls)
    {
      offNodeRefs := offNodeRefs - 1;
      onNodeRefs := onNodeRefs - 1;
    }
  }

  /** Creating a toggler and destroying it leaves both nodes' counts as they were. */
  method CreateThenRelease(offRefs: nat, onRefs: nat) returns (offAfter: nat, onAfter: nat)
    ensures offAfter == offRefs && onAfter == onRefs
  {
    var t := new BEMenuItemToggler(offRefs, onRefs);
    t.Release();
    offAfter, onAfter := t.offNodeRefs, t.onNodeRefs;
  }
}
