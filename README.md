# BetterEdit core, modelled in Dafny

BetterEdit is a Geode mod that extends the Geometry Dash level editor. This
project models the parts of it that hold logic of their own, as opposed to
layout and drawing, and proves properties of that model. Anything the mod
reads from the engine, the file system, the network or the clock enters the
model as a parameter.

One module per source area:

- `Wrappers`: `Option` and `Result`, standing for `std::optional` and Geode's `Result<T, std::string>`, with clamping and integer-to-text.
- `Cocos`: the engine's RGB colour value.
- `Editor` (src/utils/Editor.cpp): the helpers the features share. This covers trigger input/output slot tables, the group-dictionary lookup, the selection, UI-show events, object tinting and button enabling.
- `ObjectIds` (src/utils/ObjectIDs.hpp): the trigger object ids and the switch that recognises them.
- `Toggler` (src/utils/BEMenuItemToggler.hpp): the two-state menu button and the references it holds on its two sprites.
- `BetterSelect`: the transform-handle tags and their `opposite` mapping.
- `ButtonRows`: the editor-options handlers that let the button rows leave the game's own limits.
- `MixedValues`: editing one property across a selection at once. This covers the "mixed" input, its arrows, its override and unmix buttons, and the z-order rules.
- `GroupSummary`: the "View Groups" popup. This covers the cache of groups 1..9999, filtering and search, pagination and the page controls.
- `TriggerIndicators`: the lines drawn from a trigger to the objects it targets, their colours, and how often they are recalculated.
- `ViewTab`: low-detail hiding, selection around hidden objects, the mode buttons and the view tab's button bar.
- `JsMarshal` (src/features/scripting/QJS.hpp): conversion between script values and host values. This covers the decoders and encoders, positional argument parsing, and the checks a wrapped host function runs before it is called.
- `QjsHandles` (src/features/scripting/QJS.cpp): runtimes, contexts and values as reference-counted handles. This also covers the accessors that do nothing without a context, the per-runtime registries and the module promise's tick.
- `Scripting`: a user script's life cycle. This covers the `/// @tag value` header read at load time, the log list, the run/tick state machine driven from the editor's frame tick, and the manager that reloads and ticks every script.
- `Server` (src/server/Server.cpp): the client's bounded, insertion-ordered request cache, the per-function cache built on it, and how an HTTP response becomes a result.
- `License`: the supporter-key entry popup. This covers five four-character boxes, the offline checksum that enables the Activate button, and pasting a key.
- `Pro`: the supporter colour tiers, the stored key and its fields, the signed message and the Pro check.
- `SupportersPopup`: the supporters list popup's pages and page label.

Classes stand for the source's objects whose fields are updated in place. This covers the editor options layer, the tint layer, the toggler, the group summary popup, the script manager, the caches and the QuickJS handles. Their methods state what they change and what they leave alone. Pure computations are functions, each with lemmas that relate it to a partner: its inverse, an invariant it keeps, or a reference definition.

## Model

| member | source | states |
|---|---|---|
| BetterSelect.HandleTagsAreNamed | src/features/BetterSelect.cpp:58-69 | a tag is a handle tag exactly when it is one of the eight named handle constants (2 to 9) |
| BetterSelect.OppositePairs | src/features/BetterSelect.cpp:70-82 | `opposite` swaps left/right, top/bottom, top-left/bottom-right and top-right/bottom-left |
| BetterSelect.OppositeInvolution | src/features/BetterSelect.cpp:70-82 | on handle tags `opposite` yields a handle tag, is its own inverse and has no fixed point |
| BetterSelect.OppositeDefault | src/features/BetterSelect.cpp:72-73 | any non-handle tag falls through `default` into the left case and yields the right handle, whose opposite is the left handle |
| ButtonRows.Step | src/features/ButtonRowsBypass.cpp:10-17 | the click moves the count by +1 exactly when the sender's tag is non-zero, otherwise by -1 |
| ButtonRows.NextButtonRows | src/features/ButtonRowsBypass.cpp:10 | the new row count always lies in [2, 24], and equals old ± 1 whenever that is already in range |
| ButtonRows.NextButtonsPerRow | src/features/ButtonRowsBypass.cpp:17 | the new per-row count always lies in [6, 128], and equals old ± 1 whenever that is already in range |
| ButtonRows.ButtonRowsStepInverse | src/features/ButtonRowsBypass.cpp:10 | inside the bounds, an increase then a decrease (or the reverse) restores the row count |
| ButtonRows.ButtonRowsSaturate | src/features/ButtonRowsBypass.cpp:10-17 | at a bound, a click further in that direction leaves both counts unchanged |
| ButtonRows.EditorOptionsLayer.OnButtonRows | src/features/ButtonRowsBypass.cpp:7-12 | the row count becomes the clamped step of the old one, its label shows exactly the new value, the per-row fields are unchanged and the game's own handler is never called |
| ButtonRows.EditorOptionsLayer.OnButtonsPerRow | src/features/ButtonRowsBypass.cpp:14-19 | the per-row count becomes the clamped step of the old one, its label shows exactly the new value, the row fields are unchanged and the game's own handler is never called |
| Editor.TriggerSlots | src/utils/Editor.cpp:371-410 | every trigger has a generic input slot; rotate triggers output transform and center slots, move triggers only a transform slot, all others two generic slots |
| Editor.InputSlotCount | src/utils/Editor.cpp:362-365 | the input slot count is at most 1, and is 1 exactly when the target slot exists |
| Editor.OutputSlotCount | src/utils/Editor.cpp:366-369 | the output slot count is at most 2, is 0 exactly when neither slot exists and 2 exactly when both do |
| Editor.SlotCounts | src/utils/Editor.cpp:362-410 | every trigger has one input slot; a move trigger has one output slot and every other trigger two |
| Editor.TriggerTargetedGroups | src/utils/Editor.cpp:411-421 | the result has one entry per present output slot and is the target group followed by the center group, only the target group for a move trigger |
| Editor.ObjectsFromGroupDict | src/utils/Editor.cpp:338-349 | nothing exactly when the id is outside 1..9999, the entry is missing or the entry is empty; otherwise the stored, non-empty array |
| Editor.SelectedObjects | src/utils/Editor.cpp:36-43 | the single selected object when one is set, otherwise the whole selection |
| Editor.UIShowFilterHandle | src/utils/Editor.cpp:228-233 | the callback runs exactly when the event's UI is the filter's UI, and the result is always Propagate |
| Editor.TintLayer.TintObject | src/utils/Editor.cpp:253-262 | with a colour, the table gains an entry only when the object has none (no overwrite) and the object is painted; without one the entry is erased and the paint is unchanged |
| Editor.TintLayer.UpdateVisibility | src/utils/Editor.cpp:241-250 | the table is unchanged; after the game's own pass has left its colours, every tinted object shows its recorded colour and every other object the colour that pass left |
| Editor.RetintKeepsFirstColor | src/utils/Editor.cpp:253-262 | tinting an object twice shows the second colour at once, but the next visibility update shows the first colour again |
| Editor.EnableButton | src/utils/Editor.cpp:264-272 | the button is enabled iff enabled or visual-only; an RGBA image becomes white and opaque (255) when enabled, gray and 200 otherwise; other images are untouched |
| Editor.EnableToggle | src/utils/Editor.cpp:273-277 | the toggler and both of its buttons get enabled iff enabled or visual-only; each button with an RGBA image becomes white and 255 when enabled, gray and 200 otherwise; other looks, and the toggler's own, are unchanged |
| GroupSummary.FiltersPartition | src/features/GroupSummaryPopup.cpp:449-457 | `All` passes every group, and every group passes exactly one of Used, Unused, NoTargets and NoTriggers |
| GroupSummary.MatchingGroups | src/features/GroupSummaryPopup.cpp:447-468 | the listed groups are never more than the cached ones |
| GroupSummary.MatchingGroupsSound | src/features/GroupSummaryPopup.cpp:447-461 | every listed group is a cached group that passes the filter and the id-prefix search |
| GroupSummary.MatchingGroupsComplete | src/features/GroupSummaryPopup.cpp:447-461 | every cached group that passes the filter and the search is listed |
| GroupSummary.MatchingGroupsAscending | src/features/GroupSummaryPopup.cpp:130-141 | filtering keeps the cache's ascending group order, and every listed entry comes from the cache |
| GroupSummary.GroupsPerPage | src/features/GroupSummaryPopup.cpp:444-446 | a page holds 20 groups (5 x 4) in the grid view and 8 in the list view |
| GroupSummary.PagesOfShape | src/features/GroupSummaryPopup.cpp:461-465 | the pages, laid end to end, are exactly the matching groups in order; no page is empty or over-full, and all but the last are full |
| GroupSummary.PageCount | src/features/GroupSummaryPopup.cpp:461-465 | well-formed pages hold (pages - 1) full pages plus the last page's groups, so the count lies between (pages - 1) * perPage and pages * perPage |
| GroupSummary.LastPossiblePage | src/features/GroupSummaryPopup.cpp:256 | the last page index is 0 without pages and the number of pages minus one otherwise |
| GroupSummary.ClampPage | src/features/GroupSummaryPopup.cpp:260 | the loaded page is the requested one or the last possible page, never above either, and always an existing page when there are pages |
| GroupSummary.PageLabelOverCounts | src/features/GroupSummaryPopup.cpp:425 | with one page of results the label as written reads "Page 1/2" although the next button is disabled; the intended label reads "Page 1/1" |
| GroupSummary.PageLabelIntendedBounds | src/features/GroupSummaryPopup.cpp:425 | in the intended label the page shown never exceeds the total, and the total is the number of pages (1 when there are none) |
| GroupSummary.ToggleBadge | src/features/GroupSummaryPopup.cpp:23-26 | only a toggle trigger (id 1049) gets a badge; it is a valid colour, green-dominant exactly when the trigger activates its group |
| GroupSummary.TriggerLabel | src/features/GroupSummaryPopup.cpp:30-36 | the trigger's label is "T" for the target group only, "C" for the center group only, "T+C" for both and empty for neither |
| GroupSummary.Copies | src/features/GroupSummaryPopup.cpp:136-139 | the multiset holds the trigger exactly n times and nothing else |
| GroupSummary.FileTrigger | src/features/GroupSummaryPopup.cpp:126-128 | the trigger is filed under every group it targets, once per slot naming that group, and the rest of the multimap is unchanged |
| GroupSummary.FileTriggers | src/features/GroupSummaryPopup.cpp:124-129 | the multimap files under each group exactly the triggers targeting it, with multiplicity |
| GroupSummary.BuildCache | src/features/GroupSummaryPopup.cpp:130-141 | the cache has 9999 entries, entry k being group k + 1 with its group-dictionary objects and the triggers filed under it |
| GroupSummary.CacheAscending | src/features/GroupSummaryPopup.cpp:130-141 | the cache lists groups in ascending id order |
| GroupSummary.Paginate | src/features/GroupSummaryPopup.cpp:447-468 | the paging loop builds exactly the pages of the matching groups and counts exactly the matches |
| GroupSummary.GroupSummaryPopup.ResetPages | src/features/GroupSummaryPopup.hpp:30-33 | the pages are cleared and the match count is zero; page, view, filter, query, the shown groups, both labels, both buttons, the remembered page, the saved view and the switched-on toggles are unchanged |
| GroupSummary.GroupSummaryPopup.LoadPage | src/features/GroupSummaryPopup.cpp:255-272 | the page becomes the clamped request and is remembered with the filter and the query; exactly the current filter's toggle and the current view's toggle are switched on; the page's groups are shown; the labels read the page and the match count; prev is enabled iff page > 0 and next iff page < last page; pages, match count, view, filter, query and saved view are unchanged |
| GroupSummary.GroupSummaryPopup.ShowCurrentPage | src/features/GroupSummaryPopup.cpp:423-429 | the current page's groups are shown, the page label reads the page, the match label reads the match count, prev is enabled iff page > 0 and next iff page < last page; nothing else changes |
| GroupSummary.GroupSummaryPopup.UpdatePages | src/features/GroupSummaryPopup.cpp:437-471 | the view mode is saved; the pages become the matching groups split by the view's page size and the match count their number; the requested page, clamped, is shown with its groups, page and match labels and prev/next states and remembered with the filter and query; view, filter and query are unchanged |
| GroupSummary.GroupSummaryPopup.OnPage | src/features/GroupSummaryPopup.cpp:431-436 | when the tag takes the page below 0 nothing changes; otherwise the page moved by the tag, clamped to the last page, is shown with its labels and button states and remembered, and the pages, match count, view, filter and query are unchanged |
| GroupSummary.GroupSummaryPopup.OnFilter | src/features/GroupSummaryPopup.cpp:472-475 | the filter is set, the pages are rebuilt with it and page 0 is shown with its labels and button states; view and query are unchanged |
| GroupSummary.GroupSummaryPopup.OnView | src/features/GroupSummaryPopup.cpp:476-479 | the view is set and saved, the pages are rebuilt with its page size and page 0 is shown with its labels and button states; filter and query are unchanged |
| GroupSummary.GroupSummaryPopup.OnSearch | src/features/GroupSummaryPopup.cpp:237-239 | the query becomes the field's text, the pages are rebuilt from the groups whose id starts with it and page 0 is shown with its labels and button states; filter and view are unchanged |
| GroupSummary.UpdatePagesListsMatches | src/features/GroupSummaryPopup.cpp:437-468 | after a rebuild the pages list every match once, in ascending id order, well paged, and their total size is the match count |
| JsMarshal.WrapInt32 | src/features/scripting/QJS.cpp:600-608 | the conversion to a 32-bit integer lands in [-2^31, 2^31), differs from the input by a multiple of 2^32 and is the identity on values already in range |
| JsMarshal.NumberToInt32 | src/features/scripting/QJS.hpp:308-315 | every number converts to a signed 32-bit value; NaN and the infinities give 0 |
| JsMarshal.PresentItemsWithoutHoles | src/features/scripting/QJS.cpp:524-534 | for an array without holes, the items are all the slots' values in index order |
| JsMarshal.ScalarDecoders | src/features/scripting/QJS.hpp:270-368 | a value decodes as itself and a boolean by truthiness; int32, float and double accept exactly the numbers and string exactly the strings, read up to the first NUL; int32 results are in range; each refusal is "Expected integer/number/string, got <type name>" |
| JsMarshal.ParseTypes | src/features/scripting/QJS.hpp:488-493 | a wrong argument count fails with "Expected N arguments, got M" before any argument is converted |
| JsMarshal.ParseTypesFromOk | src/features/scripting/QJS.hpp:459-499 | positional conversion succeeds iff every position converts |
| JsMarshal.ParseTypesFromValues | src/features/scripting/QJS.hpp:459-499 | a successful positional conversion holds each position's converted value, in order |
| JsMarshal.ParseTypesFromFirstFailure | src/features/scripting/QJS.hpp:459-473 | a failed conversion reports the first failing position's error tagged "(at index k)", and every earlier position converted |
| JsMarshal.ParseTypesRules | src/features/scripting/QJS.hpp:488-501 | an argument list parses iff the count equals the arity and every position converts; the result holds each converted value in order; a failure with the right count is the first failing position's error |
| JsMarshal.ParseVectorFromOk | src/features/scripting/QJS.hpp:372-388 | an array decodes as a vector iff every present item decodes |
| JsMarshal.ParseVectorFromValues | src/features/scripting/QJS.hpp:372-388 | a decoded vector holds each present item's value in order, one per item |
| JsMarshal.ParseVectorFromFirstFailure | src/features/scripting/QJS.hpp:372-388 | a failed vector reports the first failing item's error tagged "(in array at index k)", and every earlier item decoded |
| JsMarshal.ParsePropsFromRules | src/features/scripting/QJS.hpp:429-443 | an object decodes as a map iff every property decodes; the map's keys are exactly the property names; a failure carries the error of the first failing property in enumeration order, tagged with its key |
| JsMarshal.TupleNeedsExactLength | src/features/scripting/QJS.hpp:401-407 | a tuple decodes only from an array of exactly its arity; any other length fails with "Expected array of length N, got M" |
| JsMarshal.TupleWithHole | src/features/scripting/QJS.hpp:401-414 | a two-slot array with a hole is refused by a pair decoder although its length matches, because the hole is skipped and the positional arity check then fails |
| JsMarshal.TupleArgumentsFail | src/features/scripting/QJS.hpp:408-413 | when the items of a right-length array do not convert, the tuple fails with their error tagged "(in tuple of size N)" |
| JsMarshal.HoleIsSkipped | src/features/scripting/QJS.cpp:524-534 | collecting array items skips a hole: [null, hole] yields [null] |
| JsMarshal.PairArityError | src/features/scripting/QJS.hpp:488-493 | converting one argument for a two-argument tuple fails with "Expected 2 arguments, got 1" |
| JsMarshal.NullDecoderInverted | src/features/scripting/QJS.hpp:294-299 | as written, the null decoder fails exactly on null (with "Expected integer, got null") and accepts everything else, undefined included |
| JsMarshal.ParseNullIntended | src/features/scripting/QJS.hpp:294-299 | the intended null decoder accepts exactly null and refuses anything else with "Expected null, got <type name>" |
| JsMarshal.ToJs | src/features/scripting/QJS.hpp:389-395 | a vector or tuple encodes as an array with one present slot per item, each the item's own encoding, in order; a string is encoded up to its first NUL |
| JsMarshal.RoundTrip | src/features/scripting/QJS.hpp:270-424 | for every type without null or map, decoding an encoded well-typed host value whose strings hold no NUL gives it back |
| JsMarshal.UpToNul | src/features/scripting/QJS.cpp:221-223 | the C-string view of a text is its longest prefix without NUL: the whole text when it holds none, and otherwise it stops right before the first one |
| JsMarshal.NulStringTruncated | src/features/scripting/QJS.cpp:221-223 | "a\0b" encoded and decoded back comes out as "a" |
| JsMarshal.NullRoundTripFails | src/features/scripting/QJS.hpp:294-302 | the encoded null is refused by the null decoder as written and accepted by the intended one |
| JsMarshal.ArrayItems | src/features/scripting/QJS.cpp:524-534 | walking the indices below the length yields exactly the present items in index order |
| JsMarshal.Decode | src/features/scripting/QJS.hpp:454-457 | decoding by type dispatch gives exactly the result of the reference decoder `Parse` |
| JsMarshal.DecodeVector | src/features/scripting/QJS.hpp:372-388 | the vector loop, stopping at the first failing item, gives exactly the result of the reference decoder `Parse` |
| JsMarshal.DecodeTuple | src/features/scripting/QJS.hpp:401-414 | the tuple decoder checks array-ness and length before the positional conversion, and gives exactly the result of the reference decoder `Parse` |
| JsMarshal.DecodeMap | src/features/scripting/QJS.hpp:429-443 | the property loop with non-overwriting insert, over the properties `getProperties` reports when it treats only a negative engine status as failure, gives exactly the result of the reference decoder `Parse` |
| JsMarshal.MapDecoderSeesNoProperties | src/features/scripting/QJS.cpp:562-574 | with the engine status 0 (success) or -1 (failure), the map decoder as written turns every object into the empty map, while at status 0 the intended `getProperties` reports the object's own properties |
| JsMarshal.MapDecoderDropsProperties | src/features/scripting/QJS.cpp:562-574 | as written, {a: 1} decodes to the empty map where `Parse` gives {a: 1}, and {a: "x"} is accepted where `Parse` refuses it |
| JsMarshal.DecodeArgs | src/features/scripting/QJS.hpp:488-501 | the arity check followed by the positional loop, which skips every position after the first error, gives exactly the result of the reference `ParseTypes` |
| JsMarshal.Encode | src/features/scripting/QJS.hpp:389-423 | the encoder, pushing each item into a new array, gives exactly the reference encoding `ToJs` |
| JsMarshal.EncodeItems | src/features/scripting/QJS.hpp:389-395 | pushing each encoded item gives one present slot per item, in order |
| JsMarshal.CallWrapped | src/features/scripting/QJS.hpp:518-537 | a bad 'this' throws its error tagged "('this' in name)"; otherwise bad arguments throw tagged "(arguments in name)"; the host function runs, and its encoded result is returned, iff both decode |
| JsMarshal.WrongArityNeverCalls | src/features/scripting/QJS.hpp:518-537 | a call with the wrong number of arguments always throws and never reaches the host function; with a good 'this' the message is the arity error |
| JsMarshal.AccessorNames | src/features/scripting/QJS.hpp:615-630 | a property's getter is named "<prop>.get", and a "<prop>.set" setter exists iff one is given |
| License.CharValue | src/features/supporters/ActivateLicensePopup.cpp:156-167 | digits are worth 0-9, letters 10-35 in either case, anything else 0; every value is below 36 |
| License.ToUpper | src/features/supporters/ActivateLicensePopup.cpp:206 | ASCII upper-casing turns lower-case letters into upper-case ones and leaves every other character alone |
| License.Upper | src/features/supporters/ActivateLicensePopup.cpp:206 | upper-casing a string keeps its length and upper-cases each character in place |
| License.CharValueIgnoresCase | src/features/supporters/ActivateLicensePopup.cpp:156-167 | a character is worth the same upper-cased |
| License.ValueSumIgnoresCase | src/features/supporters/ActivateLicensePopup.cpp:177-181 | the value sum of a string is unchanged by upper-casing it |
| License.CheckKey | src/features/supporters/ActivateLicensePopup.cpp:169-192 | the key is valid iff it has 20 characters, starts "BE" and its check pair's value equals the rest's value sum mod 18; a wrong length shows no error, a bad prefix "Key does not start with 'BE'", a bad sum "Checksum mismatch" |
| License.UpperKeepsValidity | src/features/supporters/ActivateLicensePopup.cpp:174-182 | for a key starting "be" or "BE", the upper-cased key is valid iff its checksum holds on the key as typed, so letter case never matters |
| License.SampleKeys | src/features/supporters/ActivateLicensePopup.cpp:175-187 | "BE" followed by eighteen zeros is a valid key; one with a check pair off by one is not |
| License.ConcatEmpty | src/features/supporters/ActivateLicensePopup.cpp:201-208 | five empty boxes spell the empty key |
| License.KeepAlnum | src/features/supporters/ActivateLicensePopup.cpp:211-220 | the filtered clipboard is no longer than the clipboard and holds only ASCII letters and digits |
| License.KeepAlnumIdempotent | src/features/supporters/ActivateLicensePopup.cpp:211-220 | filtering an already filtered clipboard changes nothing |
| License.Chunks | src/features/supporters/ActivateLicensePopup.cpp:225-227 | a 20-character key splits into five pieces of four characters |
| License.ChunksConcat | src/features/supporters/ActivateLicensePopup.cpp:201-227 | splitting a key into the boxes and reading them back in order gives the key again |
| License.NextFocus | src/features/supporters/ActivateLicensePopup.cpp:109-119 | after four characters focus moves to the next box unless this is the last; a cleared box hands focus back unless it is the first; otherwise focus stays |
| License.ActivateLicensePopup.constructor | src/features/supporters/ActivateLicensePopup.cpp:95-151 | the popup opens with five empty boxes, no error and Activate disabled |
| License.ActivateLicensePopup.GetCurrentKey | src/features/supporters/ActivateLicensePopup.cpp:201-208 | the key is the boxes' contents concatenated in order, then upper-cased |
| License.ActivateLicensePopup.UpdateState | src/features/supporters/ActivateLicensePopup.cpp:169-200 | Activate is enabled, white and opaque exactly when the current key is valid (gray and 155 otherwise); the error label shows the length, prefix or checksum outcome; the boxes, focus and notifications are unchanged |
| License.ActivateLicensePopup.OnInputChanged | src/features/supporters/ActivateLicensePopup.cpp:109-119 | the edited box takes the new text, focus moves by the box rule, and Activate, its look and the error label track the new key; no notification is posted |
| License.ActivateLicensePopup.OnPaste | src/features/supporters/ActivateLicensePopup.cpp:210-229 | without exactly 20 letters and digits in the clipboard only a "No Product Key in Clipboard" notification appears and boxes, focus, Activate and the error label are unchanged; otherwise the boxes get four characters each, focus stays, and Activate, its look and the error label track the pasted key |
| MixedValues.Limits | src/features/EditMixedValues.cpp:274-384 | editor layers, channel order and channel range from 0 to their type's maximum; z-order spans the whole int range |
| MixedValues.Wrap | src/features/EditMixedValues.cpp:148-149 | the cast back to the property's type lands in the type's range and is the identity on values already in range |
| MixedValues.SetTouchesOneField | src/features/EditMixedValues.cpp:283-377 | setting a property changes that property's field and no other; outside z-order the getter reads back the stored value |
| MixedValues.ZOrderStepAvoidsReserved | src/features/EditMixedValues.cpp:319-336 | an arrow step on the z-order never lands on -1000, nor on 0 when the default is not 0: a skipped value moves one further in the direction of travel |
| MixedValues.ZOrderReadBack | src/features/EditMixedValues.cpp:316-336 | after a z-order set the getter reads the stored value, or the default when 0 was stored; a reset over a skipped value reads the default |
| MixedValues.FilterTargetsExact | src/features/EditMixedValues.cpp:77-81 | the filter keeps exactly the selected objects that are targets of the property |
| MixedValues.CollectTargetsExact | src/features/EditMixedValues.cpp:72-81 | the collected targets are all targets: the single object first when it is one, then every targeted object of the selection |
| MixedValues.Values | src/features/EditMixedValues.cpp:162-191 | the values list has one entry per target, each the property's value on that target |
| MixedValues.SeqMin | src/features/EditMixedValues.cpp:183-191 | the minimum is one of the values and no value is below it |
| MixedValues.SeqMax | src/features/EditMixedValues.cpp:183-191 | the maximum is one of the values and no value is above it |
| MixedValues.MixedIffSpread | src/features/EditMixedValues.cpp:162-191 | a selection is mixed (some value differs from the first) exactly when its minimum is below its maximum |
| MixedValues.ArrowValue | src/features/EditMixedValues.cpp:148-151 | as written, the arrow's result always lies within the property's limits |
| MixedValues.ArrowValueIntended | src/features/EditMixedValues.cpp:148-151 | the intended arrow result, clamping the sum itself, always lies within the property's limits |
| MixedValues.EditorLayerArrowWrapsToZero | src/features/EditMixedValues.cpp:148-151 | as written, the right arrow on editor layer 32767 wraps to -32768 and is clamped to 0; the intended step stays at 32767 |
| MixedValues.ArrowValueIntendedSaturates | src/features/EditMixedValues.cpp:148-151 | the intended step moves by exactly one inside the limits, never against the arrow's direction, and agrees with the written one whenever the sum stays inside the type |
| MixedValues.LabelText | src/features/EditMixedValues.cpp:245-265 | a mixed selection shows "min..max"; otherwise the single value, shown empty exactly when it is 0 and the input has a placeholder |
| MixedValues.Collect | src/features/EditMixedValues.cpp:72-81 | the collecting loop yields exactly the targets of the reference `CollectTargets` |
| MixedValues.MixedValuesInput.constructor | src/features/EditMixedValues.cpp:63-141 | the input collects its targets, then, when there are any, its label shows their value or range, and it is disabled with unmix shown exactly when the selection is mixed |
| MixedValues.MixedValuesInput.IsMixed | src/features/EditMixedValues.cpp:162-173 | false without targets, otherwise whether some target's value differs from the first one's |
| MixedValues.MixedValuesInput.GetMinMax | src/features/EditMixedValues.cpp:183-191 | the loop's bounds are the least and greatest target values, both taken by some target |
| MixedValues.MixedValuesInput.Override | src/features/EditMixedValues.cpp:174-181 | every target is reset to the value clamped into the limits; when asked and there are targets, the label, input and unmix button show the new values, otherwise they are unchanged |
| MixedValues.MixedValuesInput.OnArrow | src/features/EditMixedValues.cpp:146-155 | every target is set to its own arrow step, in the button's direction; with targets the label, input and unmix button show the new values, without targets they are unchanged |
| MixedValues.MixedValuesInput.Unmix | src/features/EditMixedValues.cpp:130-136 | every target is reset to the midpoint of the selection's range, clamped into the limits, and the label, input and unmix button show the new values |
| MixedValues.TypedNumber | src/features/EditMixedValues.cpp:94-96 | the typed number always fits the field's type: the number itself when it fits, otherwise (not a number, or out of the type's range) 0 |
| MixedValues.OutOfRangeTextGivesZero | src/features/EditMixedValues.cpp:94-96 | 40000 typed into a short editor-layer field gives 0, while an int field takes it |
| MixedValues.MixedValuesInput.OnTextChanged | src/features/EditMixedValues.cpp:94-96 | typing sets every target to the number when it parses within the field's type, or 0 otherwise, clamped to the limits; the label, input and unmix button are unchanged |
| MixedValues.MixedValuesInput.UpdateLabel | src/features/EditMixedValues.cpp:245-265 | without targets nothing changes; otherwise the label is the range or the single value, and the input is enabled and unmix hidden exactly when the selection is not mixed |
| MixedValues.Midpoint | src/features/EditMixedValues.cpp:135 | the midpoint lies between the bounds and splits the range evenly, rounding down |
| MixedValues.OverrideUnmixes | src/features/EditMixedValues.cpp:174-181 | after an override of a property other than z-order every target holds the value, so the selection is no longer mixed |
| MixedValues.SetAll | src/features/EditMixedValues.cpp:174-181 | resetting every target keeps their number and applies the setter to each in place |
| ObjectIds.IsTriggerIdIffNamed | src/utils/ObjectIDs.hpp:60-115 | the switch returns true exactly for the ids of the named trigger constants and false (the default branch) for every other id |
| ObjectIds.LowTriggerIdsDistinct | src/utils/ObjectIDs.hpp:8-58 | the seventeen lowest trigger constants are distinct and lie between 901 and 1912 |
| ObjectIds.MiddleTriggerIdsDistinct | src/utils/ObjectIDs.hpp:8-58 | the next seventeen trigger constants are distinct and lie between 1913 and 3010 |
| ObjectIds.HighTriggerIdsDistinct | src/utils/ObjectIDs.hpp:8-58 | the highest seventeen trigger constants are distinct and lie between 3011 and 3661 |
| ObjectIds.TriggerIdsDistinct | src/utils/ObjectIDs.hpp:8-58 | the 51 named trigger ids are pairwise distinct, so no case label of the switch is duplicated |
| ObjectIds.AreaTriggersAreTriggers | src/utils/ObjectIDs.hpp:22-31 | every id from the area move trigger (3006) to the edit-area tint trigger (3015) is a trigger id |
| Pro.SupporterColor | src/features/supporters/Pro.cpp:30-44 | 5000 and up is purple (227, 85, 255), 1000-4999 gold (255, 187, 0), 500-999 cyan (0, 238, 255), 200-499 green (30, 255, 0), and below 200, negatives included, white |
| Pro.SupporterColorMonotone | src/features/supporters/Pro.cpp:30-44 | a larger supported amount never gives a lower colour tier |
| Pro.FirstIndex | src/features/supporters/Pro.hpp:35 | the split point is the first ':' (or the end): no separator occurs before it |
| Pro.JoinPieces | src/features/supporters/Pro.hpp:35 | splitting a non-empty key on ':' and joining the pieces with ':' gives the key back, and no piece holds a ':' |
| Pro.PiecesJoin | src/features/supporters/Pro.hpp:35 | splitting a ':'-join of separator-free parts gives the parts back |
| Pro.KeyOf | src/features/supporters/Pro.hpp:30 | the key is absent exactly when the cached string is empty, and otherwise is that string |
| Pro.DeviceSaltOfWellFormedKey | src/features/supporters/Pro.hpp:32-40 | a key made of five separator-free parts yields its fourth part as the device salt |
| Pro.DeviceSaltNeedsFiveParts | src/features/supporters/Pro.hpp:32-40 | with no key, or a key that does not split into exactly five parts, there is no salt; a salt is always the key's part index 3 |
| Pro.SignedMessageFields | src/features/supporters/Pro.hpp:49-56 | the signed message "{accountID}:{parts[1]}:{platform}:{parts[3]}" splits back into exactly those four fields when none holds ':' |
| Pro.VerifyPro | src/features/supporters/Pro.hpp:42-61 | 0 without a key or for a key not of exactly five parts; otherwise the verifier's answer on the signed message and the base64-decoded fifth part, empty when decoding fails |
| Pro.NoKeyNoPro | src/features/supporters/Pro.hpp:72 | without a stored key, or with a malformed one, no supporter check passes, whatever the verifier would answer |
| Pro.ProKeyStore.constructor | src/features/supporters/Pro.hpp:25 | the static key cache starts empty and "has-pro" has not been saved |
| Pro.ProKeyStore.GetProKey | src/features/supporters/Pro.hpp:24-31 | the key file is re-read, and "has-pro" set to whether a key exists, exactly when asked to or when the cache is empty; the result is absent iff the cache is empty |
| Pro.ProKeyStore.GetDeviceSalt | src/features/supporters/Pro.hpp:32-40 | the key is fetched without forcing a re-read (a cold cache takes the stored key and records whether one exists, a warm one is kept), and the salt is that key's salt by the five-part rule |
| QjsHandles.ValueOwned | src/features/scripting/QJS.cpp:355-357 | owning a raw value copies the context handle into the new value and leaves every value count untouched |
| QjsHandles.ValueCopyOf | src/features/scripting/QJS.cpp:358-375 | `Value::copy` adds exactly one reference to a counted payload when the context or runtime pointer is non-null, and touches no other value count |
| QjsHandles.ValueCopied | src/features/scripting/QJS.cpp:300-308 | the copy constructor adds one reference to a counted payload exactly when a runtime is reachable through the copied holder, and never frees a runtime |
| QjsHandles.ValueDropped | src/features/scripting/QJS.cpp:334-342 | the destructor releases one reference to a counted payload exactly when a runtime is reachable, and never frees a runtime |
| QjsHandles.CopyThenDrop | src/features/scripting/QJS.cpp:300-342 | copying a live value handle and destroying the copy restores every reference count |
| QjsHandles.MovedFromDropsNothing | src/features/scripting/QJS.cpp:322-325 | the husk a move leaves behind (null holder, null payload) releases nothing when destroyed |
| QjsHandles.AssignmentKeepsOldPayload | src/features/scripting/QJS.cpp:309-332 | neither copy- nor move-assignment releases the target's previous payload |
| QjsHandles.IntendedAssignThenDrop | src/features/scripting/QJS.cpp:309-320 | with assignment that first releases the target, assigning then destroying balances to destroying the target alone |
| QjsHandles.AssignmentLeaks | src/features/scripting/QJS.cpp:309-320 | a target holding the only reference to a cell, copy-assigned over and destroyed, still leaves that cell at count 1, where the intended assignment leaves 0 |
| QjsHandles.LookupLeaks | src/features/scripting/QJS.cpp:512-546 | a lookup as written, once its result is destroyed, leaves the property's cell one count higher than before and every other count as it was |
| QjsHandles.LookupIntendedBalances | src/features/scripting/QJS.cpp:512-546 | a lookup that adopts the engine's reference with `Value::own` leaves every count as it was once its result is destroyed |
| QjsHandles.RuntimeDestroyed | src/features/scripting/QJS.cpp:66-71 | a runtime is freed on destruction exactly when its handle is managed and non-null; value and context counts are untouched |
| QjsHandles.ContextCopyThenDrop | src/features/scripting/QJS.cpp:135-171 | duplicating a context pointer and releasing it restores the context counts |
| QjsHandles.RuntimeHandle.Weak | src/features/scripting/QJS.cpp:84-92 | `null()` and `weak(rt)` make unmanaged handles holding the given pointer |
| QjsHandles.Engine.CreateRuntime | src/features/scripting/QJS.cpp:47-53 | `create()` makes a fresh managed runtime and changes no count |
| QjsHandles.Engine.MoveRuntime | src/features/scripting/QJS.cpp:56-58 | the move constructor takes the pointer and managed flag and nulls the source |
| QjsHandles.Engine.MoveAssignRuntime | src/features/scripting/QJS.cpp:59-64 | move-assignment overwrites the target without freeing its old runtime and nulls the source |
| QjsHandles.Engine.DestroyRuntime | src/features/scripting/QJS.cpp:66-71 | the destructor's effect is exactly `RuntimeDestroyed` |
| QjsHandles.Engine.CreateContext | src/features/scripting/QJS.cpp:127-134 | `create(rt)` makes a fresh context with one reference, attached to the runtime |
| QjsHandles.Engine.CopyContext | src/features/scripting/QJS.cpp:135-147 | `from(ptr)` and the copy constructor add one reference to a non-null context |
| QjsHandles.Engine.CopyAssignContext | src/features/scripting/QJS.cpp:148-155 | copy-assignment adds a reference to the new context and does not release the old one |
| QjsHandles.Engine.MoveAssignContext | src/features/scripting/QJS.cpp:157-164 | the move constructor and move-assignment change no count, null the source and do not release the target's old context |
| QjsHandles.Engine.DestroyContext | src/features/scripting/QJS.cpp:166-171 | the destructor releases one reference to a non-null context |
| QjsHandles.Engine.OwnValue | src/features/scripting/QJS.cpp:355-357 | the new handle holds the holder and payload, and the heap changes exactly as `ValueOwned` says |
| QjsHandles.Engine.CopyOfValue | src/features/scripting/QJS.cpp:358-375 | the new handle holds the holder and payload, and the heap changes exactly as `ValueCopyOf` says |
| QjsHandles.Engine.CopyValue | src/features/scripting/QJS.cpp:300-308 | the copy holds the same holder and payload, and the heap changes exactly as `ValueCopied` says |
| QjsHandles.Engine.MoveValue | src/features/scripting/QJS.cpp:322-325 | the new handle takes holder and payload; the source keeps its alternative with a null pointer and a null payload; no count changes |
| QjsHandles.Engine.CopyAssignValue | src/features/scripting/QJS.cpp:309-320 | the target takes the source's holder and payload and the heap changes as `CopyAssigned` (the leaking assignment) says |
| QjsHandles.Engine.MoveAssignValue | src/features/scripting/QJS.cpp:326-332 | the target takes the source's holder and payload, the source is emptied, and the heap changes as `MoveAssigned` says |
| QjsHandles.Engine.DestroyValue | src/features/scripting/QJS.cpp:334-342 | the heap changes exactly as `ValueDropped` says |
| QjsHandles.ToBool | src/features/scripting/QJS.cpp:595-599 | false without a context; otherwise JavaScript truthiness |
| QjsHandles.ToInt32 | src/features/scripting/QJS.cpp:600-608 | none without a context; a number converts by ToInt32's wrap to 32 bits |
| QjsHandles.ToNumber | src/features/scripting/QJS.cpp:609-617 | none without a context; a number converts to itself |
| QjsHandles.ToText | src/features/scripting/QJS.cpp:618-625 | "" without a context; otherwise the text holds no NUL, a string gives its prefix up to the first NUL, and a string without NUL gives itself |
| QjsHandles.FindProperty | src/features/scripting/QJS.cpp:535-546 | a property is found exactly when some own property has that name, and then the result is one of its pairs |
| QjsHandles.GetProperty | src/features/scripting/QJS.cpp:535-546 | none without a context or on a non-object; otherwise present exactly when the object has a property of that name |
| QjsHandles.GetArrayItem | src/features/scripting/QJS.cpp:512-523 | on an array, present exactly with a context, an index below the length and no hole there, and then it is that element; on any other value it is the property named by the index in decimal |
| QjsHandles.ArrayIndexOf | src/features/scripting/QJS.cpp:455 | a name denotes an array index only when it is the decimal spelling of that index, which lies below 2^32 - 1 |
| QjsHandles.IndexSpellingRoundTrip | src/features/scripting/QJS.cpp:455 | every index below 2^32 - 1 is denoted by its decimal spelling, so the two directions together make an index name exactly the spelling of an index |
| QjsHandles.StoreSlot | src/features/scripting/QJS.cpp:455 | storing at an index replaces that slot, or grows the array to it with holes in between; every other slot is kept |
| QjsHandles.SetProperty | src/features/scripting/QJS.cpp:447-457 | a no-op without a context; a primitive keeps its value; on a plain object reading the property back gives the value stored; on an array a name that spells an index stores that slot, which reads back as the value while every other existing slot reads as before |
| QjsHandles.Assign | src/features/scripting/QJS.cpp:447-457 | after storing, the name reads back as the new value and every other name reads as before |
| QjsHandles.Push | src/features/scripting/QJS.cpp:470-478 | a no-op without a context or on a non-object; on an array the value is appended after the last element; on a plain object it is stored under the key the object's length spells, which reads back as the value while every other key reads as before |
| QjsHandles.Tick | src/features/scripting/QJS.cpp:638-667 | no state or no context gives Ok(none); fulfilled gives its result; rejected gives the reason as the error; pending fails exactly when running the job threw |
| QjsHandles.IdCounter.constructor | src/features/scripting/QJS.cpp:19-23 | the program-wide function counter starts at 0 |
| QjsHandles.OpaqueData.constructor | src/features/scripting/QJS.cpp:5-10 | a runtime's registries start empty |
| QjsHandles.OpaqueData.AddFunction | src/features/scripting/QJS.cpp:19-23 | the function gets the next id of the shared counter, an id not already registered, and nothing else changes |
| QjsHandles.OpaqueData.CreateClass | src/features/scripting/QJS.cpp:94-117 | a rejected class gives "Unable to create class" and changes nothing; an accepted one returns its id and registers name and finalizer unless already present |
| QjsHandles.OpaqueData.GetClass | src/features/scripting/QJS.cpp:28-34 | present exactly when the name is registered, and then its id |
| Scripting.RankOrdersLevels | src/features/scripting/Scripting.hpp:15-20 | the log levels' underlying values order Status < Info < Warning < Error and tell the levels apart |
| Scripting.TrimFacts | src/features/scripting/Scripting.cpp:162 | trimming yields the empty string exactly for all-whitespace text, and otherwise text that neither starts nor ends with whitespace |
| Scripting.SplitLinesHaveNoNewline | src/features/scripting/Scripting.cpp:130-132 | no line `std::getline` reads holds a '\n' |
| Scripting.SplitLinesRestoresData | src/features/scripting/Scripting.cpp:130-132 | the lines read, each followed by '\n', give back the data (with a final '\n' added when it had none) |
| Scripting.DirectiveRecognition | src/features/scripting/Scripting.cpp:133-157 | a line is a directive exactly when it starts with "///" and its first non-whitespace character after them is '@'; the tag is the longest alphanumeric run after the '@', and nothing follows it exactly when it ends the line |
| Scripting.ScanDirective | src/features/scripting/Scripting.cpp:133-157 | the character-by-character scan of a header line finds exactly the directive `ParseDirective` describes |
| Scripting.ApplyDirective | src/features/scripting/Scripting.cpp:159-199 | a directive adds at most one log, an Error; the script stays runnable exactly when none is added; an unknown tag fails with "Invalid metadata tag '<tag>'"; `@name` with a value sets the trimmed title and fails exactly when it is empty |
| Scripting.ScanHeaderOnlyFails | src/features/scripting/Scripting.cpp:132-200 | the header scan only appends Error logs and leaves the script runnable exactly when it was and nothing was logged |
| Scripting.CreatedReadyIffClean | src/features/scripting/Scripting.cpp:112-210 | a created script is runnable exactly when its only log is "Ready to run script"; otherwise it holds at least one log and only Errors |
| Scripting.UnreadableFile | src/features/scripting/Scripting.cpp:119-128 | a file that cannot be read gives a script that is not runnable, whose only log is the read error, with the file name as title, "[Unknown]" as author and version 1.0.0 |
| Scripting.NoDirectivesKeepDefaults | src/features/scripting/Scripting.cpp:132-135 | lines holding no directive change nothing |
| Scripting.BareNameDirective | src/features/scripting/Scripting.cpp:153-161 | "/// @name" is the tag "name" with nothing after it |
| Scripting.BareNameKeepsTitle | src/features/scripting/Scripting.cpp:160-167 | as written, a file holding only "/// @name" keeps the file name as title, logs only "Ready to run script" and stays runnable |
| Scripting.ApplyDirectiveIntended | src/features/scripting/Scripting.cpp:160-176 | with a missing value read as empty, `@name` and `@by` keep the script runnable exactly when their trimmed value is non-empty |
| Scripting.BareNameIntended | src/features/scripting/Scripting.cpp:160-167 | read as intended, a bare "/// @name" empties the title and fails with "Script metadata `@name` requires a value" |
| Scripting.Logged | src/features/scripting/Scripting.cpp:240-254 | logging appends the entry, leaves the flag set, and schedules a notification exactly when none was pending |
| Scripting.LogBurstSchedulesOnce | src/features/scripting/Scripting.cpp:240-254 | any run of logs appends them all and schedules at most one notification, none when one was already pending |
| Scripting.TickOf | src/features/scripting/Scripting.cpp:423-439 | tick returns false exactly when unfinished and the module tick failed; it finishes on an error or a value; it logs exactly then, the error as Error or "Finished running script with value " and the value's text as Status |
| Scripting.TicksReportOnce | src/features/scripting/Scripting.cpp:423-439 | over any number of frames a script logs at most one entry and returns false at most once; once finished it logs nothing and returns true |
| Scripting.NoModuleTicksQuietly | src/features/scripting/Scripting.cpp:423-439 | with the null module loaded, tick returns true and changes nothing |
| Scripting.RunLogs | src/features/scripting/Scripting.cpp:274-285 | a run logs exactly one Error when the class setup fails (its message) and otherwise one when evaluation fails (the evaluation error), and nothing else |
| Scripting.JoinWithSpaces | src/features/scripting/Scripting.cpp:346-356 | the printed line of no arguments is empty and of one argument is its text |
| Scripting.PrintedLineSplits | src/features/scripting/Scripting.cpp:346-356 | texts without spaces are recovered by splitting the printed line at spaces |
| Scripting.LastSpace | src/features/scripting/Scripting.cpp:346-356 | the index found is a space with none after it, or -1 when there is none |
| Scripting.ValidateInput | src/features/scripting/Scripting.cpp:63-104 | a conversion error is tagged " (in script input item)"; a missing "type", then a missing "name", is refused first; otherwise the item is accepted exactly when every key is known and the type is "int", "number" or "string", and a refusal names the first bad entry in iteration order |
| Scripting.ExtensionIsLastDotSuffix | src/features/scripting/Scripting.cpp:469 | an extension is empty or a proper suffix of the name that starts at its last '.' |
| Scripting.FileNameAfterSeparator | src/features/scripting/Scripting.cpp:126 | the file name of a path is what follows its last '/' or '\\', whichever comes last |
| Scripting.BackslashPathFileName | src/features/scripting/Scripting.cpp:126 | the Windows path `C:\scripts\a.js` names the file "a.js" |
| Scripting.HiddenJsIsNotScript | src/features/scripting/Scripting.cpp:469-471 | a file called ".js" has no extension and is skipped |
| Scripting.ModuleFileIsScript | src/features/scripting/Scripting.cpp:469-472 | a ".mjs" file is loaded as a script |
| Scripting.ScriptsInSelects | src/features/scripting/Scripting.cpp:468-473 | exactly the listed files with a ".js" or ".mjs" extension are loaded |
| Scripting.JsScript.constructor | src/features/scripting/Scripting.hpp:26-37 | the member defaults: no queued event, runnable, finished, no module, no logs |
| Scripting.JsScript.LogMessage | src/features/scripting/Scripting.cpp:240-254 | the lifecycle changes exactly as `Logged` says, and the metadata is untouched |
| Scripting.JsScript.DeliverLogEvent | src/features/scripting/Scripting.cpp:247-252 | the queued callback clears the flag and changes nothing else |
| Scripting.JsScript.LastRunSeverity | src/features/scripting/Scripting.cpp:230-238 | the result is at least as severe as every log, and is Status or the level of some log |
| Scripting.JsScript.ScanLines | src/features/scripting/Scripting.cpp:132-200 | the header loop leaves the metadata exactly as `ScanHeader` computes it and schedules no notification |
| Scripting.JsScript.ApplyTag | src/features/scripting/Scripting.cpp:159-199 | one directive changes the metadata exactly as `ApplyDirective` says |
| Scripting.JsScript.Run | src/features/scripting/Scripting.cpp:256-422 | a script that cannot run is untouched and returns false; otherwise the lifecycle is cleared, a failed class setup is logged and ends the run, and otherwise a failed evaluation is logged; run succeeds, with a module loaded, exactly when both succeed |
| Scripting.JsScript.Tick | src/features/scripting/Scripting.cpp:423-439 | the return and the new lifecycle are exactly those `TickOf` gives on the module tick's result |
| Scripting.JsScript.Print | src/features/scripting/Scripting.cpp:346-356 | the arguments' texts joined by single spaces are logged as Info |
| Scripting.Create | src/features/scripting/Scripting.cpp:112-210 | the new script's metadata and logs are exactly those `Created` decides for the file's contents, and no notification is scheduled or pending |
| Scripting.TickAllResult | src/features/scripting/Scripting.cpp:478-484 | as written, the aggregate is true exactly when every tick returned false |
| Scripting.HealthyTickReportsFailure | src/features/scripting/Scripting.cpp:478-484 | one healthy script makes the aggregate false, two failing ones make it true |
| Scripting.TickAllIntended | src/features/scripting/Scripting.cpp:478-484 | the intended aggregate is true exactly when every tick returned true |
| Scripting.TickAllIntendedReportsErrors | src/features/scripting/Scripting.cpp:478-484 | with the intended aggregate, a script's tick counts as success exactly when it was finished or its module tick succeeded |
| Scripting.LoadDirectory | src/features/scripting/Scripting.cpp:467-474 | one directory's script files are created in listing order, each fresh and distinct |
| Scripting.ScriptManager.constructor | src/features/scripting/Scripting.cpp:452-455 | the manager starts with no scripts |
| Scripting.ScriptManager.ReloadScripts | src/features/scripting/Scripting.cpp:461-476 | the scripts become exactly those created from the listed directories' script files, in order, each held once; a directory that cannot be listed contributes nothing |
| Scripting.ScriptManager.TickAll | src/features/scripting/Scripting.cpp:478-484 | every script is ticked once, in order; the result is true exactly when every tick returned false; each script's title, author, version, runnable flag and text are unchanged |
| Server.FindFirst | src/server/Server.cpp:42-50 | `get` finds nothing exactly when no pair has the key, and otherwise the value of the earliest pair with it |
| Server.AddedSize | src/server/Server.cpp:51-63 | adding grows the list by one below the limit, keeps its size at the limit, never exceeds the limit, and stores the new pair last |
| Server.RemoveKeyForgets | src/server/Server.cpp:64-66 | after `remove` nothing is found under the key |
| Server.RemoveKeyKeepsOthers | src/server/Server.cpp:64-66 | `remove` leaves what every other key finds unchanged |
| Server.RemoveKeyKeeps | src/server/Server.cpp:64-66 | `remove` keeps exactly the pairs with other keys |
| Server.AddedAbsentIsFound | src/server/Server.cpp:51-63 | a key added while absent is then found with its new value, eviction or not |
| Server.AddedDuplicateIsShadowed | src/server/Server.cpp:51-63 | `add` does not check for the key: with an older pair for it still held, lookups keep returning the older value |
| Server.CacheMap.constructor | src/server/Server.cpp:38-39 | the cache starts empty with a limit of 20 |
| Server.CacheMap.Add | src/server/Server.cpp:51-63 | below the limit the pair is appended; at the limit the oldest is dropped, the rest shift left and the pair goes last; the limit stays and is respected |
| Server.CacheMap.Remove | src/server/Server.cpp:64-66 | every pair with the key is dropped, the rest keep their order |
| Server.CacheMap.Clear | src/server/Server.cpp:67-69 | the cache is emptied and keeps its limit |
| Server.CacheMap.SetLimit | src/server/Server.cpp:70-73 | the limit is set and the cache emptied |
| Server.FunCache.constructor | src/server/Server.cpp:112 | a function's cache starts empty |
| Server.FunCache.Get | src/server/Server.cpp:116-125 | on a hit the cached request is returned and the function is not run; on a miss it runs once with caching off, and its request is stored under the arguments plus `false` and is found there afterwards; the cache stays well formed and keeps its limit |
| Server.FunCache.Remove | src/server/Server.cpp:127-131 | the arguments' request is forgotten, nothing is found under them afterwards, and the cache keeps its size limit |
| Server.FailureError | src/server/Server.cpp:304-312 | a failed response's error is its body when that is a JSON string, otherwise "Unknown error (code N)" |
| Server.EmptyResult | src/server/Server.cpp:285-287 | a request without a result value succeeds exactly when the response is ok, and otherwise carries the failure error |
| Server.StringResult | src/server/Server.cpp:289-295 | a string request succeeds exactly on an ok response whose body is a JSON string, then that string; non-JSON gives "Invalid JSON response ...", another JSON value "Invalid response schema ..." |
| Server.ParsedResult | src/server/Server.cpp:296-302 | a parsed request succeeds exactly on an ok JSON response the type's parser accepts; a parser error is appended to "Invalid response schema ..." as "(Error: ...)" |
| Server.FailureNeverOk | src/server/Server.cpp:304-312 | a failed response fails the same way whatever result type is expected |
| SupportersPopup.MaxPage | src/features/supporters/SupportersPopup.cpp:90-92 | the last page index is 0 with no supporters, and otherwise the index of the page holding the last supporter, ten to a page |
| SupportersPopup.SupporterOnSomePage | src/features/supporters/SupportersPopup.cpp:90-92 | every supporter's page, i / 10, is within the last page index |
| SupportersPopup.PageAfter | src/features/supporters/SupportersPopup.cpp:182-188 | the button's tag moves the page, and a negative result clamps to 0 |
| SupportersPopup.SupportersPopupState.constructor | src/features/supporters/SupportersPopup.cpp:8-72 | both page fields start at 0 and page 0 is requested, with the spinner shown, the error hidden and no page buttons |
| SupportersPopup.SupportersPopupState.UpdatePageInfo | src/features/supporters/SupportersPopup.cpp:176-180 | next is shown exactly when page < maxPage, previous exactly when page > 0, and the label is "Page: {page + 1}/{maxPage + 1}" |
| SupportersPopup.SupportersPopupState.LoadPage | src/features/supporters/SupportersPopup.cpp:77-84 | the page is set, the spinner shown, the error hidden, the list emptied, the page info refreshed and the page requested |
| SupportersPopup.SupportersPopupState.OnPage | src/features/supporters/SupportersPopup.cpp:182-188 | the page moved by the tag and clamped at 0 is loaded |
| SupportersPopup.SupportersPopupState.OnLoadPage | src/features/supporters/SupportersPopup.cpp:85-131 | the spinner is hidden; on success the last page index is recomputed and one row per supporter is appended, in order, with its name and tier colour; on success the error text and its visibility are unchanged; on failure the error text is shown and the list, the page, the last page index, the page label and both buttons are kept |
| Toggler.BEMenuItemToggler.constructor | src/utils/BEMenuItemToggler.hpp:13-36 | a new toggler is off, shows the off-node, retains each node once and has not called the setter |
| Toggler.BEMenuItemToggler.ToggleTo | src/utils/BEMenuItemToggler.hpp:41-45 | the state becomes the given value and the matching node is shown; nothing else changes |
| Toggler.BEMenuItemToggler.Toggle | src/utils/BEMenuItemToggler.hpp:38-40 | the state becomes the getter's value |
| Toggler.BEMenuItemToggler.IsToggled | src/utils/BEMenuItemToggler.hpp:46-48 | reports the toggled state |
| Toggler.BEMenuItemToggler.Activate | src/utils/BEMenuItemToggler.hpp:50-54 | a click flips the state and hands the new state to the setter exactly once |
| Toggler.BEMenuItemToggler.ActivateTwice | src/utils/BEMenuItemToggler.hpp:50-54 | two clicks restore the state and hand the setter both new states in turn |
| Toggler.BEMenuItemToggler.Release | src/utils/BEMenuItemToggler.hpp:56-59 | the destructor releases each node once |
| Toggler.CreateThenRelease | src/utils/BEMenuItemToggler.hpp:13-59 | creating a toggler and destroying it leaves both nodes' reference counts as they were |
| TriggerIndicators.TriggerColorRules | src/features/TriggerIndicators.cpp:17-92 | every trigger colour is a valid RGB triple; a non-trigger is white; the toggle colour follows "activate group"; the stop colour follows the command, an unknown command drawn as Stop |
| TriggerIndicators.InstantCollisionIsWhite | src/features/TriggerIndicators.cpp:17-92 | the instant collision trigger is a trigger without a colour case, so it is drawn white |
| TriggerIndicators.ParseIndicatorColors | src/features/TriggerIndicators.cpp:103-110 | "None" and "All" are recognised and every other text, "Selected Only" included, means selected-only |
| TriggerIndicators.ShouldRenderCases | src/features/TriggerIndicators.cpp:357-372 | a selected end always draws; with neither end selected, nothing draws when neither end is visible or when the indicator kind is off; turning the kind on never hides an indicator |
| TriggerIndicators.SlotLineColor | src/features/TriggerIndicators.cpp:466-497 | a valid colour: the trigger's colour unless colouring is off, and then cyan for a center slot and green for a target slot |
| TriggerIndicators.OutputLines | src/features/TriggerIndicators.cpp:466-497 | one line per output slot the trigger has, target first; with colouring on every line has the trigger's colour, with it off the target and center lines differ; a line is dashed exactly when its slot is a Center slot |
| TriggerIndicators.IndicatorNodes | src/features/TriggerIndicators.cpp:470-510 | a trigger neither selected nor on screen gets no slot markers; otherwise one per output target slot, output center slot and input target slot it has |
| TriggerIndicators.IndicesExact | src/features/TriggerIndicators.cpp:393-418 | a target draws a trigger-to-trigger line exactly when it is a trigger and `shouldRender` allows it, and joins the clusters exactly when it is not a trigger and all targets are shown or either end is selected |
| TriggerIndicators.LinesAndClustersDisjoint | src/features/TriggerIndicators.cpp:393-418 | no target both draws a trigger line and joins the clusters |
| TriggerIndicators.ClassifyTargets | src/features/TriggerIndicators.cpp:374-418 | a missing group yields no batch; otherwise the loop yields the trigger-line targets and the cluster candidates, in group order |
| TriggerIndicators.CheckTooManyObjects | src/features/TriggerIndicators.cpp:514-520 | "too many" exactly when the groups hold more than 1000 objects in all |
| TriggerIndicators.BusyPeriodAsWritten | src/features/TriggerIndicators.cpp:548-560 | as written, with all targets shown in a level that stays too large, indicators are recalculated at the first frame and next at frame 51, once every 51 frames |
| TriggerIndicators.BusyPeriodIntended | src/features/TriggerIndicators.cpp:548-560 | with the check at 50 frames, the comment's interval, the busy level is recalculated at frames 0 and 50 and at none between |
| TriggerIndicators.ThrottleRules | src/features/TriggerIndicators.cpp:548-564 | without "show all" indicators are recalculated every frame; a level last counted as small is recalculated on every frame up to the next re-check (the throttle starts out assuming too many, so this holds only after the first count); past 50 frames the count is re-checked and the frame recalculated; the frame counter never drops below 1 after a step |
| TriggerIndicators.IndicatorThrottle.constructor | src/features/TriggerIndicators.cpp:534-548 | the throttle starts with no frames counted and "too many" assumed |
| TriggerIndicators.IndicatorThrottle.Draw | src/features/TriggerIndicators.cpp:524-567 | without supporter access or with indicators hidden nothing happens; otherwise the frame advances exactly as the throttle step says, counting objects only when it asks, and recalculations are counted |
| ViewTab.GameObjectNode.constructor | src/features/ViewTab/ViewTab.cpp:83 | an object node holds the given object and visibility |
| ViewTab.GameObjectNode.SetVisible | src/features/ViewTab/ViewTab.cpp:88-100 | an object is visible afterwards exactly when asked to be and it is not a high-detail object hidden by "hide-ldm" in the editor |
| ViewTab.GameObjectNode.UpdateVisibility | src/features/ViewTab/ViewTab.cpp:84-86 | afterwards the object is visible exactly when it should not be hidden, whatever it was before |
| ViewTab.EditorSelection.constructor | src/features/ViewTab/ViewTab.cpp:386-407 | the selection starts empty |
| ViewTab.EditorSelection.SelectObject | src/features/ViewTab/ViewTab.cpp:386-391 | an object is passed on to the game's selection exactly when it should not be hidden |
| ViewTab.EditorSelection.SelectObjects | src/features/ViewTab/ViewTab.cpp:393-407 | as written, the loop (an unsigned index decremented every iteration, so always 0) removes only the leading run of hidden objects, and what remains is passed on |
| ViewTab.DropLeadingHiddenIsSuffix | src/features/ViewTab/ViewTab.cpp:393-407 | what the loop leaves is a suffix of the input whose removed prefix is all hidden and whose first object is shown |
| ViewTab.FilterHiddenSound | src/features/ViewTab/ViewTab.cpp:394-401 | the intended filter leaves no object that should be hidden, keeps every other one, and adds none |
| ViewTab.SelectObjectsKeepsLaterHidden | src/features/ViewTab/ViewTab.cpp:393-407 | a hidden object behind a shown one survives the loop as written, while the intended filter removes it |
| ViewTab.ModeBackgrounds | src/features/ViewTab/ViewTab.cpp:133-138 | the build, delete, edit and view buttons get one background each |
| ViewTab.OneModeHighlighted | src/features/ViewTab/ViewTab.cpp:114-138 | in modes 1 to 4 exactly one of the four buttons is highlighted, and in any other mode none is |
| ViewTab.ViewBarFollowsViewButton | src/features/ViewTab/ViewTab.cpp:346-367 | the view-tab button bar is visible exactly when the view button (tag 4) carries the highlighted background, and on UI show only when the UI is also shown |

## Left out

- Drawing, layout, node trees, sprites' appearance, touch geometry and all floating-point work (positions, line geometry, clustering of indicator lines) are not modelled. Only the decisions that feed them are modelled.
- Reading files, listing directories, the clipboard, the clock, the network, JSON parsing, base64 decoding and signature verification enter as parameters or as the value they return. Evaluating a script and running its pending jobs, and parsing a version string, do too.
- The iteration order of the script input's unordered map is a parameter of `Scripting.ValidateInput`.
- Switches over a string's hash are modelled as string equality, so hash collisions are not modelled.
- `Scripting.Trim`: takes Geode's `string::trimIP` to strip the "C"-locale `isspace` characters from both ends. The Geode library is not part of this model.
- `Pro.Split`: takes Geode's `string::split` to give no pieces for the empty string and otherwise the pieces between separators.
- `Server.CacheMap.Remove`: takes the predicate form of `ranges::remove` to erase the matching pairs, as Geode's range helper does. The standard algorithm of that name only moves them.
- `Server.CacheMap.SetLimit`: requires a limit of at least 1. Under a limit of 0 the source's `add` writes to the last element of an empty vector.
- The `FunCache` mutex and concurrent requests are not modelled. The model is single-threaded.
- The function cache's `size`, `limit` and `clear` forwarders are not modelled. They only call the `CacheMap` members of the same name, which are modelled.
- `MixedValues.ArrowValue`: the arrow on a plain `int` field at `INT_MAX` takes the two's-complement wrap. In C++ that overflow is undefined.
- `MixedValues.MixedValuesInput.Unmix`: requires at least one target. With no targets the source never hides the Unmix button (`updateLabel` returns at once, src/features/EditMixedValues.cpp:246), and a click reads `front()` of the empty target list in `getMinMax` (src/features/EditMixedValues.cpp:184), which is undefined behaviour; the model says nothing about that click.
- `MixedValues.MixedValuesInput.GetMinMax`: requires at least one target, for the same reason: on an empty target list the source reads `front()` of an empty vector.
- `MixedValues.Midpoint`: computed over unbounded integers. For z-order values far apart, `max - min` can exceed 32 bits in the source.
- `JsMarshal.ToJs`: the source's map encoder (src/features/scripting/QJS.hpp:444-450) calls a one-argument `JsTypeToCpp<T>::to` that does not exist, so it cannot be instantiated and no map is ever encoded. The model's empty object for a host map is only a placeholder, and no property is proved about it.
- `JsMarshal.DecodeMap`: decodes a map with the intended `getProperties`, which lists the object's own enumerable properties; as written every object decodes to the empty map (see Findings). A failing map reports the first failing property in the object's enumeration order, while the source walks an `unordered_map`, whose hash order decides which failing key is reported.
- `JsMarshal.Decode`: on map types it follows `JsMarshal.DecodeMap`, with the same intended `getProperties` and the same fixed order for the reported failure.
- `JsMarshal.ParsePropsFromRules`: states the intended map decoder, as `JsMarshal.DecodeMap` does; the reported failing key is the first in enumeration order, not in the source's hash order.
- `JsMarshal.RoundTrip`: holds only for host values whose strings contain no NUL, because `createString` and `toString` pass strings as C strings (src/features/scripting/QJS.cpp:221-223, 618-624) and cut them at the first NUL.
- `JsMarshal.AccessorNames`: gives the formatted "<prop>.get" and "<prop>.set" names. In the source `wrapFunction` keeps its name as a `std::string_view` (src/features/scripting/QJS.hpp:591) of a `fmt::format` temporary (src/features/scripting/QJS.hpp:619, 627), so the name an error message later reads is dangling and its contents are undefined.
- `JsMarshal.CallWrapped`: tags errors with the name as given; the dangling name of an accessor, as above, is not modelled.
- `Scripting.JsScript.Run`: ends the run when the GameObject class cannot be set up. The source logs the error and then dereferences the failed result at src/features/scripting/Scripting.cpp:342, which is undefined behaviour, so the model promises nothing about what happens after the log in the source.
- `QjsHandles.GetProperty`: looks only at the object's own enumerable properties. The source tests with `JS_HasProperty` (src/features/scripting/QJS.cpp:539), which also sees non-enumerable properties such as an array's `length` and the prototype chain; getters are not run. The reference each lookup leaks is modelled apart, by `QjsHandles.LookupLeaks` (see Findings).
- `QjsHandles.GetArrayItem`: on a non-array it looks only at own enumerable properties, for the same reason as `QjsHandles.GetProperty` (src/features/scripting/QJS.cpp:516); its leaked reference is likewise modelled by `QjsHandles.LookupLeaks`.
- `QjsHandles.SetProperty`: a read-only store (src/features/scripting/QJS.cpp:451-453) is modelled like a plain one. The source defines it non-writable and non-enumerable, and a later store to it throws; property attributes are not modelled. Stores to class instances are not modelled either.
- `QjsHandles.SetProperty`: on an array, a name that is not an index (such as "length" or "foo") is stored by the engine as a named property; arrays are modelled as their slots only, so the model promises nothing for that case. On a primitive the engine leaves a TypeError pending (the store uses `JS_PROP_THROW`); the model keeps the value and does not model the exception.
- `QjsHandles.Push`: the length of a plain object is a parameter, the engine's reading of its `length` property. A failing length read, and a push onto a non-object that leaves an engine exception pending, are not modelled.
- `Value::setPropertyBare`, `getRefCount`, `getRuntime` and `getPromiseState` are not modelled. They are direct engine calls.
- `Value::getPropertyNames` is not modelled. It has the same failure test as `getProperties` (src/features/scripting/QJS.cpp:553), so as written it also reports no names; no code modelled here calls it.
- `Value::operator==`, calling a script function and reading a promise's result are not modelled. Each is a single engine call.
- The `weak_ptr` checks in the UI callbacks and the posting of Geode events to other listeners are not modelled.
- The script bindings that expose game objects, the editor functions and the `input()` global to scripts are not modelled. They are engine calls.
- `Scripting.FileName`: splits a path at both '/' and '\\', as `std::filesystem::path` does on Windows, the mod's main platform. On the other platforms '\\' is an ordinary file-name character, so a name containing one would keep it there; the model does not capture that.
- `Scripting.LoadDirectory`: returns one directory's scripts as a new list, which `ReloadScripts` appends to the manager's list. The source pushes each script into the member vector directly, which gives the same final list.
- Code that is commented out in the source is not modelled.
- src/features/TriggerPreview.cpp, src/features/WrapMouseAround.cpp and src/features/supporters/UpdateUserCache.cpp are not modelled. They are movement, cursor geometry and a network round trip.
- The about popup, the support popup and the scripting UI are not part of this model. They are layout.

## Findings

| source | as written | input that shows it | evidently intended | confidence | as-written member | corrected member |
|---|---|---|---|---|---|---|
| src/features/GroupSummaryPopup.cpp:425 | the page label shows the page count plus one as the total | a search with one page of results shows "Page 1/2" while the next button is disabled | the label shows the page out of the page count | not executed | GroupSummary.PageLabelOverCounts | GroupSummary.PageLabelIntendedBounds |
| src/features/ViewTab/ViewTab.cpp:393-407 | the loop index is decremented after every pass, so only a leading run of hidden objects is removed | selecting [shown, hidden] keeps the hidden object | every hidden object is dropped from the selection | not executed | ViewTab.SelectObjectsKeepsLaterHidden | ViewTab.FilterHiddenSound |
| src/features/EditMixedValues.cpp:148-151 | the arrow adds the tag in the field's type, then clamps | editor layer 32767 plus one wraps to -32768 and is clamped to 0 | the value saturates at the type's maximum | not executed | MixedValues.EditorLayerArrowWrapsToZero | MixedValues.ArrowValueIntendedSaturates |
| src/features/TriggerIndicators.cpp:548-564 | the object count is re-checked when the frame counter exceeds 50 | in a level with too many objects, recalculations happen 51 frames apart | a re-check every 50 frames, as the comment states | not executed; low | TriggerIndicators.BusyPeriodAsWritten | TriggerIndicators.BusyPeriodIntended |
| src/features/scripting/QJS.hpp:294-299 | the null decoder's check is inverted | decoding null fails with "Expected integer, got null", and decoding undefined succeeds | accept exactly null | not executed | JsMarshal.NullRoundTripFails | JsMarshal.ParseNullIntended |
| src/features/scripting/QJS.cpp:309-320 | copy-assignment of a value handle does not release what the target held | a target holding the only reference to a value, assigned over and destroyed, leaves that value at count 1 | release the old value before copying | not executed | QjsHandles.AssignmentLeaks | QjsHandles.IntendedAssignThenDrop |
| src/features/scripting/Scripting.cpp:478-484 | `tickAll` negates each script's tick result before combining | one healthy script makes `tickAll` report failure | true exactly when no script's tick failed | not executed; low in effect, since the only caller (src/features/scripting/Scripting.cpp:496-498) ignores the result | Scripting.HealthyTickReportsFailure | Scripting.TickAllIntendedReportsErrors |
| src/features/scripting/Scripting.cpp:160-167 | a bare "/// @name" with no value keeps the default title and reports no error | a script whose header is only "/// @name" | an empty name is refused with an error log | not executed; medium | Scripting.BareNameKeepsTitle | Scripting.BareNameIntended |
| src/features/scripting/QJS.cpp:562-574 | `getProperties` treats an engine status of 0 or less as failure | the map decoder for `map<string, int>` given {a: 1} yields the empty map | only a negative status is a failure, so the object's properties are decoded | not executed; rests on QuickJS returning 0 from `JS_GetOwnPropertyNames` on success, which is outside this repository | JsMarshal.MapDecoderDropsProperties | JsMarshal.DecodeMap |
| src/features/scripting/QJS.cpp:512-546 | `getProperty` and `getArrayItem` wrap the engine's new reference with `Value::copy`, which takes another | each lookup, after its result is destroyed, leaves the property's value one count higher, so it is never freed | adopt the reference with `Value::own` | not executed | QjsHandles.LookupLeaks | QjsHandles.LookupIntendedBalances |
