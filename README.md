# Flexx widget core and property contract, in Dafny

This project models two parts of Flexx, a Python toolkit for building
browser user interfaces:

- `flexx/ui/_widget.py`, the base `Widget` class. The model covers:
  - the `FloatPairProp` validator;
  - `set_parent`, which re-links a widget between its old and new parent's
    `children` lists;
  - `apply_style`, which renders a dict style to CSS text and parses the
    text into declarations on the outer node;
  - the `css_class` reaction, which swaps the user-given class names;
  - the rule that makes a plain widget with one box or panel child act
    as a flex container;
  - the walk up the class hierarchy that adds `flx-<ClassName>` names;
  - the mouse-event and key-event normalisation (modifier list, button
    mask decoding, button remapping, key-code fallbacks);
  - the mouse-capture state machine (`_capture_flag` with the values
    None, 0, 1 and 2).
- The property contract of the event system, as exercised by
  `flexx/event/tests/test_properties.py`:
  - a validator per property kind;
  - setters that are actions, queued and applied only when the loop
    iterates;
  - `_mutate_*` calls, which are allowed only while an action is being
    processed;
  - properties without a setter;
  - list `insert`, `replace` and `remove` with Python's slice
    normalisation;
  - a rejected value keeps the old one;
  - the custom `MyCustomProp` validator.

Modules and files:

| file | module | contents |
|---|---|---|
| `wrappers.dfy` | `Wrappers` | `Option`, `Result`, `Outcome` |
| `text.dfy` | `Text` | `split` on one character, `join`, `trim`, substring test, `lower` |
| `values.dfy` | `Values` | dynamically typed values, `bool(v)`, `int(v)`, `float(v)` |
| `properties.dfy` | `Properties` | property kinds and their validators |
| `components.dfy` | `Components`, `PropertyScenarios` | the `Loop` and `Component` classes and the test scenarios |
| `widget_tree.dfy` | `WidgetTree` | the parent/children arena and `set_parent` |
| `styles.dfy` | `Styles` | `apply_style` |
| `css_classes.dfy` | `CssClasses` | the class-list reactions and the class-name walk |
| `input_events.dfy` | `InputEvents` | `_create_mouse_event`, `_create_key_event` |
| `mouse_capture.dfy` | `MouseCapture` | the capture state machine |

Some code in `_widget.py` runs in the browser (it uses `.trim()`,
`toString(2)`, `classList`). There the model follows JavaScript's
semantics: an index past the end of a string is `undefined` and so is
not `'1'`.

The validators of the built-in kinds are not part of the modelled source
files. They are modelled from the behaviour the tests print for each
kind:

- Any keeps anything.
- Bool stores truthiness and never fails.
- Int and Float accept numbers, bools and numeric strings.
- String accepts only strings.
- Tuple and List accept only tuples and lists.
- Component accepts only a component or None.

Constructor keyword arguments do not take effect at once: in
`test_property_defaults` (`test_properties.py`:115-121), `MyObject(foo=9)`
still prints 6 for `foo`, and 9 only after `loop.iter()`. The model follows
the test: the keyword arguments are queued as setter actions.

## Model

| member | source | states |
|---|---|---|
| Properties.ValidateFloatPair | flexx/ui/_widget.py:45-55 | a scalar is broadcast to a pair; a tuple or list must have exactly two items, else TypeError; each item must be a number or a string, else TypeError; the result is a tuple of the two items' `float()` values; an item that `float()` rejects gives ValueError |
| Properties.ValidateAbcAsWritten | flexx/event/tests/test_properties.py:20-23 | the custom validator as written accepts exactly the strings that are substrings of "abc" and raises TypeError otherwise |
| Properties.ValidateAbc | flexx/event/tests/test_properties.py:20-23 | the validator the error message describes accepts exactly "a", "b" and "c" |
| Properties.AbcSubstringAcceptsMore | flexx/event/tests/test_properties.py:20-23 | "", "ab", "bc" and "abc" pass the substring test but are not one of a, b, c; "d" fails both |
| Properties.AbcAgreesOnCharacters | flexx/event/tests/test_properties.py:20-23 | on one-character strings the substring test and the intended test agree |
| Properties.Validate | flexx/event/tests/test_properties.py:216-466 | a kind's validator succeeds exactly on the values the kind admits and its result conforms to the kind; Bool stores the truthiness; Int stores `int(v)` and Float `float(v)`; Tuple and List keep the items; Any, String and Component keep the value; a non-string failure is a TypeError; the custom kind runs the corrected validator (see "## Left out") |
| Properties.Admits | flexx/event/tests/test_properties.py:216-466 | the values each kind accepts; Properties.Validate succeeds exactly on them |
| Properties.Conforms | flexx/event/tests/test_properties.py:216-466 | the normalised values a property of each kind holds; Properties.Validate produces only such values and Properties.ConformingIsFixedPoint keeps them |
| Properties.ConformingIsFixedPoint | flexx/event/tests/test_properties.py:216-466 | a value that already conforms to its kind validates to itself |
| Properties.ValidateIdempotent | flexx/event/tests/test_properties.py:216-466 | validating a validated value gives it back unchanged |
| Properties.IntCoercions | flexx/event/tests/test_properties.py:259-281 | Int turns 42.9 into 42 and "9" into 9, and rejects the loop object with TypeError (the last by Properties.IntRejectsObject) |
| Properties.IntRejectsObject | flexx/event/tests/test_properties.py:279-281 | Int rejects any object that is neither a number nor a string with TypeError |
| Properties.IntTruncatesFloat | flexx/event/tests/test_properties.py:271-273 | Int of 42.9 is 42 |
| Properties.IntParsesNine | flexx/event/tests/test_properties.py:275-277 | Int of "9" is 9 |
| Properties.IntOfString | flexx/event/tests/test_properties.py:275-277 | Int of a string that `int()` parses is the parsed number |
| Properties.IntOfParsed | flexx/event/tests/test_properties.py:275-277 | `int()` of a parsable string is the parsed number |
| Properties.FloatCoercions | flexx/event/tests/test_properties.py:284-306 | Float keeps 42.9, turns "9.1" into 9.1, and rejects the loop object with TypeError (the last by Properties.FloatRejectsObject) |
| Properties.FloatRejectsObject | flexx/event/tests/test_properties.py:304-306 | Float rejects any object that is neither a number nor a string with TypeError |
| Properties.FloatParsesNinePointOne | flexx/event/tests/test_properties.py:300-302 | Float of "9.1" is 9.1 |
| Properties.FloatOfString | flexx/event/tests/test_properties.py:300-302 | Float of a string that `float()` parses is the parsed number |
| Properties.FloatOfParsed | flexx/event/tests/test_properties.py:300-302 | `float()` of a parsable string is the parsed number |
| Properties.FloatKeepsFloats | flexx/event/tests/test_properties.py:296-298 | Float keeps any float unchanged |
| Properties.ParseNinePointOne | flexx/event/tests/test_properties.py:300-302 | "9.1" parses to the real 9.1 |
| Properties.BoolCoercions | flexx/event/tests/test_properties.py:235-256 | Bool gives True for 42, False for "" and True for the loop object, and never fails |
| Properties.Rejections | flexx/event/tests/test_properties.py:309-444 | String rejects 3; Tuple and List reject 3, None and "asd"; Component rejects 3, the loop and "asd"; all with TypeError |
| Values.Truthy | flexx/event/tests/test_properties.py:235-256 | None is false; a bool is itself; a number is true exactly when it is not zero; a component or any other object is true; a string, tuple or list is true exactly when it is not empty |
| Values.ParseDigits | flexx/event/tests/test_properties.py:275-302 | a plain run of decimal digits parses to its value, both as an int and as a float |
| Values.ParseInt | flexx/event/tests/test_properties.py:275-277 | `int()` of a string: trimmed, an optional sign, then decimal digits; Values.ParseIntPadded states its value for every such string |
| Values.ParseFloat | flexx/event/tests/test_properties.py:300-302 | `float()` of a string: trimmed, an optional sign, digits with at most one decimal point; Values.ParseFloatPadded states its value for signed digits, and Properties.ParseNinePointOne for "9.1" |
| Values.ParseIntPadded | flexx/event/tests/test_properties.py:275-277 | `int()` of a run of digits with an optional sign and white space around it is the signed value of the digits |
| Values.ParseFloatPadded | flexx/event/tests/test_properties.py:300-302 | `float()` of a run of digits with an optional sign and white space around it is the signed value of the digits |
| Values.Truncate | flexx/event/tests/test_properties.py:271-273 | int() of a float truncates toward zero: the result is within one of the float and no farther from zero |
| Values.ToInt | flexx/event/tests/test_properties.py:259-281 | int() keeps an int, turns a bool into 0 or 1 and truncates a float toward zero; on a string it succeeds exactly when the string parses; every failure is a ValueError |
| Values.ToFloat | flexx/event/tests/test_properties.py:284-306 | float() keeps a float, converts an int exactly and turns a bool into 1.0 or 0.0; on a string it succeeds exactly when the string parses; every failure is a ValueError |
| Components.Defaults | flexx/event/tests/test_properties.py:26-46 | a fresh instance has a value for every declared property, and each value conforms to its kind |
| Components.SliceBound | flexx/event/tests/test_properties.py:162-171 | a negative index counts from the end; the bound is clamped into 0..n |
| Components.AssignSlice | flexx/event/tests/test_properties.py:162-171 | `a[lo:hi] = objs` keeps the prefix before the clamped start, splices in objs and keeps the suffix from the clamped stop |
| Components.Elements | flexx/event/tests/test_properties.py:162-171 | tuples and lists splice in their items, a string its one-character strings in order; nothing else is iterable |
| Components.Mutated | flexx/event/tests/test_properties.py:149-172 | set validates; insert, replace and remove need the current value to be a list and otherwise raise TypeError; each in-place edit is the slice assignment with the operand's items |
| Components.MutatedConforms | flexx/event/tests/test_properties.py:149-172 | a successful mutation keeps the property within its kind's values |
| Components.RemoveUndoesInsert | flexx/event/tests/test_properties.py:162-171 | removing as many items as were just inserted, at the same index, restores the list |
| Components.ReplaceInRange | flexx/event/tests/test_properties.py:168-169 | an in-range replace keeps the length and overwrites exactly the given positions |
| Components.InsertInRange | flexx/event/tests/test_properties.py:162-166 | an in-range insert puts the items before position i |
| Components.RemoveInRange | flexx/event/tests/test_properties.py:171-172 | an in-range remove of n items drops exactly those n items |
| Components.ReplayStep | flexx/event/tests/test_properties.py:66-69 | replaying one more queued action applies it after the earlier ones |
| Components.ApplyAction | flexx/event/tests/test_properties.py:66-69 | one setter action: a validated value replaces the property's value, and a rejected one, an unknown property or another target leaves the values as they were |
| Components.Replay | flexx/event/tests/test_properties.py:66-69 | the actions applied in queue order; Components.ReplayStep and ReplaySingle state it step by step |
| Components.ReplaySingle | flexx/event/tests/test_properties.py:66-69 | replaying a single action is applying it |
| Components.Loop.constructor | flexx/event/tests/test_properties.py:62-69 | a new loop has no pending actions and is not processing |
| Components.Loop.Iter | flexx/event/tests/test_properties.py:66-69 | `loop.iter()` empties the queue, leaves the loop not processing, and gives each target component the values of replaying the queued actions in order |
| Components.Loop.RunAction | flexx/event/tests/test_properties.py:66-69 | one action runs with the processing flag set and applies its setter to its target |
| Components.Component.constructor | flexx/event/tests/test_properties.py:62-64 | a new instance holds the validated defaults |
| Components.Component.Set | flexx/event/tests/test_properties.py:51-78 | a setter never changes a value directly: it queues an action, or raises AttributeError for a property without a setter and queues nothing |
| Components.Component.Mutate | flexx/event/tests/test_properties.py:81-100 | mutation outside action processing raises AttributeError and changes nothing; inside, the property takes the mutated value, and a failed validation keeps the old value |
| Components.KwargActions | flexx/event/tests/test_properties.py:115-120 | one setter action per keyword, all aimed at the new instance; Components.Create and Components.QueueSetters state that these are what construction queues, and Components.KwargActionsSnoc that each keyword adds its own action at the end |
| Components.FirstUnsettable | flexx/event/tests/test_properties.py:123-126 | the index of the first keyword naming a property without a setter, with every earlier keyword settable |
| Components.Create | flexx/event/tests/test_properties.py:104-127 | construction gives the defaults and queues the keyword setters; a keyword without a setter raises AttributeError, after the setters of the earlier keywords were queued |
| Components.QueueSetters | flexx/event/tests/test_properties.py:104-127 | the keyword setters are queued in order up to the first keyword without a setter, which raises AttributeError |
| Components.KwargActionsSnoc | flexx/event/tests/test_properties.py:115-120 | the actions of one more keyword are the earlier actions plus its own |
| Components.FirstUnsettableIs | flexx/event/tests/test_properties.py:123-126 | the first keyword without a setter is characterised by all earlier keywords being settable |
| PropertyScenarios.MyObjectWellFormed | flexx/event/tests/test_properties.py:26-46 | every default of `MyObject` passes its validator |
| PropertyScenarios.MyObjectDefaultsValid | flexx/event/tests/test_properties.py:26-46 | each declared default of `MyObject` validates to itself |
| PropertyScenarios.MyObjectDeclares | flexx/event/tests/test_properties.py:26-46 | `MyObject` declares the properties the scenarios use, with their kinds, defaults and settability |
| PropertyScenarios.MyObjectSpecs | flexx/event/tests/test_properties.py:26-46 | `MyObject`'s properties with their kinds, defaults and settability; checked by PropertyScenarios.MyObjectWellFormed and PropertyScenarios.MyObjectDeclares |
| PropertyScenarios.PropertySetting | flexx/event/tests/test_properties.py:51-78 | foo is 6, is still 6 after `set_foo(3.2)` and is 3.2 after the loop iterates; `set_bar` fails and bar stays "xx" |
| PropertyScenarios.PropertyMutating | flexx/event/tests/test_properties.py:81-100 | `_mutate_foo` outside an action raises AttributeError and foo stays 6; while processing it sets 9 |
| PropertyScenarios.PropertyKeywords | flexx/event/tests/test_properties.py:104-127 | `MyObject(foo=9)` shows 6, then 9 after the loop iterates; bar stays "xx"; `MyObject(bar='yy')` raises AttributeError |
| PropertyScenarios.EggsInserts | flexx/event/tests/test_properties.py:162-166 | the four inserts give [1, 2, 3, 4, 5, 6, 7, 8] |
| PropertyScenarios.EggsReplaceRemove | flexx/event/tests/test_properties.py:168-172 | replace gives [1, 2, 3, 44, 55, 66, 7, 8]; remove gives [1, 2, 3, 7, 8] |
| PropertyScenarios.ListMutations | flexx/event/tests/test_properties.py:149-172 | the list mutation test prints [], then the inserted, replaced and removed lists |
| PropertyScenarios.IterOne | flexx/event/tests/test_properties.py:66-69 | iterating with one queued setter validates the value and keeps the old one if validation fails |
| PropertyScenarios.SetThenIter | flexx/event/tests/test_properties.py:226-227 | a settable property set and then iterated holds the validated value, or keeps its old one |
| PropertyScenarios.IntProperty | flexx/event/tests/test_properties.py:259-281 | Int shows 0, 42, 9 and, after a rejection, 9 |
| PropertyScenarios.ComponentAndAbcSteps | flexx/event/tests/test_properties.py:412-466 | the validations the component and custom-property tests use |
| PropertyScenarios.ComponentProperty | flexx/event/tests/test_properties.py:412-444 | Component shows None, m1, m2 and None; 3, the loop and "asd" are rejected and None stays |
| PropertyScenarios.CustomProperty | flexx/event/tests/test_properties.py:447-466 | the custom property shows "a" and then "c"; 3, the loop and "d" are rejected and "c" stays |
| PropertyScenarios.BoolProperty | flexx/event/tests/test_properties.py:235-256 | Bool shows False, True, False and True |
| PropertyScenarios.FloatProperty | flexx/event/tests/test_properties.py:284-306 | Float shows 0, 42.9, 9.1 and, after a rejection, 9.1 |
| PropertyScenarios.TupleSteps | flexx/event/tests/test_properties.py:333-366 | the validations the tuple test uses |
| PropertyScenarios.TupleProperty | flexx/event/tests/test_properties.py:333-366 | Tuple shows (), (3, 4) and (5, 6); 3, None and "asd" are rejected and (5, 6) stays |
| PropertyScenarios.AnyProperty | flexx/event/tests/test_properties.py:216-232 | Any shows None, then 42, then the loop object |
| PropertyScenarios.StringProperty | flexx/event/tests/test_properties.py:309-329 | String shows "" and then "hello"; 3 is rejected and "hello" stays |
| PropertyScenarios.ListSteps | flexx/event/tests/test_properties.py:369-397 | a tuple set on a List property is stored as a list; 3, None and "asd" are rejected |
| PropertyScenarios.ListProperty | flexx/event/tests/test_properties.py:369-397 | List shows [], [3, 4] and [5, 6]; 3, None and "asd" are rejected and [5, 6] stays |
| PropertyScenarios.CustomDefaults | flexx/event/tests/test_properties.py:178-213 | a fresh `MyDefaults` holds 7, True, -9, 800.45, "heya", (2, "xx"), [3, "yy"], None and "b" |
| PropertyScenarios.ListInit | flexx/event/tests/test_properties.py:130-146 | eggs starts as [] and eggs3 as [3, 4] |
| WidgetTree.Without | flexx/ui/_widget.py:538-540 | removing every occurrence of w keeps every other widget with its multiplicity and leaves no w |
| WidgetTree.FirstIndex | flexx/ui/_widget.py:540 | `list.remove` finds the first occurrence |
| WidgetTree.RemoveFirst | flexx/ui/_widget.py:540 | `list.remove` drops exactly one occurrence |
| WidgetTree.WithoutConcat | flexx/ui/_widget.py:538-540 | removing all w from a concatenation removes them from each part |
| WidgetTree.RemoveFirstWithout | flexx/ui/_widget.py:539-540 | one `remove` step does not change the result of removing all |
| WidgetTree.RemoveAll | flexx/ui/_widget.py:537-542 | the `while self in children: children.remove(self)` loop removes every occurrence and nothing else |
| WidgetTree.NoneToRemove | flexx/ui/_widget.py:548-549 | a list without w is unchanged by the removal loop |
| WidgetTree.PlaceIndex | flexx/ui/_widget.py:550-557 | no position appends; a non-negative position is clamped to the end; a negative one counts from the end of the list with one extra slot, clamped at 0; -1 appends |
| WidgetTree.Placed | flexx/ui/_widget.py:545-557 | the new parent's list: without the widget, then the widget inserted at PlaceIndex; stated by WidgetTree.PlacedFacts, PlacedOnce and PlacedKeepsOthers |
| WidgetTree.PlacedFacts | flexx/ui/_widget.py:545-557 | the new child list is the list without w, with w inserted once at the placed index |
| WidgetTree.PlacedOnce | flexx/ui/_widget.py:545-557 | w occurs exactly once in the new child list |
| WidgetTree.PlacedKeepsOthers | flexx/ui/_widget.py:545-557 | the other children keep their order and multiplicity |
| WidgetTree.WithoutAround | flexx/ui/_widget.py:545-557 | removing the single w from a list gives the parts around it |
| WidgetTree.InsertOpt | flexx/ui/_widget.py:553-556 | `list.insert` at an in-range index |
| WidgetTree.InsertIndex | flexx/ui/_widget.py:553-556 | `list.insert` keeps an in-range index, puts a larger one at the end, counts a negative one from the end and clamps it at 0 |
| WidgetTree.Lift | flexx/ui/_widget.py:555 | the child list seen as a list that may hold the None placeholder; WidgetTree.LowerLift and WidgetTree.LiftLower state that Lower inverts it |
| WidgetTree.Lower | flexx/ui/_widget.py:557 | a list without placeholders seen as a child list; its inverse is stated by WidgetTree.LowerLift and WidgetTree.LiftLower |
| WidgetTree.LowerLift | flexx/ui/_widget.py:555-557 | a lifted list holds no placeholder, and lowering it gives the child list back |
| WidgetTree.LiftLower | flexx/ui/_widget.py:555-557 | lifting a list without placeholders after lowering it gives it back |
| WidgetTree.NegativeInsert | flexx/ui/_widget.py:554-557 | append None, insert at the negative position, pop the last item: the result is w inserted at the negative position counted with one extra slot |
| WidgetTree.LiftInjective | flexx/ui/_widget.py:554-557 | different child lists stay different once None may appear |
| WidgetTree.Place | flexx/ui/_widget.py:545-557 | the insertion code computes the placed list for every position, including the negative ones |
| WidgetTree.Widgets.constructor | flexx/ui/_widget.py:520-560 | an empty widget arena is consistent |
| WidgetTree.Widgets.Add | flexx/ui/_widget.py:520-560 | a new widget has no parent and no children |
| WidgetTree.Widgets.SetParent | flexx/ui/_widget.py:520-560 | a parent that is not a widget or None raises ValueError and changes nothing; otherwise w's parent becomes the new one and the children lists change as NewChildren says; parent and children lists stay consistent |
| WidgetTree.ParentOf | flexx/ui/_widget.py:530-531 | None means no parent; a known widget is a parent; anything else is rejected |
| WidgetTree.NewParents | flexx/ui/_widget.py:528-534 | the early exit keeps the parent links; otherwise the widget's parent becomes the new one |
| WidgetTree.NewChildren | flexx/ui/_widget.py:536-560 | the children lists after `set_parent`; stated by WidgetTree.SetParentEffect, NewParentList, OldParentList and OtherLists |
| WidgetTree.Consistent | flexx/ui/_widget.py:520-560 | the invariant `set_parent` keeps: each parented widget is listed once by its parent and each listed child has that parent; preserved by WidgetTree.SetParentConsistent |
| WidgetTree.SetParentEffect | flexx/ui/_widget.py:536-560 | the old parent's list loses w, the new parent's list gets w at the placed index, and no other list changes |
| WidgetTree.NewParentList | flexx/ui/_widget.py:545-560 | the new parent's list is the placed list, holding w exactly once |
| WidgetTree.OldParentList | flexx/ui/_widget.py:536-542 | a different old parent's list is its old list without w |
| WidgetTree.OtherLists | flexx/ui/_widget.py:536-560 | the lists of widgets that are neither the old nor the new parent are unchanged |
| WidgetTree.NewChildList | flexx/ui/_widget.py:536-560 | a list other than the new parent's does not contain w afterwards |
| WidgetTree.SetParentConsistent | flexx/ui/_widget.py:520-560 | `set_parent` keeps the tree consistent: every widget with a parent occurs exactly once in that parent's list, and every listed child has that parent |
| WidgetTree.ParentsStayListed | flexx/ui/_widget.py:520-560 | after `set_parent` every widget with a parent occurs exactly once in that parent's list |
| WidgetTree.ChildrenStayBacked | flexx/ui/_widget.py:520-560 | after `set_parent` every listed child has that widget as its parent |
| WidgetTree.ChildStaysBacked | flexx/ui/_widget.py:520-560 | one listed child has the listing widget as its parent |
| Styles.Render | flexx/ui/_widget.py:355-357 | a dict style renders to "key: value" joined by "; "; an empty dict renders to "", a non-empty one to non-empty text |
| Styles.DeclTexts | flexx/ui/_widget.py:356 | each entry renders as its "key: value" text; Styles.StepRendered proves such a text parses back to the entry |
| Styles.Step | flexx/ui/_widget.py:370-375 | a part without ':' changes nothing; a parsed part never removes a declaration |
| Styles.Decls | flexx/ui/_widget.py:370-375 | the parts parsed in order, stopping at the first that fails; stated by Styles.DeclsSnoc, DeclsStopsAtFailure, LaterPartWins and PartWithoutColonIgnored |
| Styles.ParseStyle | flexx/ui/_widget.py:369-375 | an empty style sets nothing, otherwise the parts split on ';' are parsed; Styles.DictStyleRoundTrip states what a dict style parses to |
| Styles.OuterNode.constructor | flexx/ui/_widget.py:368 | a new outer node has no style declarations |
| Styles.OuterNode.ApplyStyle | flexx/ui/_widget.py:347-389 | the node's style gains the parsed declarations; a part with more than one ':' raises ValueError after the earlier parts were applied; the result tells whether a size-limit key was set |
| Styles.UpdateUnion | flexx/ui/_widget.py:374-375 | updating the node's style and the parsed dict together keeps the style equal to the old style plus the dict |
| Styles.PartApplied | flexx/ui/_widget.py:370-375 | parsing one more part is one more step |
| Styles.DeclsStopsAtFailure | flexx/ui/_widget.py:372 | once a part raises, the parts after it are not applied |
| Styles.SizeLimitsChanged | flexx/ui/_widget.py:377-382 | the loop over the four size-limit keys reports true exactly when one of them was set |
| Styles.RenderedParts | flexx/ui/_widget.py:356-357 | the parts the rendered text consists of, every one after the first keeping the space of "; "; Styles.SplitRendered proves that splitting the rendered text on ';' gives exactly these parts |
| Styles.SplitRendered | flexx/ui/_widget.py:357-370 | splitting the rendered text on ';' gives back the rendered parts |
| Styles.SplitKeyValue | flexx/ui/_widget.py:372 | a "key:value" part with one ':' splits into key and value |
| Styles.StepKeyValue | flexx/ui/_widget.py:371-375 | a part with one ':' sets the trimmed key to the trimmed value |
| Styles.TrimLead | flexx/ui/_widget.py:373 | trimming removes the space the rendering put before a part |
| Styles.StepRendered | flexx/ui/_widget.py:356-375 | a rendered entry parses back to that key and value |
| Styles.DeclsSnoc | flexx/ui/_widget.py:370-375 | parsing one more part is one more step |
| Styles.RenderedPartsSnoc | flexx/ui/_widget.py:356-357 | the parts of one more entry are the earlier parts plus its own |
| Styles.DeclsRendered | flexx/ui/_widget.py:355-375 | parsing the rendered parts gives the entries as a map |
| Styles.DictStyleRoundTrip | flexx/ui/_widget.py:355-375 | applying a dict style sets exactly the dict's entries, the later of two equal keys winning, when keys and values hold no ':' or ';' and no outer spaces |
| Styles.LaterPartWins | flexx/ui/_widget.py:370-375 | a later part for the same key overrides an earlier one |
| Styles.PartWithoutColonIgnored | flexx/ui/_widget.py:371 | a part without ':' is skipped |
| CssClasses.Names | flexx/ui/_widget.py:403-408 | the names of a class string, split on spaces, without empty names |
| CssClasses.NamesOfJoin | flexx/ui/_widget.py:403-408 | the names of space-joined non-empty names are exactly those names |
| CssClasses.ClassList.constructor | flexx/ui/_widget.py:400-408 | a new class list is empty |
| CssClasses.ClassList.CssClassChanged | flexx/ui/_widget.py:400-408 | with no events nothing changes; otherwise the names of the first event's old value are removed and then the names of the last event's new value are added |
| CssClasses.SingletonChoice | flexx/ui/_widget.py:456-469 | nothing unless there is exactly one child; for a box-layout child, flx-hbox when it is a VBox and flx-vbox otherwise; for one of the five panels, flx-abs-children; for any other child, nothing |
| CssClasses.SingletonClasses | flexx/ui/_widget.py:452-469 | a layout keeps its classes; otherwise the three flex classes are removed and at most the chosen one added; the other classes never change |
| CssClasses.MissingCharNotContained | flexx/ui/_widget.py:452 | a string lacking a character of a marker does not contain the marker |
| CssClasses.FlexClassesAreNotLayouts | flexx/ui/_widget.py:452-469 | none of the three flex classes mentions the layout marker |
| CssClasses.StaysNonLayout | flexx/ui/_widget.py:452-469 | the rule never turns a plain widget into a layout |
| CssClasses.SingletonIdempotent | flexx/ui/_widget.py:452-469 | running the rule twice gives the same classes as running it once |
| CssClasses.ClassList.MakeSingletonContainerWork | flexx/ui/_widget.py:444-469 | the class list becomes what the singleton rule says |
| CssClasses.Walk | flexx/ui/_widget.py:231-239 | the walk adds at most one name per step |
| CssClasses.WalkOutcome | flexx/ui/_widget.py:231-239 | the walk ends at Widget or fails: RuntimeError after 32 steps, TypeError when the base class is missing; a walk that starts at a class adds its name first |
| CssClasses.WalkNames | flexx/ui/_widget.py:234 | every added name starts with "flx-" |
| CssClasses.WalkStep | flexx/ui/_widget.py:233-237 | at Widget the walk adds its name and stops; otherwise it adds the name and continues at the base class |
| CssClasses.WalkEnds | flexx/ui/_widget.py:233-239 | out of steps or without a class, the walk adds nothing more and fails |
| CssClasses.WalkAdvances | flexx/ui/_widget.py:233-237 | one loop iteration adds the current class and continues at its base |
| CssClasses.NamesSnoc | flexx/ui/_widget.py:234 | adding one more name to the list adds it to the set |
| CssClasses.SelfBaseRunsOut | flexx/ui/_widget.py:233-239 | a class that is its own base exhausts the 32 steps, adds its name 32 times and raises RuntimeError |
| CssClasses.DirectSubclass | flexx/ui/_widget.py:231-237 | a direct subclass of Widget gets its own name and "flx-Widget" |
| CssClasses.ClassList.AddClassName | flexx/ui/_widget.py:234-237 | one iteration adds "flx-" plus the class name |
| CssClasses.ClassList.AddHierarchyClasses | flexx/ui/_widget.py:231-239 | the loop adds exactly the names of the walk and reports its outcome |
| InputEvents.HeldNames | flexx/ui/_widget.py:753-754 | the names kept are exactly the listed ones whose key is held; InputEvents.ModifiersInOrder gives the exact list for the four modifiers |
| InputEvents.Modifiers | flexx/ui/_widget.py:753-754 | the `modifiers` list of every mouse and key event; stated by InputEvents.ModifiersHeld and InputEvents.ModifiersInOrder |
| InputEvents.ModifiersHeld | flexx/ui/_widget.py:753-754 | each of Alt, Shift, Ctrl and Meta is reported exactly when its key is held, and nothing else is reported |
| InputEvents.ModifiersInOrder | flexx/ui/_widget.py:753-754 | the modifiers list is exactly the held ones among Alt, Shift, Ctrl and Meta, each once, in that order |
| InputEvents.Binary | flexx/ui/_widget.py:762 | `toString(2)` has at least one digit, two for numbers from 2 |
| InputEvents.Reverse | flexx/ui/_widget.py:762 | reversing keeps the length and mirrors positions |
| InputEvents.MaskButtons | flexx/ui/_widget.py:767 | the buttons are the positions, from 1 to 5, whose mask character is '1', in increasing order |
| InputEvents.ButtonsPressed | flexx/ui/_widget.py:761-767 | the `buttons` list: the decoded mask, or the one-element fallback without a mask; stated by InputEvents.ButtonsMeaning |
| InputEvents.BinaryBits | flexx/ui/_widget.py:762 | digit i of the reversed binary string is '1' exactly when bit i is set |
| InputEvents.ZeroBits | flexx/ui/_widget.py:761-767 | zero has no bit set |
| InputEvents.ButtonsFromMask | flexx/ui/_widget.py:761-767 | with a non-zero mask, button b is pressed exactly when bit b-1 is set |
| InputEvents.BinaryIsOne | flexx/ui/_widget.py:766 | `toString(2)` is "1" only for 1 |
| InputEvents.ButtonsFallback | flexx/ui/_widget.py:763-767 | without a mask the list is [1] when `e.button` is 1 and empty otherwise |
| InputEvents.ButtonsMeaning | flexx/ui/_widget.py:761-767 | both branches of the buttons decoding |
| InputEvents.MiddleButtonReportsLeft | flexx/ui/_widget.py:763-768 | without a mask, a middle-button event reports button 3 but lists button 1 as pressed |
| InputEvents.ButtonRemap | flexx/ui/_widget.py:768 | the browser buttons 0..4 map to 1, 3, 2, 4, 5; the table has no entry for any other value (undefined in the browser) |
| InputEvents.BrowserButton | flexx/ui/_widget.py:768 | the inverse of the remapping table |
| InputEvents.ButtonRemapRoundTrip | flexx/ui/_widget.py:768 | the remapping is a bijection between 0..4 and 1..5 |
| InputEvents.CreateMouseEvent | flexx/ui/_widget.py:751-773 | the event's button is the remapped one, its buttons the decoded mask, its modifiers the held keys |
| InputEvents.Alias | flexx/ui/_widget.py:831 | "Esc" becomes "Escape" and "Del" becomes "Delete"; other keys are unchanged |
| InputEvents.KeyName | flexx/ui/_widget.py:821-831 | a non-empty key is used with its alias; with an empty key, an empty code gives ""; a "Key" code gives the rest of the code, lower-cased unless Shift is held; otherwise a "Digit" code gives the rest of the code; any other code is used as it is; each with its alias; the result is never "Esc" or "Del" |
| InputEvents.CreateKeyEvent | flexx/ui/_widget.py:815-832 | the event's key is the key name and its modifiers are the held keys |
| InputEvents.LetterCode | flexx/ui/_widget.py:822-827 | code "KeyA" gives "A" with Shift and "a" without |
| InputEvents.DigitCode | flexx/ui/_widget.py:828-829 | code "Digit5" gives "5" |
| MouseCapture.EmitOf | flexx/ui/_widget.py:676-679 | a move emits mouse_move and an up emits mouse_up |
| MouseCapture.CaptureOn | flexx/ui/_widget.py:659-665 | capturing sets the flag to 2 and listens on the document |
| MouseCapture.ReleaseOn | flexx/ui/_widget.py:667-670 | releasing sets the flag to 1 and stops listening |
| MouseCapture.Inside | flexx/ui/_widget.py:672-679 | with flag 1 the event is swallowed and the flag becomes 0; with a false flag the event is emitted; while captured it is left to the document listener |
| MouseCapture.Outside | flexx/ui/_widget.py:681-688 | while captured a move is emitted and an up releases and is emitted; otherwise nothing happens |
| MouseCapture.Step | flexx/ui/_widget.py:691-695 | one browser event as the listeners handle it: a press on the widget captures and is emitted, losing the capture releases, a move or release goes to the document listener when installed and then to the widget's handler when over it; its properties are MouseCapture.StepValid, AtMostOneEmission, CapturedEmitsOnce and UncapturedAwayIgnored |
| MouseCapture.StepValid | flexx/ui/_widget.py:657-695 | the document listener is on exactly when the flag is 2, before and after every event |
| MouseCapture.AtMostOneEmission | flexx/ui/_widget.py:657-695 | every mouse event emits at most one event, of its own kind, and a press emits mouse_down exactly when it is on the widget |
| MouseCapture.CapturedEmitsOnce | flexx/ui/_widget.py:672-688 | while captured, a move or up is emitted exactly once wherever the pointer is; an up ends the capture |
| MouseCapture.UncapturedAwayIgnored | flexx/ui/_widget.py:672-688 | without capture, events away from the widget are ignored |
| MouseCapture.Run | flexx/ui/_widget.py:657-695 | a sequence of browser events handled in order; its properties are MouseCapture.DragEmitsEveryMove and MouseCapture.ClickOnWidget |
| MouseCapture.DragEmitsEveryMove | flexx/ui/_widget.py:659-688 | during a drag, every move is emitted, once and in order |
| MouseCapture.ReleaseAwaySwallowsNextMove | flexx/ui/_widget.py:667-674 | a release away from the widget sets the flag to 1, so the next move over the widget is swallowed |
| MouseCapture.ClickOnWidget | flexx/ui/_widget.py:659-688 | press and release on the widget emit mouse_down and mouse_up once each and end with flag 0 |
| MouseCapture.Capturer.constructor | flexx/ui/_widget.py:657 | the flag starts as None and nothing listens on the document |
| MouseCapture.Capturer.Capture | flexx/ui/_widget.py:659-665 | the object's state changes as CaptureOn says |
| MouseCapture.Capturer.Release | flexx/ui/_widget.py:667-670 | the object's state changes as ReleaseOn says |
| MouseCapture.Capturer.MouseInside | flexx/ui/_widget.py:672-679 | the handler's effect is Inside |
| MouseCapture.Capturer.MouseOutside | flexx/ui/_widget.py:681-688 | the handler's effect is Outside |
| MouseCapture.Capturer.Dispatch | flexx/ui/_widget.py:691-695 | a browser event reaches the capture handler and then the inside or outside handler, as Step says |
| Text.Split | flexx/ui/_widget.py:370 | `split` gives at least one part and no part contains the separator |
| Text.SplitNoSeparator | flexx/ui/_widget.py:370 | a string without the separator splits into itself |
| Text.SplitAtFirst | flexx/ui/_widget.py:370 | splitting at the first separator |
| Text.SplitJoin | flexx/ui/_widget.py:357-370 | splitting joined parts on their separator gives the parts back |
| Text.Join | flexx/ui/_widget.py:357 | `sep.join(parts)`; Text.SplitJoin states that splitting inverts it |
| Text.TrimStart | flexx/ui/_widget.py:373 | drops exactly the leading white space: the result is a suffix, everything before it is white space, and it does not start with white space |
| Text.TrimEnd | flexx/ui/_widget.py:373 | drops exactly the trailing white space: the result is a prefix, everything after it is white space, and it does not end with white space |
| Text.Trim | flexx/ui/_widget.py:373 | `trim()` neither starts nor ends with white space and is no longer than its input; Text.TrimOccurs states that it is the input minus white space at both ends |
| Text.TrimOccurs | flexx/ui/_widget.py:373 | the trimmed text occurs in the input right after the leading white space, and all the input before and after it is white space |
| Text.TrimPadded | flexx/ui/_widget.py:373 | `trim()` of a text padded with white space on both sides, which neither starts nor ends with white space, is that text |
| Text.TrimOfTrimmed | flexx/ui/_widget.py:373 | trimming trimmed text changes nothing |
| Text.TrimSkipsLeadingSpace | flexx/ui/_widget.py:373 | a leading space does not change the trim |
| Text.ContainsAt | flexx/ui/_widget.py:452-468 | the substring test holds exactly when the substring occurs at some index |
| Text.ContainedAt | flexx/ui/_widget.py:452-468 | a contained substring occurs at some index |
| Text.OccursContained | flexx/ui/_widget.py:452-468 | a substring occurring at an index is contained |
| Text.Contains | flexx/ui/_widget.py:452-468 | the substring test `sub in s`; Text.ContainsAt states that it holds exactly when sub occurs at some index |
| Text.Lower | flexx/ui/_widget.py:827 | `lower()` keeps the length, leaves no upper-case ASCII letter, keeps every other character, and maps each upper-case letter to its lower-case letter |
| Text.LowerIdempotent | flexx/ui/_widget.py:827 | lower-casing twice is lower-casing once |

## Left out

- The DOM and the browser are not modelled: node creation, listener registration, and `window.event`. The outer node's style is a map and its `classList` a set of names.
- Mouse positions (`pos`, `page_pos`, the bounding rectangle) and the `mouse_wheel` event are not modelled. InputEvents.CreateMouseEvent models the button, buttons and modifiers fields only.
- `mouse_move` overwriting `button` with 0 is not modelled: the capture machine only records which event is emitted.
- `setCapture` and `CAPTURE_MOUSE`, Firefox's pointer capture outside the viewport, are not modelled.
- The NaN position branch of `set_parent` (`_widget.py`:558-559) is not modelled: positions are integers.
- `set_parent` here receives a widget id or None. `set_parent` is itself an action, which the source queues when it is called outside the event loop; here it is applied directly. The `_mutate_parent` and `_mutate_children` mutators that it calls are modelled as direct updates of the arena.
- Styles.OuterNode.ApplyStyle: a style part with more than one ':' is modelled as Python's unpacking error (ValueError). The browser's behaviour for such a part is not modelled.
- ApplyStyle: the re-assignment of the size-limit styles, which clears a layout cache, does not change the style map, so only its trigger is modelled.
- The crippling of the pair array in the browser (`_widget.py`:56-63) is not modelled: values are immutable here.
- Floats are modelled as exact reals: there is no rounding, infinity or NaN.
- Values.ParseInt and Values.ParseFloat strip surrounding ASCII white space (Text.IsSpace), then accept an optional sign, decimal digits and at most one decimal point. Unicode white space, exponents, underscores, "inf" and "nan" are not modelled.
- Text.Trim, and with it the `trim()` of `apply_style` (`_widget.py`:373), strips only ASCII white space (Text.IsSpace). The browser's `trim()` also strips non-ASCII white space such as U+00A0, U+FEFF and U+2028; that is not modelled.
- Values.ToInt and Values.ToFloat state for strings only whether parsing succeeds. The parsed value is stated by Properties.IntOfString and Properties.FloatOfString.
- Properties.Validate: the custom property kind of `MyCustomProp` runs the corrected validator Properties.ValidateAbc, not the substring test as written, so "ab" is rejected here while the source stores it. The as-written validator is Properties.ValidateAbcAsWritten (see "## Findings").
- The validators of the built-in property kinds are not part of this model's source files. They are modelled from the values the tests print.
- Reactions, emitters, `dispose`, sessions and the rest of the event loop are not modelled. The loop holds pending setter actions and a processing flag only.
- The copy-on-set and in-place aliasing of list values (`test_properties.py`:399-409) are not modelled: lists are immutable values.
- `test_more` (`test_properties.py`:472-490), which checks that a setter action may not share a name with a method, is not modelled.
- The differences between the Python and JavaScript runs of the tests (what they print for `None` or a loop object) are not modelled: the model states the values.
- Values.ParseInt follows Python's `int()`, which rejects "9.1" (`test_properties.py`:275 notes this); the JavaScript run of the same test is more lenient there, and that behaviour is not modelled.
- CssClasses.Walk: the class hierarchy is a map from class name to base class name. A class without a base, which in the source fails on `cls._base_class`, is modelled as TypeError.

## Findings

| source | as written | input that shows it | evidently intended | confidence | as-written member | corrected member |
|---|---|---|---|---|---|---|
| flexx/event/tests/test_properties.py:20-23 | `value not in 'abc'` is a substring test, so any substring of "abc" passes | "ab", "bc", "abc" and the empty string are accepted | only "a", "b" or "c", as the error message says | not executed | Properties.ValidateAbcAsWritten, Properties.AbcSubstringAcceptsMore | Properties.ValidateAbc |
