# Toolbar widget tool state, in Dafny

This project models the formatting toolbar of the globlocks Wagtail widgets. It covers the
tool registry lookup, the three tool variants and the `ToolbarWidget` controller from
`globlocks/static/globlocks/widgets/toolbar/toolbar-widget.js`.

A toolbar owns one target element. Its tools read and write that element's inline `style`
and its `dataset`:

- a style tool treats one style property as a space-separated token list;
- a heading tool stamps a `dataset` marker and `fontSize`;
- a colour tool stores a colour value.

Each tool has a button whose `active` class is the flag `execute` toggles on. The controller:

- resolves the requested tool names into fresh tool instances and group lists;
- binds each toolbar button to its instance and activates it from the initial aggregate
  value in a hidden input;
- recomputes the aggregate state (tool name to detected value), applies a whole aggregate
  with `setTools`, and serialises the aggregate back into the input.

Modules, one per file:

- `Dom` (`dom.dfy`): the JavaScript values that occur as tool values, their truthiness and
  string conversion, and `split(' ')`/`join`, with their round trips. Also a snapshot `Doc`
  of the target element and the `Target` class whose `style` and `dataset` maps the tools
  change in place.
- `Tokens` (`tokens.dfy`): the `push` and `splice` loops of the style tool's `setState` and
  `resetState`, each proved equal to a fold (`AddMissing`, `RemoveEach`), and what those
  folds do to the token list.
- `Tools` (`tools.dfy`): the `Tool` datatype, one constructor per variant, and the checks
  the variant constructors make. Also the heading table, the built-in prototype table, the
  lookup, `isActive`, `getState`, and `setState`/`resetState` as methods on the `Target`.
- `Toolbar` (`toolbar.dfy`): the registry the constructor builds and the constructor's
  button loop. Also the `ToolbarWidget` class, whose methods are `updateGroup`, `execute`,
  `updateState`, `setTools`, `setState`, `getState`, `getValue` and the colour picker's
  save and clear events.

Each tool instance is split in two. Its configuration is a `Tool` value. What
`initialize`, the button and the colour tool's `this.value` change is a `Binding`: whether
the instance is bound, whether its button is active, and its stored value. The controller
holds every instance's binding in a sequence indexed like `registeredTools`. A tool instance
that no button bound has no `target` and no `button`, so touching it throws a `TypeError`.
Every controller operation that can reach such an instance returns whether it ran to the
end, and the model keeps exactly the writes made before the throw.

Behaviours of the code worth knowing:

- `JSON.parse` throws on unparsable input text (`toolbar-widget.js:367-369`), so the
  constructor throws.
- A style tool whose property is empty reports the empty string, not `null`
  (`toolbar-widget.js:96-100`).
- Toggling, `setTools` and `getState` throw at run time when a registered tool has no button.
- `setTools` works through the tools in registration order, and a heading's `resetState`
  clears `fontSize` whichever heading set it (`toolbar-widget.js:203-206, 448-463`). So an
  aggregate that sets an earlier heading but not a later one ends with an empty `fontSize`
  (`LastHeadingClearsFontSize`).
- A style tool configured with an array token holding a space writes that token, reads it
  back as several tokens and so cannot remove it again (`SpacedTokenSurvivesReset`). The
  round-trip and detection lemmas therefore assume space-free tokens.
- Feeding `getState()` back to `setTools` does not give the same active set when style tools
  share a property. `getState` reports every tool on a non-empty property with the same token
  list, and `setTools` sets every tool whose entry is truthy (`toolbar-widget.js:95-101,
  448-463, 475-489`). So with only the underline tool active on `textDecoration: underline`,
  the restore raises the strike-through tool's flag and writes `line-through`
  (`SetToolsRaisesSharers`, `RestoreRaisesStrikethrough`).

## Model

| member | source | states |
|---|---|---|
| Dom.Split | globlocks/static/globlocks/widgets/toolbar/toolbar-widget.js:83 | `split(' ')` returns at least one piece and no piece contains a space |
| Dom.JoinSplit | globlocks/static/globlocks/widgets/toolbar/toolbar-widget.js:95-111 | joining the split pieces with spaces gives the style text back |
| Dom.SplitJoin | globlocks/static/globlocks/widgets/toolbar/toolbar-widget.js:95-111 | splitting the space-joined text of space-free tokens gives the tokens back |
| Tokens.IndexOf | globlocks/static/globlocks/widgets/toolbar/toolbar-widget.js:107 | `indexOf` is the first position holding the value, or -1 exactly when it is absent |
| Tokens.PushMissing | globlocks/static/globlocks/widgets/toolbar/toolbar-widget.js:104-110 | the push loop computes the fold that appends each configured token not already present |
| Tokens.SpliceEach | globlocks/static/globlocks/widgets/toolbar/toolbar-widget.js:115-121 | the splice loop computes the fold that removes the first occurrence of each configured token |
| Tokens.AddMissingAppended | globlocks/static/globlocks/widgets/toolbar/toolbar-widget.js:104-111 | the push loop's result is the old list followed by new tokens that repeat neither each other nor the old list, each from the configured ones |
| Tokens.AddMissingMembers | globlocks/static/globlocks/widgets/toolbar/toolbar-widget.js:104-111 | a token is present after the push loop iff it was present before or is configured |
| Tokens.AddMissingShape | globlocks/static/globlocks/widgets/toolbar/toolbar-widget.js:104-111 | the old tokens stay first and in order; a token is present afterwards iff it was present or configured; no appended token repeats an earlier one |
| Tokens.AddMissingNoDup | globlocks/static/globlocks/widgets/toolbar/toolbar-widget.js:104-111 | appending to a duplicate-free list keeps it duplicate-free |
| Tokens.AddMissingSpaceFree | globlocks/static/globlocks/widgets/toolbar/toolbar-widget.js:104-111 | appending space-free tokens keeps the list space-free |
| Tokens.RemoveEachCounts | globlocks/static/globlocks/widgets/toolbar/toolbar-widget.js:115-122 | removal takes away one occurrence per configured token: the multiset difference |
| Tokens.RemoveEachLeavesNone | globlocks/static/globlocks/widgets/toolbar/toolbar-widget.js:115-122 | when no configured token occurs twice in the list, no configured token is left and every token left was there before |
| Tokens.RemoveEachKeepsOthers | globlocks/static/globlocks/widgets/toolbar/toolbar-widget.js:115-122 | removal keeps every other token, in its original order |
| Tokens.AddThenRemove | globlocks/static/globlocks/widgets/toolbar/toolbar-widget.js:103-123 | removing after appending gives back a list that shared no token with the configured ones |
| Tools.Tool.Group | globlocks/static/globlocks/widgets/toolbar/toolbar-widget.js:29-31 | heading tools are in the group `heading`; colour tools have a `null` group (with lines 91-93 and 186-188) |
| Tools.MakeStyle | globlocks/static/globlocks/widgets/toolbar/toolbar-widget.js:22-27 | a style tool constructs iff the tool type is non-empty and the style value is truthy (an array, or a non-empty string); a missing tool type throws first; a string style value becomes its space-split tokens, an array is kept (with lines 76-89) |
| Tools.MakeHeading | globlocks/static/globlocks/widgets/toolbar/toolbar-widget.js:177-184 | only the six heading table keys construct, taking the table's tag and font size |
| Tools.MakeColor | globlocks/static/globlocks/widgets/toolbar/toolbar-widget.js:211-214 | a colour tool constructs iff it has a tool type, keeping its attribute |
| Tools.BuiltInNamesAreKeys | globlocks/static/globlocks/widgets/toolbar/toolbar-widget.js:315-333 | the default tool list names exactly the built-in table's keys (with line 345) |
| Tools.FontStyleBuiltInsAreConstructed | globlocks/static/globlocks/widgets/toolbar/toolbar-widget.js:316-317 | the bold and italic prototypes are what their constructor calls build |
| Tools.DecorationBuiltInsAreConstructed | globlocks/static/globlocks/widgets/toolbar/toolbar-widget.js:318-319 | the underline and strike-through prototypes share `textDecoration` with one token each |
| Tools.JustifyBuiltInsAreConstructed | globlocks/static/globlocks/widgets/toolbar/toolbar-widget.js:320-322 | the justify prototypes share `textAlign` and the group `text-align` |
| Tools.MarkerBuiltInsAreConstructed | globlocks/static/globlocks/widgets/toolbar/toolbar-widget.js:149-174 | heading prototypes take their sizes from the heading table and ignore the extra arguments (3em, not 2em) (with lines 324-332) |
| Tools.Lookup | globlocks/static/globlocks/widgets/toolbar/toolbar-widget.js:1-10 | a tool is found iff the name is non-empty and known; the extension map has priority over the built-ins |
| Tools.CheckActive | globlocks/static/globlocks/widgets/toolbar/toolbar-widget.js:33-35 | `isActive` holds iff a style value is an array holding a configured token or a non-empty configured string; a heading value is exactly its tag; a colour value is truthy (with lines 125-146, 190-192 and 216-219) |
| Tools.StateOf | globlocks/static/globlocks/widgets/toolbar/toolbar-widget.js:95-101 | a style tool reads its non-empty property as space-free tokens that join back to the text, so they are exactly its `split(' ')`, or `""` when empty; heading and colour tools read their `dataset` entry (with lines 194-196 and 295-297) |
| Tools.CurrentTokens | globlocks/static/globlocks/widgets/toolbar/toolbar-widget.js:104 | `getState() \|\| []` is empty for an empty property and otherwise joins back to the property text (with line 115) |
| Tools.SetState | globlocks/static/globlocks/widgets/toolbar/toolbar-widget.js:103-112 | `setState` changes the target as the variant's specification says, and the binding only for the colour tool, whose flag it raises (with lines 198-201 and 299-304) |
| Tools.ResetState | globlocks/static/globlocks/widgets/toolbar/toolbar-widget.js:114-123 | `resetState` changes the target as the variant's specification says, and the binding only for the colour tool, whose value it forgets and whose flag it lowers (with lines 203-206 and 306-311) |
| Tools.StyleSetAppends | globlocks/static/globlocks/widgets/toolbar/toolbar-widget.js:103-112 | a style `setState` changes only its property, keeping the old tokens in order and appending each missing configured token once |
| Tools.StyleSetShows | globlocks/static/globlocks/widgets/toolbar/toolbar-widget.js:95-112 | for a tool with space-free tokens, `getState` after `setState` reports a non-empty token iff it was reported before or the tool configures it |
| Tools.StyleResetRemoves | globlocks/static/globlocks/widgets/toolbar/toolbar-widget.js:114-123 | a style `resetState` changes only its property, removing one occurrence per configured token and keeping all others in order (with lines 318-319) |
| Tools.StyleRoundTrip | globlocks/static/globlocks/widgets/toolbar/toolbar-widget.js:103-123 | for a tool with space-free tokens, `resetState` right after `setState` restores the original property text when it shared no token with the tool, and leaves everything else as it was |
| Tools.SpacedTokenSurvivesReset | globlocks/static/globlocks/widgets/toolbar/toolbar-widget.js:82-87 | an array token holding a space, set and then reset on an empty property, stays in the property: the round trip fails without space-free tokens (with lines 103-123) |
| Tools.StyleReadAfterSet | globlocks/static/globlocks/widgets/toolbar/toolbar-widget.js:95-112 | for a tool with space-free tokens, `getState` after `setState` reads back exactly the list that was written, or nothing when it joined to empty text |
| Tools.StyleSetDetected | globlocks/static/globlocks/widgets/toolbar/toolbar-widget.js:95-146 | after a style `setState` a tool with space-free tokens, one of them non-empty, detects itself as active |
| Tools.StyleResetUndetected | globlocks/static/globlocks/widgets/toolbar/toolbar-widget.js:95-146 | after a style `resetState` the tool detects itself as inactive, when none of its configured tokens occurred twice in the property; other tokens may repeat |
| Tools.ResetShrinksTokens | globlocks/static/globlocks/widgets/toolbar/toolbar-widget.js:114-123 | no tool's `resetState` adds an occurrence of any token to what a style tool reads (with lines 203-206 and 306-311) |
| Tools.AddedNothingVisible | globlocks/static/globlocks/widgets/toolbar/toolbar-widget.js:103-112 | a style `setState` writes an empty property only when the property was empty |
| Tools.MarkerToolsDetectWrites | globlocks/static/globlocks/widgets/toolbar/toolbar-widget.js:190-206 | heading tools detect their own `setState` and `resetState`; a colour tool detects its `setState` iff its value prints non-empty (with lines 216-219 and 295-311) |
| Tools.SharedPropertySameState | globlocks/static/globlocks/widgets/toolbar/toolbar-widget.js:95-101 | style tools on the same property read the same state (with lines 318-322) |
| Toolbar.FirstUnknown | globlocks/static/globlocks/widgets/toolbar/toolbar-widget.js:382-388 | the position of the first requested name the lookup does not know |
| Toolbar.ObjectsOf | globlocks/static/globlocks/widgets/toolbar/toolbar-widget.js:391 | the name map has exactly the requested names, each mapped to its last registration |
| Toolbar.ToolsOf | globlocks/static/globlocks/widgets/toolbar/toolbar-widget.js:382-389 | when every name is known, one instance per name, each the one the lookup returns |
| Toolbar.GroupsOfLists | globlocks/static/globlocks/widgets/toolbar/toolbar-widget.js:393-398 | there is a list for exactly the truthy groups; each holds exactly that group's instances, in registration order |
| Toolbar.RegistryOf | globlocks/static/globlocks/widgets/toolbar/toolbar-widget.js:382-399 | registration throws iff some name is unknown, naming the first; otherwise one instance per name, the name map and the group lists |
| Toolbar.RegistryOfPrefix | globlocks/static/globlocks/widgets/toolbar/toolbar-widget.js:382-399 | once the loop has resolved a run of names, it throws at the next unknown name or builds the registry |
| Toolbar.BuildRegistry | globlocks/static/globlocks/widgets/toolbar/toolbar-widget.js:382-399 | the registration loop computes `RegistryOf` |
| Toolbar.SetStep | globlocks/static/globlocks/widgets/toolbar/toolbar-widget.js:456-457 | `setState` plus raising the flag touches only its own instance and throws iff the instance is unbound; a bound tool's flag is raised and the target is written by `setState`; an unbound style tool changes nothing, an unbound marker tool writes the target but no binding (with lines 103-112, 198-201 and 299-304) |
| Toolbar.ResetStep | globlocks/static/globlocks/widgets/toolbar/toolbar-widget.js:459-460 | `resetState` plus lowering the flag touches only its own instance and throws iff it is unbound; the target is written by `resetState` except for an unbound style tool, which changes nothing; a colour tool forgets its value, others keep it; it only removes `dataset` entries and a heading loses its marker (with lines 114-123, 203-206 and 306-311) |
| Toolbar.SetToolStep | globlocks/static/globlocks/widgets/toolbar/toolbar-widget.js:450-461 | one round of `setTools` throws iff the named instance is unbound; otherwise the target is written by `setState` when the entry is truthy and by `resetState` otherwise, and the flag is set to whether the entry is truthy; it binds nothing and touches no other instance |
| Toolbar.SetToolsThrows | globlocks/static/globlocks/widgets/toolbar/toolbar-widget.js:448-463 | `setTools` throws iff some registered name, from the current one on, refers to an unbound instance |
| Toolbar.SetToolsFrame | globlocks/static/globlocks/widgets/toolbar/toolbar-widget.js:448-463 | `setTools` binds and unbinds nothing and leaves every instance no remaining name refers to as it was |
| Toolbar.SetToolsKeepsSettled | globlocks/static/globlocks/widgets/toolbar/toolbar-widget.js:448-463 | an instance whose flag already agrees with its entry still agrees after `setTools` |
| Toolbar.SetToolsFlags | globlocks/static/globlocks/widgets/toolbar/toolbar-widget.js:448-463 | when `setTools` runs to its end, each registered tool's flag is raised iff its entry is truthy |
| Toolbar.LastHeadingClearsFontSize | globlocks/static/globlocks/widgets/toolbar/toolbar-widget.js:448-463 | when the last registered tool is a heading whose entry is falsy, a `setTools` that runs to its end leaves `fontSize` empty, whatever earlier headings set (with lines 203-206) |
| Toolbar.GroupMembers | globlocks/static/globlocks/widgets/toolbar/toolbar-widget.js:439-440 | the sibling list handed to `execute` holds only registered instances |
| Toolbar.ResetOthersThrows | globlocks/static/globlocks/widgets/toolbar/toolbar-widget.js:45-53 | resetting the siblings throws iff some sibling other than the clicked tool is unbound |
| Toolbar.ResetOthersFrame | globlocks/static/globlocks/widgets/toolbar/toolbar-widget.js:45-53 | resetting the siblings raises no flag, binds nothing, spares the clicked tool and non-members, and adds no `dataset` entry |
| Toolbar.ResetOthersClears | globlocks/static/globlocks/widgets/toolbar/toolbar-widget.js:45-53 | when resetting the siblings runs to its end, every sibling's flag is down and no heading sibling keeps its marker |
| Toolbar.ResetOthersShrinks | globlocks/static/globlocks/widgets/toolbar/toolbar-widget.js:45-53 | resetting the siblings adds no occurrence of any token to what a style tool reads |
| Toolbar.StaysCleared | globlocks/static/globlocks/widgets/toolbar/toolbar-widget.js:45-53 | a reset sibling stays reset through later resets, which raise no flag and add no marker |
| Toolbar.ExecuteSpec | globlocks/static/globlocks/widgets/toolbar/toolbar-widget.js:287-293 | a colour tool's `execute` changes nothing on the target; when bound it raises its flag iff its `dataset` entry is non-empty, and when unbound it throws and changes nothing |
| Toolbar.ExecuteExclusive | globlocks/static/globlocks/widgets/toolbar/toolbar-widget.js:44-62 | after `execute`, every other group member is inactive and the clicked flag is flipped, so at most one member is active; non-members are untouched |
| Toolbar.HeadingToggle | globlocks/static/globlocks/widgets/toolbar/toolbar-widget.js:44-62 | a heading click ends with `fontSize` at its level's size and its marker set, or both cleared; no other heading sibling keeps its marker (with lines 198-206) |
| Toolbar.StyleClickDetected | globlocks/static/globlocks/widgets/toolbar/toolbar-widget.js:44-62 | clicking a bound style tool whose flag is down, with space-free tokens one of which is non-empty, leaves it detecting itself on the target when the click does not throw (with lines 103-146) |
| Toolbar.StyleClickUndetected | globlocks/static/globlocks/widgets/toolbar/toolbar-widget.js:44-62 | clicking a bound style tool whose flag is up, when none of its tokens occurred twice in its property, leaves it no longer detecting itself when the click does not throw (with lines 114-146) |
| Toolbar.AggregateOf | globlocks/static/globlocks/widgets/toolbar/toolbar-widget.js:475-489 | the aggregate holds exactly the registered names whose tool detects a truthy value, with that value; it throws iff a registered tool is unbound |
| Toolbar.CollectStep | globlocks/static/globlocks/widgets/toolbar/toolbar-widget.js:483-486 | one more name adds its entry exactly when its state is truthy |
| Toolbar.AggregateSharesProperty | globlocks/static/globlocks/widgets/toolbar/toolbar-widget.js:95-101 | registered style tools on one property appear together in the aggregate, with the same token list (with lines 475-489) |
| Toolbar.SetToolsRaisesSharers | globlocks/static/globlocks/widgets/toolbar/toolbar-widget.js:448-463 | feeding `getState()` back to `setTools` runs to its end and raises the flags of both style tools on a shared non-empty property, whichever was active (with lines 475-489) |
| Toolbar.DecorationToolbarBuilt | globlocks/static/globlocks/widgets/toolbar/toolbar-widget.js:381-399 | the registry the constructor builds for `UNDERLINE` and `STRIKETHROUGH`: both on `textDecoration`, with no group list |
| Toolbar.StrikethroughIdle | globlocks/static/globlocks/widgets/toolbar/toolbar-widget.js:95-101 | on `textDecoration: underline` the strike-through tool does not detect itself (with lines 125-146) |
| Toolbar.RestoreRaisesStrikethrough | globlocks/static/globlocks/widgets/toolbar/toolbar-widget.js:448-463 | with only underline active on `textDecoration: underline`, `setTools(getState())` raises the strike-through tool's flag |
| Toolbar.ButtonStep | globlocks/static/globlocks/widgets/toolbar/toolbar-widget.js:410-430 | one button's round throws iff the button names no registered tool, or a colour tool without Pickr, leaving the target as it was; otherwise that tool is bound to its initial value, active iff `isActive(value[name])`, and the target is written by its `setState` exactly when it is active; no other instance changes |
| Toolbar.ButtonShowsStyle | globlocks/static/globlocks/widgets/toolbar/toolbar-widget.js:427-430 | after a button whose style tool (with space-free tokens) is active for its initial value, the property shows the tool's non-empty tokens next to those that were there before, and nothing else |
| Toolbar.InitThrows | globlocks/static/globlocks/widgets/toolbar/toolbar-widget.js:401-431 | the button loop throws iff some remaining button names no registered tool, or names a colour tool while Pickr is missing |
| Toolbar.InitFrame | globlocks/static/globlocks/widgets/toolbar/toolbar-widget.js:401-431 | the button loop leaves every instance no remaining button names as it was |
| Toolbar.InitBinds | globlocks/static/globlocks/widgets/toolbar/toolbar-widget.js:401-431 | when the button loop runs to its end, every button's tool is bound to its initial value and active iff `isActive(value[name])`, also when a later button rebinds the same tool |
| Toolbar.InitialValue | globlocks/static/globlocks/widgets/toolbar/toolbar-widget.js:366-373 | an empty input or a falsy parse gives `{}`; unparsable text throws |
| Toolbar.SetUp | globlocks/static/globlocks/widgets/toolbar/toolbar-widget.js:343-431 | the constructor checks, in order, target given, target resolved, input parsable, tools registered, then the buttons |
| Toolbar.FinishActivates | globlocks/static/globlocks/widgets/toolbar/toolbar-widget.js:401-431 | once the registry is built, a successful button loop leaves each button's tool bound and active iff active for its initial value, and all other instances unbound and inactive |
| Toolbar.SetUpActivates | globlocks/static/globlocks/widgets/toolbar/toolbar-widget.js:401-431 | a constructed toolbar has each button's tool bound and active iff active for its initial value; all other instances are unbound and inactive |
| Toolbar.InitButtons | globlocks/static/globlocks/widgets/toolbar/toolbar-widget.js:401-431 | the button loop on the target computes `InitFrom` |
| Toolbar.ToolbarWidget.Create | globlocks/static/globlocks/widgets/toolbar/toolbar-widget.js:343-431 | construction returns the controller `SetUp` describes, or its error, and leaves the target as `SetUp` says even when it throws |
| Toolbar.ToolbarWidget.Launch | globlocks/static/globlocks/widgets/toolbar/toolbar-widget.js:401-431 | once the registry is built, the button loop runs on the target and a controller is returned, or the loop's error, as `Finish` describes |
| Toolbar.ToolbarWidget.SwitchOn | globlocks/static/globlocks/widgets/toolbar/toolbar-widget.js:456-457 | one tool's `setState` plus raising its flag, as `SetStep` |
| Toolbar.ToolbarWidget.SwitchOff | globlocks/static/globlocks/widgets/toolbar/toolbar-widget.js:459-460 | one tool's `resetState` plus lowering its flag, as `ResetStep` |
| Toolbar.ToolbarWidget.ResetSiblings | globlocks/static/globlocks/widgets/toolbar/toolbar-widget.js:45-53 | the loop at the start of `execute` computes `ResetOthers` and leaves the input alone |
| Toolbar.ToolbarWidget.Execute | globlocks/static/globlocks/widgets/toolbar/toolbar-widget.js:44-62 | the clicked tool's `execute` does what `ExecuteSpec` says and leaves the input alone (with lines 287-293) |
| Toolbar.ToolbarWidget.GetState | globlocks/static/globlocks/widgets/toolbar/toolbar-widget.js:475-489 | the collecting loop computes `AggregateOf` for the current target and bindings |
| Toolbar.ToolbarWidget.GetValue | globlocks/static/globlocks/widgets/toolbar/toolbar-widget.js:491-493 | `getValue` is the aggregate state |
| Toolbar.ToolbarWidget.SetTools | globlocks/static/globlocks/widgets/toolbar/toolbar-widget.js:448-463 | the loop computes `SetToolsFrom` and leaves the input alone |
| Toolbar.ToolbarWidget.SetState | globlocks/static/globlocks/widgets/toolbar/toolbar-widget.js:465-473 | a `null` value changes nothing; otherwise `setTools` runs unless skipped, then the input holds the value, unless `setTools` threw |
| Toolbar.ToolbarWidget.UpdateState | globlocks/static/globlocks/widgets/toolbar/toolbar-widget.js:434-436 | the target and every binding stay as they were; the input holds the recomputed aggregate unless reading it threw |
| Toolbar.ToolbarWidget.UpdateGroup | globlocks/static/globlocks/widgets/toolbar/toolbar-widget.js:438-446 | a click runs `execute`, then stores the aggregate of the resulting state |
| Toolbar.ToolbarWidget.SaveColor | globlocks/static/globlocks/widgets/toolbar/toolbar-widget.js:268-275 | a saved colour is stored and applied with the flag raised; a cleared save resets, forgetting the value; the input is not updated |
| Toolbar.ToolbarWidget.ClearColor | globlocks/static/globlocks/widgets/toolbar/toolbar-widget.js:281-284 | the picker's clear event resets the colour tool and forgets its value |

## Left out

- Pickr creation, swatches and options, and the `init` handler are left out, because they are calls into a library whose code is not part of this model. The `init` handler is registered whenever the initial value is truthy, and the `{}` handed to a tool without an entry is truthy. The save and clear events are kept, as `SaveColor` and `ClearColor`, which take the colour's printed form as a parameter.
- DOM and jQuery plumbing is left out: `querySelector`, `getTargetFromPython`, `addEventListener`, `focus`, `disconnect`, `console.log`. The target element, whether the target id resolved, and each button's `data-tool` name are parameters. A button without a `data-tool` attribute is not modelled.
- Entry values outside `Value` are not modelled. `Value` covers undefined, null, strings, string arrays and `{}`, but the aggregate, the input and `setTools` accept any JSON value. So numbers, booleans, other objects and mixed arrays are left out. An example is `{"COLOR": true}`, which activates the colour tool and writes `String(true)` to the target.
- JSON is not modelled. The input text is abstract: empty, the serialisation of a parsed value, or unparsable. A parse giving a non-object value other than a falsy one is not modelled.
- `registerToolbarWidgetTool` is not modelled, because it refers to an undefined `tool` and so always throws. The extension registry is an input map to the lookup.
- Prototype cloning is modelled as taking the prototype's configuration value. Extension tools are instances of the three variants; custom subclasses overriding methods are not modelled.
- Names inherited from `Object.prototype` are not modelled, because the model treats `in` on the tables, the aggregate value and the group map as own-key membership only. Examples are `constructor` and `toString`.
- Every flag belongs to the tool instance, not to a particular button. Two buttons naming one tool rebind it to the later button. The model also assumes that buttons start without the `active` class.
- A truthy `styleValue` that is neither a string nor an array is not modelled: the model's `StyleValue` admits only strings and arrays, so the branches of `StyleToolbarWidgetTool.isActive` for a non-array `styleValue` are not modelled either.
- CSS value normalisation by the browser is not modelled. A style property reads back exactly the text written into it.
- Tools.StyleRoundTrip: assumes space-free tokens; `SpacedTokenSurvivesReset` shows the round trip fails for an array token holding a space.
- Tools.StyleReadAfterSet: assumes space-free tokens, because a token holding a space reads back split in two.
- Tools.StyleSetShows: assumes space-free tokens, for the same reason.
- Toolbar.ButtonShowsStyle: assumes space-free tokens, for the same reason, and speaks of one button's round, not of the whole loop, since a later tool writing the same property can change it.
- Tools.StyleSetDetected: assumes space-free tokens, for the same reason; it also states detection only for a tool with a non-empty token; a tool whose tokens are all empty text is never detected.
- Tools.StyleResetUndetected: states non-detection only when no configured token occurred twice in the property beforehand, because one `splice` per token leaves a second copy in place.
- Toolbar.StyleClickDetected: assumes space-free tokens with one non-empty, as `StyleSetDetected` does.
- Toolbar.StyleClickUndetected: assumes no configured token occurred twice in the property before the click, as `StyleResetUndetected` does.
- Toolbar.ExecuteExclusive: at most one active member holds only right after a click, not as an invariant of the controller. `setTools` and construction can raise several flags in one group.
- `setTools` does not pass an entry's value to a colour tool. A colour tool set through `setTools` writes its previously stored value. The model computes that; the lemmas do not single it out.
