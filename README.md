# AnkiMorphs settings tab, modelled in Dafny

A settings tab of the AnkiMorphs settings dialog is an `AbstractSettingsTab`. It keeps
five registries, each mapping a configuration key to a widget: radio buttons, check
boxes, spin boxes, line edits and key-sequence edits. It also keeps an optional
snapshot, `_previous_state`. The tab can:

- copy the live configuration into the widgets (`populate`);
- copy the default configuration into them, after a confirmation that can be skipped
  (`restore_defaults`);
- copy the snapshot back into them, checking each value's type (`restore_to_config_state`);
- read every widget into one dictionary (`settings_to_dict`);
- store that dictionary as the snapshot (`update_previous_state`);
- compare the live dictionary with the snapshot (`contains_unsaved_changes`).

The model has three modules:

- `PyValues` (`py_values.dfy`): the values a snapshot holds (`bool`, `int`, `str`) and
  Python's `==` on them and on dictionaries of them. In Python `True == 1` and
  `isinstance(True, int)` holds.
- `SettingsAbstractTab` (`settings_tab.dfy`): the widgets' values as a `Widgets`
  datatype, and `SettingsToDict` and `ContainsUnsavedChanges` as functions over it.
  The class `SettingsTab` holds the five registries and the snapshot as fields. Its
  methods `Populate`, `RestoreDefaults` and `RestoreToConfigState` update the widgets by
  loops over the registries, and each is specified by the function `Loaded`: every
  registered widget set from a source dictionary by its key. `UpdatePreviousState` is a
  single assignment to the snapshot.
  The class invariant `Valid` says that a snapshot, once taken, has the keys of the
  registries and, key by key, a value of the kind that `settings_to_dict` gives that key.
- `SettingsTabProperties` (`settings_tab_properties.dfy`): properties that relate several
  operations:
  - the populate round trip;
  - restore-then-compare on disjoint registries;
  - idempotence;
  - detection of a single edit and of its reversal;
  - what a key registered in two registries does;
  - a cancelled edit, as a method on the class.

Each widget is modelled as a cell that reads back the value last written to it. A
registry is therefore a map from its keys to its widgets' current values. The five loop
methods visit a registry's keys in an arbitrary order. The widgets are independent, so
every order, Python's insertion order included, gives the same result.

Python `assert` statements are fatal programming errors, and so are `getattr` on a
missing attribute and a setter given the wrong type. None of them is handled by the
class, so they become `requires` clauses. The warning dialog's answer is the parameter
`confirmed`.

Two points where the code is easy to misread:

- `contains_unsaved_changes` uses Python's `!=`, not structural equality. `True == 1`
  there, and a spin box given `True` reads back `1`. `UnsavedIsInequality` shows that the
  two coincide for every snapshot the tab itself takes.
- The registries are not required to be disjoint. Properties that need disjointness
  take it as a precondition. `SharedKeyFailsRestore` and `SharedKeyRestoreOverwrites`
  show what goes wrong without it.

## Model

| member | source | states |
|---|---|---|
| PyValues.PyEqualsIsEqualityOnSameKind | ankimorphs/settings/settings_abstract_tab.py:193 | for two values of the same kind, Python's `==` is structural equality |
| PyValues.DictEqualsIsEquality | ankimorphs/settings/settings_abstract_tab.py:193 | for two dictionaries with the same keys whose values agree in kind key by key, Python's dictionary `==` is structural equality, in both directions |
| SettingsAbstractTab.SettingsToDict | ankimorphs/settings/settings_abstract_tab.py:149-178 | the keys are exactly the union of the five registries' keys; each key maps to the value of the last registry holding it, in the update order radio, spin, check, line edit, key sequence |
| SettingsAbstractTab.SettingsToDictIsShaped | ankimorphs/settings/settings_abstract_tab.py:149-178 | every dictionary of the widgets has the shape the class invariant asks of a snapshot: the registered keys, and a bool, int or string as its winning registry dictates |
| SettingsAbstractTab.ContainsUnsavedChanges | ankimorphs/settings/settings_abstract_tab.py:183-198 | needs a snapshot; it is a function, so it changes neither the snapshot nor a widget; against a snapshot equal to the widgets' dictionary it is false |
| SettingsAbstractTab.UnsavedIsInequality | ankimorphs/settings/settings_abstract_tab.py:193-198 | against a snapshot of the registries' shape, an unsaved change is reported exactly when the widgets' dictionary differs from the snapshot |
| SettingsAbstractTab.Loaded | ankimorphs/settings/settings_abstract_tab.py:54-79 | setting widgets from a source changes no registry's key set |
| SettingsAbstractTab.LoadedReadsBack | ankimorphs/settings/settings_abstract_tab.py:54-79 | after the widgets are set from a source, each registered key reads back the source's value: equal under Python's `==`; exactly equal unless a spin box got a bool, and exactly equal whenever the value has the kind its widget shows |
| SettingsAbstractTab.LoadedKeepsShape | ankimorphs/settings/settings_abstract_tab.py:118-147 | setting the widgets keeps any snapshot's fit with the registries, so the three loading methods preserve the class invariant |
| SettingsAbstractTab.RestoreThenCompare | ankimorphs/settings/settings_abstract_tab.py:118-147 | restoring a snapshot that fits the registries and passes the assertions makes the widgets' dictionary equal that snapshot, so no unsaved change is reported |
| SettingsAbstractTab.RestoredAt | ankimorphs/settings/settings_abstract_tab.py:118-147 | one key of restore-then-compare |
| SettingsAbstractTab.SameRegistriesSameKeys | ankimorphs/settings/settings_abstract_tab.py:33-37 | widgets with the same five key sets register the same keys |
| SettingsAbstractTab.ShapeFollowsRegistries | ankimorphs/settings/settings_abstract_tab.py:33-39 | a snapshot's fit depends on the registries' keys only, not on the widgets' values |
| SettingsAbstractTab.CheckedFromOwnValues | ankimorphs/settings/settings_abstract_tab.py:121-124 | setting toggles from the bools they already hold changes nothing |
| SettingsAbstractTab.ValuesFromOwnValues | ankimorphs/settings/settings_abstract_tab.py:126-129 | setting spin boxes from the ints they already hold changes nothing |
| SettingsAbstractTab.TextsFromOwnValues | ankimorphs/settings/settings_abstract_tab.py:136-147 | setting text widgets from the strings they already hold changes nothing |
| SettingsAbstractTab.SettingsTab.constructor | ankimorphs/settings/settings_abstract_tab.py:21-39 | a new tab holds the registered widgets and both configurations, has no snapshot, and satisfies the invariant |
| SettingsAbstractTab.SettingsTab.LoadRadioButtons | ankimorphs/settings/settings_abstract_tab.py:55-60 | each radio button is set to the source's bool for its key; no other field changes |
| SettingsAbstractTab.SettingsTab.LoadCheckBoxes | ankimorphs/settings/settings_abstract_tab.py:62-64 | each check box is set to the source's bool for its key; no other field changes |
| SettingsAbstractTab.SettingsTab.LoadSpinBoxes | ankimorphs/settings/settings_abstract_tab.py:66-68 | each spin box is set to the source's int for its key, a bool arriving as 1 or 0; no other field changes |
| SettingsAbstractTab.SettingsTab.LoadLineEdits | ankimorphs/settings/settings_abstract_tab.py:70-72 | each line edit is set to the source's string for its key; no other field changes |
| SettingsAbstractTab.SettingsTab.LoadKeySequences | ankimorphs/settings/settings_abstract_tab.py:74-79 | each key-sequence edit is set to the source's string for its key; no other field changes |
| SettingsAbstractTab.SettingsTab.Populate | ankimorphs/settings/settings_abstract_tab.py:54-79 | every registered widget takes the live configuration's value for its key; the snapshot is unchanged and the invariant kept |
| SettingsAbstractTab.SettingsTab.RestoreDefaults | ankimorphs/settings/settings_abstract_tab.py:81-116 | unless `skip_confirmation` (false by default), the dialog is asked; declined: no widget changes; skipped or confirmed: every registered widget takes the default configuration's value; either way the snapshot is unchanged |
| SettingsAbstractTab.SettingsTab.RestoreToConfigState | ankimorphs/settings/settings_abstract_tab.py:118-147 | needs a snapshot whose values have each widget's type (bool, int with bools allowed, string); every registered widget takes the snapshot's value; the snapshot is unchanged, and no unsaved change is then reported |
| SettingsAbstractTab.SettingsTab.UpdatePreviousState | ankimorphs/settings/settings_abstract_tab.py:180-181 | the snapshot becomes the widgets' dictionary, so an immediate unsaved-change check is false |
| SettingsTabProperties.Projection | ankimorphs/settings/settings_abstract_tab.py:54-79 | a source restricted to the registered keys has exactly the registered keys |
| SettingsTabProperties.PopulatedAt | ankimorphs/settings/settings_abstract_tab.py:54-79 | one key of the populate round trip |
| SettingsTabProperties.PopulateRoundTrip | ankimorphs/settings/settings_abstract_tab.py:54-79 | after populate, the widgets' dictionary equals, under Python's `==`, the configuration restricted to the registered keys; it is exactly that restriction when no spin box's key holds a bool |
| SettingsTabProperties.LoadedIgnoresPriorValues | ankimorphs/settings/settings_abstract_tab.py:92-116 | the widgets after restoring defaults do not depend on what the widgets showed before |
| SettingsTabProperties.LoadedIdempotent | ankimorphs/settings/settings_abstract_tab.py:118-147 | restoring the same source twice gives the same widgets as restoring it once |
| SettingsTabProperties.ShapedSnapshotAccepted | ankimorphs/settings/settings_abstract_tab.py:121-147 | with disjoint registries, every snapshot of the registries' shape passes all five type assertions |
| SettingsTabProperties.RestoreThenCompareDisjoint | ankimorphs/settings/settings_abstract_tab.py:118-147 | the same with disjoint registries, with the assertions then proved to pass |
| SettingsTabProperties.RestoreAfterSaveChangesNothing | ankimorphs/settings/settings_abstract_tab.py:118-147 | with disjoint registries, restoring the snapshot just taken passes the assertions and leaves every widget as it was |
| SettingsTabProperties.UnsavedIffSomeKeyDiffers | ankimorphs/settings/settings_abstract_tab.py:183-198 | against a snapshot of some widgets `w`, widgets `v` with the same registries show an unsaved change if and only if some registered key reads differently in `v` than in `w` |
| SettingsTabProperties.ToggleEditDetected | ankimorphs/settings/settings_abstract_tab.py:193-195 | after a snapshot, flipping a radio button that no later registry shadows is an unsaved change |
| SettingsTabProperties.RadioReadsBack | ankimorphs/settings/settings_abstract_tab.py:150-153 | a radio button no later registry shadows reads back in the dictionary as its own state |
| SettingsTabProperties.ToggleRevertNotDetected | ankimorphs/settings/settings_abstract_tab.py:193-198 | flipping a radio button and putting it back is not an unsaved change |
| SettingsTabProperties.SharedKeyFailsRestore | ankimorphs/settings/settings_abstract_tab.py:121-124 | a key registered as both a radio button and a line edit holds text in the snapshot, which fails the radio button's bool assertion |
| SettingsTabProperties.SharedKeyRestoreOverwrites | ankimorphs/settings/settings_abstract_tab.py:171-176 | for a key registered as both a radio button and a check box, restoring the snapshot just taken sets the radio button to the check box's state |
| SettingsTabProperties.EditKeepsRegistries | ankimorphs/settings/settings_abstract_tab.py:33-37 | flipping one radio button changes no registry's key set |
| SettingsTabProperties.EditUndoneByRestore | ankimorphs/settings/settings_abstract_tab.py:118-147 | with disjoint registries, after one radio button is flipped, the snapshot taken before still fits and passes the assertions, and restoring it undoes the flip |
| SettingsTabProperties.CancelEdit | ankimorphs/settings/settings_abstract_tab.py:118-147 | on a tab whose saved widgets had one toggle flipped afterwards, `restore_to_config_state` brings back exactly the saved widgets and leaves no unsaved change |

## Left out

- `ankimorphs/readability_ui.py`: generated widget layout and translation strings. It holds no logic of the tab.
- The Qt widgets themselves: radio-button auto-exclusivity, spin-box clamping to a range, and key-sequence parsing and `toString`. Each widget is a cell that reads back what was last written. A key sequence is its text, and `toString` is the identity on it. The populate and restore round trips rest on this assumption.
- `message_box_utils.warning_dialog` and `get_confirmation_text`: the dialog is a modal UI call, and its answer is the parameter `confirmed` of `RestoreDefaults`.
- `setup_buttons`: abstract, and supplied by each subclass with bodies not part of this model.
- The filling of the registries by a subclass's `__init__`: modelled as the constructor's `registered` argument. The registries' key sets are never changed afterwards.
- `print` and `pprint.pp` in `contains_unsaved_changes`: output only, with no effect on the result.
- `getattr` on `AnkiMorphsConfig`: the configuration is a map from key to value. The configuration class is not part of this model.
- Aliasing: the same widget object registered under two keys, or in two registries, is not modelled. Each entry of a registry is a cell of its own.
- Insertion order of the dictionaries: not modelled. Dictionaries are maps, and no result depends on their order.
- SettingsAbstractTab.SettingsTab.RestoreToConfigState: a failed type assertion is a precondition, so the writes done before the failing key are not modelled.
- SettingsAbstractTab.SettingsTab.Populate: requires every configuration value to have its setter's type (bool for toggles, int or bool for spin boxes, string for text). The source has no check there: a wrong type fails inside the Qt setter.
- SettingsAbstractTab.SettingsTab.RestoreDefaults: requires the same of the default configuration when the widgets are to be set, for the same reason.
- `object` values in the snapshot type: the snapshot's declared value type admits any object. Only `bool`, `int` and `str` can arise from the widgets, so `Value` has those three kinds.
