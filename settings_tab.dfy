/**
  The settings-tab synchroniser of AnkiMorphs: a tab of the settings dialog keeps
  five registries that map a configuration key to a widget (radio buttons, check
  boxes, spin boxes, line edits and key-sequence edits), copies configuration
  values into those widgets, reads them back into one snapshot dictionary, and
  compares the live widgets with the last snapshot to detect unsaved changes.

  A widget is modelled as a cell that reads back the value last written to it, so
  a registry is a map from its keys to its widgets' current values.
 */
module SettingsAbstractTab {
  import opened PyValues

  type Key = string

  /** A dictionary from configuration keys to values: a configuration record seen
      through `getattr`, or a snapshot built by `SettingsToDict`. */
  type Snapshot = map<Key, Value>

  /** The current values of the widgets in the five registries. */
  datatype Widgets = Widgets(
    radioButtons: map<Key, bool>,
    checkBoxes: map<Key, bool>,
    spinBoxes: map<Key, int>,
    lineEdits: map<Key, string>,
    keySequences: map<Key, string>)

  /** `k` is registered in some registry. */
  predicate Registered(w: Widgets, k: Key) {
    k in w.radioButtons || k in w.checkBoxes || k in w.spinBoxes || k in w.lineEdits || k in w.keySequences
  }

  /** The five registries register the same keys. */
  predicate SameRegistries(w: Widgets, v: Widgets) {
    && w.radioButtons.Keys == v.radioButtons.Keys
    && w.checkBoxes.Keys == v.checkBoxes.Keys
    && w.spinBoxes.Keys == v.spinBoxes.Keys
    && w.lineEdits.Keys == v.lineEdits.Keys
    && w.keySequences.Keys == v.keySequences.Keys
  }

  /** No key is registered in two registries. */
  predicate Disjoint(w: Widgets) {
    && w.radioButtons.Keys !! w.checkBoxes.Keys
    && w.radioButtons.Keys !! w.spinBoxes.Keys
    && w.radioButtons.Keys !! w.lineEdits.Keys
    && w.radioButtons.Keys !! w.keySequences.Keys
    && w.checkBoxes.Keys !! w.spinBoxes.Keys
    && w.checkBoxes.Keys !! w.lineEdits.Keys
    && w.checkBoxes.Keys !! w.keySequences.Keys
    && w.spinBoxes.Keys !! w.lineEdits.Keys
    && w.spinBoxes.Keys !! w.keySequences.Keys
    && w.lineEdits.Keys !! w.keySequences.Keys
  }

  /** `src` holds a bool under each of `keys`: what `setChecked` takes. */
  predicate BoolsAt(keys: set<Key>, src: Snapshot) {
    forall k :: k in keys ==> k in src && src[k].Bool?
  }

  /** `src` holds an int under each of `keys`, where in Python a bool is an int too:
      what the type assertion before `setValue` lets through. */
  predicate IntsAt(keys: set<Key>, src: Snapshot) {
    forall k :: k in keys ==> k in src && IsPyInt(src[k])
  }

  /** `src` holds a string under each of `keys`: what `setText` and `setKeySequence` take. */
  predicate StringsAt(keys: set<Key>, src: Snapshot) {
    forall k :: k in keys ==> k in src && src[k].Str?
  }

  /** `src` has, for every key of every registry, a value its widget's setter takes.
      Lookup by a missing key, like a failed type assertion, is a fatal error in the
      source. */
  predicate Accepts(w: Widgets, src: Snapshot) {
    && BoolsAt(w.radioButtons.Keys, src)
    && BoolsAt(w.checkBoxes.Keys, src)
    && IntsAt(w.spinBoxes.Keys, src)
    && StringsAt(w.lineEdits.Keys, src)
    && StringsAt(w.keySequences.Keys, src)
  }

  /** The values that `setChecked` leaves in toggles registered under `m`'s keys. */
  function CheckedFrom(m: map<Key, bool>, src: Snapshot): map<Key, bool>
    requires BoolsAt(m.Keys, src)
  {
    map k | k in m :: src[k].b
  }

  /** The values that `setValue` leaves in spin boxes registered under `m`'s keys. */
  function ValuesFrom(m: map<Key, int>, src: Snapshot): map<Key, int>
    requires IntsAt(m.Keys, src)
  {
    map k | k in m :: AsInt(src[k])
  }

  /** The values that `setText` or `setKeySequence` leaves in text widgets registered
      under `m`'s keys. */
  function TextsFrom(m: map<Key, string>, src: Snapshot): map<Key, string>
    requires StringsAt(m.Keys, src)
  {
    map k | k in m :: src[k].s
  }

  /** Setting toggles from the values they already hold changes nothing. */
  lemma CheckedFromOwnValues(m: map<Key, bool>, src: Snapshot)
    requires forall k :: k in m ==> k in src && src[k] == Bool(m[k])
    ensures BoolsAt(m.Keys, src) && CheckedFrom(m, src) == m
  {
  }

  /** Setting spin boxes from the values they already hold changes nothing. */
  lemma ValuesFromOwnValues(m: map<Key, int>, src: Snapshot)
    requires forall k :: k in m ==> k in src && src[k] == Int(m[k])
    ensures IntsAt(m.Keys, src) && ValuesFrom(m, src) == m
  {
  }

  /** Setting text widgets from the values they already hold changes nothing. */
  lemma TextsFromOwnValues(m: map<Key, string>, src: Snapshot)
    requires forall k :: k in m ==> k in src && src[k] == Str(m[k])
    ensures StringsAt(m.Keys, src) && TextsFrom(m, src) == m
  {
  }

  /** The widgets after every registered widget has been set from `src` by its key:
      what `populate`, `restore_defaults` and `restore_to_config_state` do, from the
      configuration, the default configuration and the snapshot respectively. */
  function Loaded(w: Widgets, src: Snapshot): (r: Widgets)
    requires Accepts(w, src)
    ensures SameRegistries(r, w)
  {
    Widgets(
      CheckedFrom(w.radioButtons, src),
      CheckedFrom(w.checkBoxes, src),
      ValuesFrom(w.spinBoxes, src),
      TextsFrom(w.lineEdits, src),
      TextsFrom(w.keySequences, src))
  }

  /** The value that a registered key reads as: that of its widget in the last
      registry, in the order radio buttons, spin boxes, check boxes, line edits, key
      sequences, that registers the key. */
  function WinningValue(w: Widgets, k: Key): Value
    requires Registered(w, k)
  {
    if k in w.keySequences then Str(w.keySequences[k])
    else if k in w.lineEdits then Str(w.lineEdits[k])
    else if k in w.checkBoxes then Bool(w.checkBoxes[k])
    else if k in w.spinBoxes then Int(w.spinBoxes[k])
    else Bool(w.radioButtons[k])
  }

  /** `settings_to_dict`: one dictionary holding every widget's value by its key,
      built by updating an empty dictionary with the radio buttons, the spin boxes,
      the check boxes, the line edits and the key sequences in turn. Its keys are
      exactly the registered keys, and on a key shared by two registries the later
      one supplies the value. */
  function SettingsToDict(w: Widgets): (d: Snapshot)
    ensures forall k :: k in d <==> Registered(w, k)
    ensures forall k :: k in d ==> d[k] == WinningValue(w, k)
  {
    var radioButtonSettings := map k | k in w.radioButtons :: Bool(w.radioButtons[k]);
    var spinBoxSettings := map k | k in w.spinBoxes :: Int(w.spinBoxes[k]);
    var checkBoxSettings := map k | k in w.checkBoxes :: Bool(w.checkBoxes[k]);
    var lineEditSettings := map k | k in w.lineEdits :: Str(w.lineEdits[k]);
    var keySequenceSettings := map k | k in w.keySequences :: Str(w.keySequences[k]);
    map[] + radioButtonSettings + spinBoxSettings + checkBoxSettings + lineEditSettings + keySequenceSettings
  }

  /** `k` is registered and `v` is of the kind `SettingsToDict` gives it. */
  predicate KindFits(w: Widgets, k: Key, v: Value) {
    Registered(w, k) && SameKind(v, WinningValue(w, k))
  }

  /** `snapshot` has the registered keys and, key by key, a value of the kind that
      `SettingsToDict` gives that key: what holds of every snapshot taken of widgets
      with these registries. */
  ghost predicate Shaped(w: Widgets, snapshot: Snapshot) {
    (forall k :: k in snapshot <==> Registered(w, k)) && forall k :: k in snapshot ==> KindFits(w, k, snapshot[k])
  }

  /** `contains_unsaved_changes`: whether the widgets' dictionary differs, under
      Python's `!=`, from the previous snapshot. No snapshot is a fatal error. */
  function ContainsUnsavedChanges(w: Widgets, previous: Option<Snapshot>): (changed: bool)
    requires previous.Some?
    ensures previous.value == SettingsToDict(w) ==> !changed
  {
    var current := SettingsToDict(w);
    DictEqualsReflexive(current);
    !DictEquals(current, previous.value)
  }

  /** Against a snapshot of the registries' shape, which every snapshot the tab takes
      is, `contains_unsaved_changes` is exactly structural inequality. */
  lemma UnsavedIsInequality(w: Widgets, snapshot: Snapshot)
    requires Shaped(w, snapshot)
    ensures ContainsUnsavedChanges(w, Some(snapshot)) <==> SettingsToDict(w) != snapshot
  {
    DictEqualsIsEquality(SettingsToDict(w), snapshot);
  }

  /** Every snapshot of the widgets has their registries' shape. */
  lemma SettingsToDictIsShaped(w: Widgets)
    ensures Shaped(w, SettingsToDict(w))
  {
  }

  /** After the widgets are set from `src`, a registered key reads as `src`'s value
      for it: exactly, unless a spin box under the key was given a bool, which it
      reads back as 1 or 0. */
  lemma LoadedReadsBack(w: Widgets, src: Snapshot, k: Key)
    requires Accepts(w, src)
    ensures Registered(Loaded(w, src), k) <==> Registered(w, k)
    ensures Registered(w, k) ==> PyEquals(WinningValue(Loaded(w, src), k), src[k])
    ensures Registered(w, k) && !(k in w.spinBoxes && src[k].Bool?) ==>
      WinningValue(Loaded(w, src), k) == src[k]
    ensures Registered(w, k) && KindFits(w, k, src[k]) ==>
      WinningValue(Loaded(w, src), k) == src[k]
  {
  }

  /** Setting the widgets from any source keeps the shape of a snapshot. */
  lemma LoadedKeepsShape(w: Widgets, src: Snapshot, snapshot: Snapshot)
    requires Accepts(w, src)
    ensures Shaped(w, snapshot) ==> Shaped(Loaded(w, src), snapshot)
  {
  }

  /** Restoring a snapshot of the registries' shape that the widgets accept makes
      `settings_to_dict` give back exactly that snapshot, so `contains_unsaved_changes`
      is then false. */
  lemma {:induction false} RestoreThenCompare(w: Widgets, snapshot: Snapshot)
    requires Shaped(w, snapshot)
    requires Accepts(w, snapshot)
    ensures SettingsToDict(Loaded(w, snapshot)) == snapshot
    ensures !ContainsUnsavedChanges(Loaded(w, snapshot), Some(snapshot))
  {
    var d := SettingsToDict(Loaded(w, snapshot));
    forall k | k in snapshot
      ensures k in d && d[k] == snapshot[k]
    {
      RestoredAt(w, snapshot, k);
    }
    forall k | k in d
      ensures k in snapshot
    {
      LoadedReadsBack(w, snapshot, k);
    }
    Extensionality(d, snapshot);
  }

  /** One key of `RestoreThenCompare`: a value of the kind its widget shows reads
      back unchanged. */
  lemma RestoredAt(w: Widgets, snapshot: Snapshot, k: Key)
    requires Shaped(w, snapshot)
    requires Accepts(w, snapshot)
    requires k in snapshot
    ensures k in SettingsToDict(Loaded(w, snapshot))
    ensures SettingsToDict(Loaded(w, snapshot))[k] == snapshot[k]
  {
    LoadedReadsBack(w, snapshot, k);
  }

  /** Widgets with the same registries register the same keys. */
  lemma SameRegistriesSameKeys(w: Widgets, v: Widgets)
    requires SameRegistries(w, v)
    ensures forall k :: Registered(w, k) == Registered(v, k)
  {
  }

  /** A snapshot's shape survives any change to the widgets' values. */
  lemma ShapeFollowsRegistries(w: Widgets, v: Widgets, snapshot: Snapshot)
    requires SameRegistries(w, v)
    requires Shaped(w, snapshot)
    ensures Shaped(v, snapshot)
  {
  }

  /** A tab of the settings dialog. The registries are filled once, when the tab is
      built; afterwards only the values of their widgets and the snapshot change. */
  class SettingsTab {
    var radioButtons: map<Key, bool>
    var checkBoxes: map<Key, bool>
    var spinBoxes: map<Key, int>
    var lineEdits: map<Key, string>
    var keySequences: map<Key, string>
    /** The snapshot taken by the last `UpdatePreviousState`, or `None` before the first. */
    var previousState: Option<Snapshot>
    /** The live configuration and the default configuration, read by key. */
    const config: Snapshot
    const defaultConfig: Snapshot

    function View(): Widgets
      reads this
    {
      Widgets(radioButtons, checkBoxes, spinBoxes, lineEdits, keySequences)
    }

    /** The snapshot, once taken, has the shape of the registries' dictionary. */
    ghost predicate Valid()
      reads this
    {
      previousState.Some? ==> Shaped(View(), previousState.value)
    }

    /** Builds a tab whose registries hold the widgets in `registered`, with no
        snapshot yet. */
    constructor (registered: Widgets, config: Snapshot, defaultConfig: Snapshot)
      ensures Valid()
      ensures View() == registered && previousState == None
      ensures this.config == config && this.defaultConfig == defaultConfig
    {
      radioButtons := registered.radioButtons;
      checkBoxes := registered.checkBoxes;
      spinBoxes := registered.spinBoxes;
      lineEdits := registered.lineEdits;
      keySequences := registered.keySequences;
      previousState := None;
      this.config := config;
      this.defaultConfig := defaultConfig;
    }

    /** Calls `setChecked` on every radio button with `src`'s value for its key. */
    method LoadRadioButtons(src: Snapshot)
      requires BoolsAt(radioButtons.Keys, src)
      modifies this`radioButtons
      ensures radioButtons == CheckedFrom(old(radioButtons), src)
    {
      var pending := radioButtons.Keys;
      while pending != {}
        invariant pending <= radioButtons.Keys == old(radioButtons).Keys
        invariant forall k :: k in radioButtons ==>
          radioButtons[k] == if k in pending then old(radioButtons)[k] else src[k].b
        decreases pending
      {
        var k :| k in pending;
        radioButtons := radioButtons[k := src[k].b];
        pending := pending - {k};
      }
    }

    /** Calls `setChecked` on every check box with `src`'s value for its key. */
    method LoadCheckBoxes(src: Snapshot)
      requires BoolsAt(checkBoxes.Keys, src)
      modifies this`checkBoxes
      ensures checkBoxes == CheckedFrom(old(checkBoxes), src)
    {
      var pending := checkBoxes.Keys;
      while pending != {}
        invariant pending <= checkBoxes.Keys == old(checkBoxes).Keys
        invariant forall k :: k in checkBoxes ==>
          checkBoxes[k] == if k in pending then old(checkBoxes)[k] else src[k].b
        decreases pending
      {
        var k :| k in pending;
        checkBoxes := checkBoxes[k := src[k].b];
        pending := pending - {k};
      }
    }

    /** Calls `setValue` on every spin box with `src`'s value for its key; a bool
        arrives as 1 or 0. */
    method LoadSpinBoxes(src: Snapshot)
      requires IntsAt(spinBoxes.Keys, src)
      modifies this`spinBoxes
      ensures spinBoxes == ValuesFrom(old(spinBoxes), src)
    {
      var pending := spinBoxes.Keys;
      while pending != {}
        invariant pending <= spinBoxes.Keys == old(spinBoxes).Keys
        invariant forall k :: k in spinBoxes ==>
          spinBoxes[k] == if k in pending then old(spinBoxes)[k] else AsInt(src[k])
        decreases pending
      {
        var k :| k in pending;
        spinBoxes := spinBoxes[k := AsInt(src[k])];
        pending := pending - {k};
      }
    }

    /** Calls `setText` on every line edit with `src`'s value for its key. */
    method LoadLineEdits(src: Snapshot)
      requires StringsAt(lineEdits.Keys, src)
      modifies this`lineEdits
      ensures lineEdits == TextsFrom(old(lineEdits), src)
    {
      var pending := lineEdits.Keys;
      while pending != {}
        invariant pending <= lineEdits.Keys == old(lineEdits).Keys
        invariant forall k :: k in lineEdits ==>
          lineEdits[k] == if k in pending then old(lineEdits)[k] else src[k].s
        decreases pending
      {
        var k :| k in pending;
        lineEdits := lineEdits[k := src[k].s];
        pending := pending - {k};
      }
    }

    /** Calls `setKeySequence` on every key-sequence edit with `src`'s value for its key. */
    method LoadKeySequences(src: Snapshot)
      requires StringsAt(keySequences.Keys, src)
      modifies this`keySequences
      ensures keySequences == TextsFrom(old(keySequences), src)
    {
      var pending := keySequences.Keys;
      while pending != {}
        invariant pending <= keySequences.Keys == old(keySequences).Keys
        invariant forall k :: k in keySequences ==>
          keySequences[k] == if k in pending then old(keySequences)[k] else src[k].s
        decreases pending
      {
        var k :| k in pending;
        keySequences := keySequences[k := src[k].s];
        pending := pending - {k};
      }
    }

    /** `populate`: every registered widget takes the live configuration's value for
        its key. The snapshot is untouched. */
    method Populate()
      requires Valid()
      requires Accepts(View(), config)
      modifies this`radioButtons, this`checkBoxes, this`spinBoxes, this`lineEdits, this`keySequences
      ensures Valid()
      ensures View() == Loaded(old(View()), config)
      ensures previousState == old(previousState)
    {
      ghost var before := View();
      LoadRadioButtons(config);
      LoadCheckBoxes(config);
      LoadSpinBoxes(config);
      LoadLineEdits(config);
      LoadKeySequences(config);
      assert View() == Loaded(before, config);
      if previousState.Some? {
        LoadedKeepsShape(before, config, previousState.value);
      }
    }

    /** `restore_defaults`: unless `skipConfirmation`, the warning dialog is shown and
        `confirmed` is the user's answer; on a refusal nothing changes. Otherwise every
        registered widget takes the default configuration's value for its key. The
        snapshot is never touched. */
    method RestoreDefaults(confirmed: bool, skipConfirmation: bool := false)
      requires Valid()
      requires skipConfirmation || confirmed ==> Accepts(View(), defaultConfig)
      modifies this`radioButtons, this`checkBoxes, this`spinBoxes, this`lineEdits, this`keySequences
      ensures Valid()
      ensures !skipConfirmation && !confirmed ==> View() == old(View())
      ensures skipConfirmation || confirmed ==> View() == Loaded(old(View()), defaultConfig)
      ensures previousState == old(previousState)
    {
      if !skipConfirmation {
        if !confirmed {
          return;
        }
      }
      ghost var before := View();
      LoadRadioButtons(defaultConfig);
      LoadSpinBoxes(defaultConfig);
      LoadCheckBoxes(defaultConfig);
      LoadLineEdits(defaultConfig);
      LoadKeySequences(defaultConfig);
      assert View() == Loaded(before, defaultConfig);
      if previousState.Some? {
        LoadedKeepsShape(before, defaultConfig, previousState.value);
      }
    }

    /** `restore_to_config_state`: every registered widget takes the snapshot's value
        for its key. A missing snapshot, a missing key or a value of the wrong kind is
        a failed assertion in the source. */
    method RestoreToConfigState()
      requires Valid()
      requires previousState.Some?
      requires Accepts(View(), previousState.value)
      modifies this`radioButtons, this`checkBoxes, this`spinBoxes, this`lineEdits, this`keySequences
      ensures Valid()
      ensures View() == Loaded(old(View()), old(previousState).value)
      ensures previousState == old(previousState)
      ensures !ContainsUnsavedChanges(View(), previousState)
    {
      var previous := previousState.value;
      ghost var before := View();
      LoadRadioButtons(previous);
      LoadSpinBoxes(previous);
      LoadCheckBoxes(previous);
      LoadLineEdits(previous);
      LoadKeySequences(previous);
      ghost var after := View();
      assert after == Loaded(before, previous);
      assert Shaped(after, previous) by { LoadedKeepsShape(before, previous, previous); }
      assert !ContainsUnsavedChanges(after, previousState) by { RestoreThenCompare(before, previous); }
    }

    /** `update_previous_state`: the snapshot becomes the widgets' dictionary, so that
        no unsaved change is reported until a widget changes. */
    method UpdatePreviousState()
      modifies this`previousState
      ensures Valid()
      ensures previousState == Some(SettingsToDict(View()))
      ensures !ContainsUnsavedChanges(View(), previousState)
    {
      previousState := Some(SettingsToDict(View()));
    }
  }
}
