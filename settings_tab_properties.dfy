/**
  Properties of the settings-tab synchroniser that relate several of its
  operations: the populate round trip, what restoring does to the unsaved-change
  check, idempotence, how edits are detected, and what goes wrong when a key is
  registered twice.
 */
module SettingsTabProperties {
  import opened PyValues
  import opened SettingsAbstractTab

  /** The entries of `src` under the registered keys. */
  function Projection(w: Widgets, src: Snapshot): (p: Snapshot)
    requires Accepts(w, src)
    ensures forall k :: k in p <==> Registered(w, k)
  {
    map k | k in src && Registered(w, k) :: src[k]
  }

  /** One key of the populate round trip. */
  lemma PopulatedAt(w: Widgets, src: Snapshot, k: Key)
    requires Accepts(w, src)
    requires k in SettingsToDict(Loaded(w, src))
    ensures k in Projection(w, src)
    ensures PyEquals(SettingsToDict(Loaded(w, src))[k], Projection(w, src)[k])
    ensures !(k in w.spinBoxes && src[k].Bool?) ==> SettingsToDict(Loaded(w, src))[k] == Projection(w, src)[k]
  {
    LoadedReadsBack(w, src, k);
  }

  /** After `populate`, `settings_to_dict` gives every registered key the
      configuration's value, equal under Python's `==`; and exactly equal when no
      spin box is given a bool. */
  lemma {:induction false} PopulateRoundTrip(w: Widgets, src: Snapshot)
    requires Accepts(w, src)
    ensures DictEquals(SettingsToDict(Loaded(w, src)), Projection(w, src))
    ensures (forall k :: k in w.spinBoxes ==> src[k].Int?) ==>
      SettingsToDict(Loaded(w, src)) == Projection(w, src)
  {
    var d := SettingsToDict(Loaded(w, src));
    var p := Projection(w, src);
    forall k | k in d
      ensures k in p && PyEquals(d[k], p[k])
      ensures !(k in w.spinBoxes && src[k].Bool?) ==> d[k] == p[k]
    {
      PopulatedAt(w, src, k);
    }
    forall k | k in p
      ensures k in d
    {
      LoadedReadsBack(w, src, k);
    }
    if forall k :: k in w.spinBoxes ==> src[k].Int? {
      Extensionality(d, p);
    }
  }

  /** Setting the widgets from a source does not depend on their previous values:
      `restore_defaults` resets every widget whatever it showed before. */
  lemma LoadedIgnoresPriorValues(w: Widgets, v: Widgets, src: Snapshot)
    requires SameRegistries(w, v)
    requires Accepts(w, src)
    ensures Accepts(v, src)
    ensures Loaded(w, src) == Loaded(v, src)
  {
  }

  /** Setting the widgets twice from the same source is setting them once: in
      particular `restore_to_config_state` is idempotent. */
  lemma LoadedIdempotent(w: Widgets, src: Snapshot)
    requires Accepts(w, src)
    ensures Accepts(Loaded(w, src), src)
    ensures Loaded(Loaded(w, src), src) == Loaded(w, src)
  {
  }

  /** With disjoint registries every snapshot of the registries' shape passes the
      type assertions of `restore_to_config_state`. */
  lemma {:induction false} ShapedSnapshotAccepted(w: Widgets, snapshot: Snapshot)
    requires Disjoint(w)
    requires Shaped(w, snapshot)
    ensures Accepts(w, snapshot)
  {
  }

  /** The same, for disjoint registries without further condition. */
  lemma RestoreThenCompareDisjoint(w: Widgets, snapshot: Snapshot)
    requires Disjoint(w)
    requires Shaped(w, snapshot)
    ensures Accepts(w, snapshot)
    ensures !ContainsUnsavedChanges(Loaded(w, snapshot), Some(snapshot))
  {
    ShapedSnapshotAccepted(w, snapshot);
    RestoreThenCompare(w, snapshot);
  }

  /** With disjoint registries, restoring the snapshot just taken changes no widget. */
  lemma {:induction false} RestoreAfterSaveChangesNothing(w: Widgets)
    requires Disjoint(w)
    ensures Accepts(w, SettingsToDict(w))
    ensures Loaded(w, SettingsToDict(w)) == w
  {
    var d := SettingsToDict(w);
    forall k | k in w.radioButtons ensures k in d && d[k] == Bool(w.radioButtons[k]) {
      assert Registered(w, k);
    }
    forall k | k in w.checkBoxes ensures k in d && d[k] == Bool(w.checkBoxes[k]) {
      assert Registered(w, k);
    }
    forall k | k in w.spinBoxes ensures k in d && d[k] == Int(w.spinBoxes[k]) {
      assert Registered(w, k);
    }
    forall k | k in w.lineEdits ensures k in d && d[k] == Str(w.lineEdits[k]) {
      assert Registered(w, k);
    }
    forall k | k in w.keySequences ensures k in d && d[k] == Str(w.keySequences[k]) {
      assert Registered(w, k);
    }
    CheckedFromOwnValues(w.radioButtons, d);
    CheckedFromOwnValues(w.checkBoxes, d);
    ValuesFromOwnValues(w.spinBoxes, d);
    TextsFromOwnValues(w.lineEdits, d);
    TextsFromOwnValues(w.keySequences, d);
  }

  /** Between widgets of the same registries, `contains_unsaved_changes` against a
      snapshot of `w` reports a change exactly when some registered key reads
      differently in `v`. */
  lemma {:induction false} UnsavedIffSomeKeyDiffers(w: Widgets, v: Widgets)
    requires SameRegistries(w, v)
    ensures ContainsUnsavedChanges(v, Some(SettingsToDict(w))) <==>
      exists k :: Registered(w, k) && WinningValue(v, k) != WinningValue(w, k)
  {
    var d, e := SettingsToDict(w), SettingsToDict(v);
    SettingsToDictIsShaped(w);
    ShapeFollowsRegistries(w, v, d);
    UnsavedIsInequality(v, d);
    SameRegistriesSameKeys(w, v);
    MapsDifferAt(e, d);
    forall k
      ensures (k in e && e[k] != d[k]) <==> (Registered(w, k) && WinningValue(v, k) != WinningValue(w, k))
    {
    }
  }

  /** After a snapshot, checking or unchecking a radio button that no later
      registry shadows is an unsaved change. */
  lemma {:induction false} ToggleEditDetected(w: Widgets, k: Key, checked: bool)
    requires k in w.radioButtons
    requires k !in w.spinBoxes && k !in w.checkBoxes && k !in w.lineEdits && k !in w.keySequences
    requires checked != w.radioButtons[k]
    ensures ContainsUnsavedChanges(w.(radioButtons := w.radioButtons[k := checked]), Some(SettingsToDict(w)))
  {
    var edited := w.(radioButtons := w.radioButtons[k := checked]);
    var d, e := SettingsToDict(w), SettingsToDict(edited);
    RadioReadsBack(w, k);
    RadioReadsBack(edited, k);
    DiffersAt(e, d, k);
  }

  /** A radio button that no later registry shadows reads back its own state. */
  lemma RadioReadsBack(w: Widgets, k: Key)
    requires k in w.radioButtons
    requires k !in w.spinBoxes && k !in w.checkBoxes && k !in w.lineEdits && k !in w.keySequences
    ensures k in SettingsToDict(w) && SettingsToDict(w)[k] == Bool(w.radioButtons[k])
  {
  }

  /** Putting the radio button back as it was is no longer an unsaved change. */
  lemma ToggleRevertNotDetected(w: Widgets, k: Key, checked: bool)
    requires k in w.radioButtons
    ensures var edited := w.(radioButtons := w.radioButtons[k := checked]);
      !ContainsUnsavedChanges(edited.(radioButtons := edited.radioButtons[k := w.radioButtons[k]]), Some(SettingsToDict(w)))
  {
    var edited := w.(radioButtons := w.radioButtons[k := checked]);
    assert edited.radioButtons[k := w.radioButtons[k]] == w.radioButtons;
    assert edited.(radioButtons := edited.radioButtons[k := w.radioButtons[k]]) == w;
  }

  /** A key registered both as a radio button and as a line edit: the snapshot holds
      the line edit's text under it, which fails the radio button's type assertion in
      `restore_to_config_state`. */
  lemma SharedKeyFailsRestore(w: Widgets, k: Key)
    requires k in w.radioButtons && k in w.lineEdits
    ensures !Disjoint(w)
    ensures !Accepts(w, SettingsToDict(w))
  {
  }

  /** A key registered both as a radio button and as a check box (and in no text
      registry): restoring the snapshot just taken overwrites the radio button with
      the check box's state. */
  lemma SharedKeyRestoreOverwrites(w: Widgets, k: Key)
    requires k in w.radioButtons && k in w.checkBoxes
    requires k !in w.lineEdits && k !in w.keySequences
    ensures Accepts(w, SettingsToDict(w)) ==>
      Loaded(w, SettingsToDict(w)).radioButtons[k] == w.checkBoxes[k]
  {
  }

  /** Editing one radio button keeps every registry's keys. */
  lemma EditKeepsRegistries(w: Widgets, k: Key, checked: bool)
    requires k in w.radioButtons
    ensures SameRegistries(w, w.(radioButtons := w.radioButtons[k := checked]))
  {
  }

  /** With disjoint registries, after editing one radio button the snapshot taken
      before the edit still fits the widgets, and restoring it undoes the edit. */
  lemma EditUndoneByRestore(w: Widgets, k: Key, checked: bool)
    requires Disjoint(w)
    requires k in w.radioButtons
    ensures var edited := w.(radioButtons := w.radioButtons[k := checked]);
      && Shaped(edited, SettingsToDict(w))
      && Accepts(edited, SettingsToDict(w))
      && Loaded(edited, SettingsToDict(w)) == w
  {
    var edited := w.(radioButtons := w.radioButtons[k := checked]);
    var snapshot := SettingsToDict(w);
    SettingsToDictIsShaped(w);
    RestoreAfterSaveChangesNothing(w);
    EditKeepsRegistries(w, k, checked);
    ShapeFollowsRegistries(w, edited, snapshot);
    LoadedIgnoresPriorValues(w, edited, snapshot);
  }

  /** A tab whose state was saved, after the user checked or unchecked one toggle,
      and the user then cancels. Restoring the configuration state
      brings back exactly the widgets as they were saved, with no unsaved change left. */
  method CancelEdit(tab: SettingsTab, ghost saved: Widgets, k: Key, checked: bool)
    requires Disjoint(saved) && k in saved.radioButtons
    requires tab.previousState == Some(SettingsToDict(saved))
    requires tab.View() == saved.(radioButtons := saved.radioButtons[k := checked])
    modifies tab
    ensures tab.View() == saved
    ensures tab.previousState == old(tab.previousState)
    ensures !ContainsUnsavedChanges(tab.View(), tab.previousState)
  {
    EditUndoneByRestore(saved, k, checked);
    tab.RestoreToConfigState();
  }
}
