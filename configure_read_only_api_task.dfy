/** The task that sets only the Read-Only API option, from a "yes"/"no"
    text; here a missing check box is not an error. */
module ConfigureReadOnlyApiTask {
  import opened Util
  import opened Swing
  import opened ConfigDialog

  /** The check box under the text (null is None): selected for "yes",
      unselected for "no", compared case-sensitively; otherwise unchanged. */
  function ReadOnlyFromSetting(current: bool, readOnlyApi: Option<string>): bool {
    if readOnlyApi == Some("yes") then true
    else if readOnlyApi == Some("no") then false
    else current
  }

  /** configure: select the API section; when the Read-Only API check box
      exists, apply the text to it; click OK and hide in every case. The
      window listener's flag is not involved. */
  function AfterConfigure(v: WindowValue, readOnlyApi: Option<string>): WindowValue {
    var s := ApiSectionSelected(v);
    var t := if ReadOnlyCheckBox in s.checkBoxes
             then s.(checkBoxes := s.checkBoxes[ReadOnlyCheckBox :=
                    ReadOnlyFromSetting(s.checkBoxes[ReadOnlyCheckBox], readOnlyApi)])
             else s;
    Closed(t)
  }

  /** OK is always clicked and the dialog always hidden; apart from the
      section selection, only the Read-Only API box can change, and only as
      the text says; without the box nothing else changes at all. */
  lemma AlwaysClosesAndChangesOnlyReadOnly(v: WindowValue, readOnlyApi: Option<string>)
    ensures var r := AfterConfigure(v, readOnlyApi);
      && !r.visible
      && r.clicks == v.clicks + (if OkButton in v.buttons then [OkButton] else [])
      && r == ApiSectionSelected(v).(checkBoxes := r.checkBoxes, clicks := r.clicks, visible := false)
      && (ReadOnlyCheckBox !in v.checkBoxes ==> r.checkBoxes == v.checkBoxes)
      && (ReadOnlyCheckBox in v.checkBoxes ==>
            r.checkBoxes == v.checkBoxes[ReadOnlyCheckBox :=
              if readOnlyApi == Some("yes") then true
              else if readOnlyApi == Some("no") then false
              else v.checkBoxes[ReadOnlyCheckBox]])
  {
  }

  /** A text other than "yes" or "no" (upper-case ones included) changes no
      check box. */
  lemma OtherTextChangesNothing(v: WindowValue, readOnlyApi: Option<string>)
    requires readOnlyApi != Some("yes") && readOnlyApi != Some("no")
    ensures AfterConfigure(v, readOnlyApi).checkBoxes == v.checkBoxes
  {
    if ReadOnlyCheckBox in v.checkBoxes {
      assert v.checkBoxes[ReadOnlyCheckBox := v.checkBoxes[ReadOnlyCheckBox]] == v.checkBoxes;
    }
  }

  /** configure, on the dialog. */
  method Configure(dialog: Window, readOnlyApi: Option<string>)
    modifies dialog
    ensures dialog.State() == AfterConfigure(old(dialog.State()), readOnlyApi)
  {
    SelectApiSection(dialog);
    if ReadOnlyCheckBox in dialog.checkBoxes {
      if readOnlyApi == Some("yes") {
        dialog.SetCheckBox(ReadOnlyCheckBox, true);
      }
      if readOnlyApi == Some("no") {
        dialog.SetCheckBox(ReadOnlyCheckBox, false);
      }
    }
    CloseDialog(dialog);
  }
}
