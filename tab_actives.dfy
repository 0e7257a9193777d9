/** The register of which button (dialog) is active. */
module TabActives {
  import opened Common

  class ButtonRegister {
    var activeButtonName: Option<string>

    /** The provider starts with no active button. */
    constructor ()
      ensures activeButtonName == None
    {
      activeButtonName := None;
    }

    /** `activateButton(name)`: the name becomes active, overriding any other. */
    method Activate(name: string)
      modifies this
      ensures activeButtonName == Some(name)
    {
      activeButtonName := Some(name);
    }

    /** `deactivateButton()`: no button is active. */
    method Deactivate()
      modifies this
      ensures activeButtonName == None
    {
      activeButtonName := None;
    }
  }
}
