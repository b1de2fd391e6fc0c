/** The UI slice: colour theme and a global message. */
module UiSlice {
  import opened Wrappers

  /** `'blue' | 'dark' | 'light'`: no other theme can be represented. */
  datatype Theme = Blue | Dark | Light

  class UiStore {
    var theme: Theme
    var globalMessage: Option<string>

    /** `initialState`. */
    constructor ()
      ensures theme == Blue && globalMessage == None
    {
      theme := Blue;
      globalMessage := None;
    }

    /** `setTheme`: the message is left alone. */
    method SetTheme(t: Theme)
      modifies this
      ensures theme == t && globalMessage == old(globalMessage)
    {
      theme := t;
    }

    /** `setGlobalMessage`: `null` clears it; the theme is left alone. */
    method SetGlobalMessage(m: Option<string>)
      modifies this
      ensures globalMessage == m && theme == old(theme)
    {
      globalMessage := m;
    }
  }
}
