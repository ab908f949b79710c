/**
 * Theme selection (src/context/ThemeContext.tsx): the initial theme, the
 * provider's theme state with its `setTheme`/`toggle` updates, the effect
 * that mirrors the theme into storage and onto the document, and the
 * `useTheme` guard.
 */
module Theme {
  import opened Wrappers
  import opened BlockchainApi

  const MissingProviderMessage := "useTheme must be used within ThemeProvider"

  datatype Theme = Light | Dark

  /** A probe of the browser environment: the value read, or an exception. */
  datatype Probe<T> = Throws | Yields(value: T)

  /** The string a theme is stored as. */
  function Name(t: Theme): string {
    match t
    case Light => "light"
    case Dark => "dark"
  }

  /** The theme a stored string names, if it is exactly one of the two names. */
  function FromName(raw: string): (r: Option<Theme>)
    ensures r.Some? <==> raw == "dark" || raw == "light"
    ensures r.Some? ==> Name(r.value) == raw
  {
    if raw == "dark" then Some(Dark) else if raw == "light" then Some(Light) else None
  }


  /** The stored theme named by a successful storage read (`null` when storage is absent). */
  function StoredTheme(stored: Probe<Option<string>>): Option<Theme> {
    if stored.Yields? && stored.value.Some? then FromName(stored.value.value) else None
  }

  /**
   * `getInitial`: a valid stored name wins; otherwise dark exactly when the OS
   * is known to prefer it; a probe that throws gives no answer.
   */
  function InitialTheme(stored: Probe<Option<string>>, prefersDark: Probe<bool>): (t: Theme)
    ensures StoredTheme(stored).Some? ==> t == StoredTheme(stored).value
    ensures StoredTheme(stored).None? ==> (t == Dark <==> prefersDark == Yields(true))
  {
    match StoredTheme(stored)
    case Some(t) => t
    case None => if prefersDark == Yields(true) then Dark else Light
  }

  /** A theme the effect has stored is the theme chosen at the next mount, whatever the OS prefers. */
  lemma StoredThemeIsRestored(t: Theme, prefersDark: Probe<bool>)
    ensures InitialTheme(Yields(Some(Name(t))), prefersDark) == t
  {
    assert FromName(Name(t)) == Some(t);
  }

  /** The `toggle` updater. */
  function Toggled(t: Theme): (r: Theme)
    ensures r != t
  {
    if t == Dark then Light else Dark
  }

  /** Toggling twice restores the theme. */
  lemma ToggleInvolution(t: Theme)
    ensures Toggled(Toggled(t)) == t
  {
  }

  /** `useTheme`: the provider's value, or an error outside a provider. */
  function UseTheme(provided: Option<Theme>): (r: Result<Theme, Error>)
    ensures r.Success? <==> provided.Some?
    ensures r.Success? ==> r.value == provided.value
    ensures r.Failure? ==> r.error.message == MissingProviderMessage
  {
    match provided
    case Some(t) => Success(t)
    case None => Failure(Error("Error", MissingProviderMessage))
  }

  /** `ThemeProvider`: the theme state, the stored theme and the `dark` class on the document. */
  class ThemeProvider {
    var theme: Theme
    /** The value under the key "btc-browser:theme" in storage. */
    var stored: Option<string>
    /** Whether the document element carries the `dark` class. */
    var darkClass: bool

    /** The `dark` class is on the document exactly while the theme is dark. */
    ghost predicate Valid()
      reads this
    {
      darkClass == (theme == Dark)
    }

    /**
     * Mounting: the initial theme from `stored` (unless reading it throws)
     * and the OS preference, then the effect's first run.
     */
    constructor (stored0: Option<string>, readThrows: bool, prefersDark: Probe<bool>, storageWritable: bool)
      ensures Valid()
      ensures theme == InitialTheme(if readThrows then Throws else Yields(stored0), prefersDark)
      ensures stored == if storageWritable then Some(Name(theme)) else stored0
    {
      var t := InitialTheme(if readThrows then Throws else Yields(stored0), prefersDark);
      theme := t;
      darkClass := t == Dark;
      stored := if storageWritable then Some(Name(t)) else stored0;
    }

    /** The effect on `[theme]`: the class follows the theme, then storage does unless writing throws. */
    method ApplyTheme(storageWritable: bool)
      modifies this
      ensures Valid() && theme == old(theme)
      ensures stored == if storageWritable then Some(Name(theme)) else old(stored)
    {
      darkClass := theme == Dark;
      if storageWritable {
        stored := Some(Name(theme));
      }
    }

    /** `setTheme(t)`; the effect runs only when the theme actually changes. */
    method SetTheme(t: Theme, storageWritable: bool)
      requires Valid()
      modifies this
      ensures Valid() && theme == t
      ensures stored == if t != old(theme) && storageWritable then Some(Name(t)) else old(stored)
    {
      if t != theme {
        theme := t;
        ApplyTheme(storageWritable);
      }
    }

    /** `toggle()`. */
    method Toggle(storageWritable: bool)
      requires Valid()
      modifies this
      ensures Valid() && theme == Toggled(old(theme))
      ensures stored == if storageWritable then Some(Name(theme)) else old(stored)
    {
      SetTheme(Toggled(theme), storageWritable);
    }
  }
}
