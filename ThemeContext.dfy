/** The theme provider: the colour scheme chosen at start-up, the toggle,
    and the effect that mirrors the theme into the document and storage. */
module ThemeContext {
  import opened Seqs

  /** The storage key the theme is kept under. */
  const ThemeKey := "omniboard-theme"

  /** What start-up can see of the browser. `storage` is `None` when reading
      it throws; `prefersLight` is whether a `matchMedia` exists and reports
      a light colour-scheme preference. */
  datatype Browser = NoWindow | Window(storage: Option<map<string, string>>, prefersLight: bool)

  /** `getInitialTheme`: a non-empty stored value as it is (it is not
      checked to be a known theme), else light when the system prefers it,
      else dark; dark too without a window or when storage throws. */
  function GetInitialTheme(b: Browser): (r: string)
    ensures b.NoWindow? ==> r == "dark"
    ensures b.Window? && b.storage.None? ==> r == "dark"
    ensures b.Window? && b.storage.Some? && ThemeKey in b.storage.value && b.storage.value[ThemeKey] != "" ==>
      r == b.storage.value[ThemeKey]
    ensures b.Window? && b.storage.Some? && (ThemeKey !in b.storage.value || b.storage.value[ThemeKey] == "") ==>
      r == (if b.prefersLight then "light" else "dark")
    ensures r != ""
  {
    match b
    case NoWindow => "dark"
    case Window(storage, prefersLight) =>
      if storage.None? then "dark"
      else if ThemeKey in storage.value && storage.value[ThemeKey] != "" then storage.value[ThemeKey]
      else if prefersLight then "light"
      else "dark"
  }

  /** The updater passed to `setTheme` by `toggleTheme`. */
  function Toggle(prev: string): (r: string)
    ensures r == "light" <==> prev == "dark"
    ensures r == "dark" <==> prev != "dark"
  {
    if prev == "dark" then "light" else "dark"
  }

  /** Toggling twice restores a known theme; an unknown stored theme is
      replaced by a known one after the first toggle. */
  lemma ToggleTwice(prev: string)
    ensures prev in {"dark", "light"} ==> Toggle(Toggle(prev)) == prev
    ensures prev !in {"dark", "light"} ==> Toggle(prev) == "dark" && Toggle(Toggle(prev)) == "light"
  {
  }

  /** The provider's state, with the document attribute and storage the
      effect writes. `storageWritable` is false where `setItem` throws. */
  class ThemeProvider {
    var theme: string
    var dataTheme: string
    var storage: map<string, string>
    const storageWritable: bool

    /** After every effect run the document shows the theme and, where
        storage can be written, storage holds it too. */
    predicate Valid()
      reads this
    {
      dataTheme == theme && (storageWritable ==> ThemeKey in storage && storage[ThemeKey] == theme)
    }

    /** Mounting: the initial theme, then the effect's first run. */
    constructor (b: Browser, initialStorage: map<string, string>, writable: bool)
      requires b.Window? && b.storage.Some? ==> b.storage.value == initialStorage
      ensures Valid()
      ensures theme == GetInitialTheme(b)
      ensures storageWritable == writable
      ensures writable ==> storage == initialStorage[ThemeKey := theme]
      ensures !writable ==> storage == initialStorage
    {
      theme := GetInitialTheme(b);
      storageWritable := writable;
      storage := initialStorage;
      dataTheme := "";
      new;
      ApplyTheme();
    }

    /** The effect: set the document attribute, then try to store the theme. */
    method ApplyTheme()
      modifies this
      ensures dataTheme == theme
      ensures storageWritable ==> storage == old(storage)[ThemeKey := theme]
      ensures !storageWritable ==> storage == old(storage)
      ensures theme == old(theme)
    {
      dataTheme := theme;
      if storageWritable {
        storage := storage[ThemeKey := theme];
      }
    }

    /** `setTheme` with any value, followed by its effect. */
    method SetTheme(t: string)
      requires Valid()
      modifies this
      ensures Valid()
      ensures theme == t
      ensures storageWritable ==> storage == old(storage)[ThemeKey := t]
      ensures !storageWritable ==> storage == old(storage)
    {
      theme := t;
      ApplyTheme();
    }

    /** `toggleTheme`, followed by its effect. */
    method ToggleTheme()
      requires Valid()
      modifies this
      ensures Valid()
      ensures theme == Toggle(old(theme))
      ensures storageWritable ==> storage == old(storage)[ThemeKey := theme]
      ensures !storageWritable ==> storage == old(storage)
    {
      SetTheme(Toggle(theme));
    }
  }

  /** What a reload finds: after any run of the effect with writable
      storage, the next start-up reads back the same theme. */
  lemma ReloadKeepsTheme(storage: map<string, string>, theme: string, prefersLight: bool)
    requires ThemeKey in storage && storage[ThemeKey] == theme && theme != ""
    ensures GetInitialTheme(Window(Some(storage), prefersLight)) == theme
  {
  }

  /** `useTheme`: the provider's value, or the error thrown outside a provider. */
  function UseTheme<T>(context: Option<T>): (r: Result<T>)
    ensures r.Ok? <==> context.Some?
    ensures r.Ok? ==> r.value == context.value
    ensures r.Err? ==> r.error == "useTheme must be used within a ThemeProvider"
  {
    if context.Some? then Ok(context.value) else Err("useTheme must be used within a ThemeProvider")
  }
}
