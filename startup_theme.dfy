/** The theme decision taken once when the page script starts
    (src/main.tsx lines 2-8): the saved preference from local storage and the
    system's prefers-dark setting decide whether the root element gets the
    `dark` class. Both readings are inputs here. */
module StartupTheme {
  import opened Dom

  /** A value read from local storage: `null` when the key is absent. */
  datatype Option<T> = None | Some(value: T)

  /** JavaScript truthiness of a `string | null`: `null` and `""` are falsy,
      every other string is truthy. */
  function Truthy(saved: Option<string>): (b: bool)
    ensures b <==> saved.Some? && |saved.value| > 0
  {
    match saved
    case None => false
    case Some(s) => s != ""
  }

  /** The condition of the `if` on line 4:
      `savedTheme === 'dark' || (!savedTheme && prefersDark)`; spelled out
      per kind of saved value, dark applies iff the saved value is "dark", or
      it is absent or empty and the system prefers dark. */
  predicate StartsDark(saved: Option<string>, prefersDark: bool)
    ensures StartsDark(saved, prefersDark) <==>
      saved == Some("dark") || ((saved == None || saved == Some("")) && prefersDark)
  {
    saved == Some("dark") || (!Truthy(saved) && prefersDark)
  }

  /** A saved "dark" wins over the system setting. */
  lemma SavedDarkWins(prefersDark: bool)
    ensures StartsDark(Some("dark"), prefersDark)
  {
  }

  /** A saved "light" wins over the system setting too. */
  lemma SavedLightWins(prefersDark: bool)
    ensures !StartsDark(Some("light"), prefersDark)
  {
  }

  /** Any other non-empty saved string (say "blue") also gives light: it is
      truthy, so the system setting is never consulted. */
  lemma OtherSavedStringGivesLight(s: string, prefersDark: bool)
    requires s != "dark" && s != ""
    ensures !StartsDark(Some(s), prefersDark)
  {
  }

  /** An absent key and an empty string behave alike: the system decides. */
  lemma AbsentAndEmptyAgree(prefersDark: bool)
    ensures StartsDark(None, prefersDark) == StartsDark(Some(""), prefersDark) == prefersDark
  {
  }

  /** The root element's class list after the startup decision. */
  function StartupTokens(tokens: seq<string>, saved: Option<string>, prefersDark: bool): (r: seq<string>)
    requires NoDuplicates(tokens)
    ensures NoDuplicates(r)
    ensures DarkClass in r <==> StartsDark(saved, prefersDark)
    ensures forall c :: c != DarkClass ==> (c in r <==> c in tokens)
  {
    if StartsDark(saved, prefersDark) then With(tokens, DarkClass) else Without(tokens, DarkClass)
  }

  /** Lines 2-8: exactly one of `classList.add('dark')` and
      `classList.remove('dark')` runs. */
  method ApplyStartupTheme(root: ClassList, saved: Option<string>, prefersDark: bool)
    requires root.Valid()
    modifies root
    ensures root.Valid()
    ensures root.tokens == StartupTokens(old(root.tokens), saved, prefersDark)
    ensures root.Contains(DarkClass) <==> StartsDark(saved, prefersDark)
  {
    if saved == Some("dark") || (!Truthy(saved) && prefersDark) {
      root.Add(DarkClass);
    } else {
      root.Remove(DarkClass);
    }
  }
}
