/** The interface language store: one `locale` field, Arabic or English. */
module LanguageStore {

  /** The field's type admits only these two values. */
  datatype Locale = Ar | En

  /** The code written into the page's `lang` attribute. */
  function Code(l: Locale): (c: string)
    ensures c == "ar" || c == "en"
  {
    match l
    case Ar => "ar"
    case En => "en"
  }

  /** `state.locale === 'ar' ? 'en' : 'ar'` */
  function Toggled(l: Locale): (r: Locale)
    ensures r != l
  {
    if l == Ar then En else Ar
  }

  /** Toggling is its own inverse. */
  lemma ToggleTwice(l: Locale)
    ensures Toggled(Toggled(l)) == l
  {
  }

  class LanguageState {
    var locale: Locale

    /** The store starts in Arabic. */
    constructor()
      ensures locale == Ar
    {
      locale := Ar;
    }

    method SetLocale(l: Locale)
      modifies this
      ensures locale == l
    {
      locale := l;
    }

    method ToggleLocale()
      modifies this
      ensures locale == Toggled(old(locale))
      ensures old(locale) == Ar ==> locale == En
      ensures old(locale) == En ==> locale == Ar
    {
      locale := Toggled(locale);
    }
  }

  /** Two toggles in a row restore the locale. */
  method ToggleTwiceRestores(s: LanguageState)
    modifies s
    ensures s.locale == old(s.locale)
  {
    s.ToggleLocale();
    s.ToggleLocale();
  }
}
