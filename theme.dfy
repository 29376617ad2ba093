/** The accent-theme store: a two-valued theme read from local storage at
    start-up, written back to storage and reflected on the document root's
    `data-theme` attribute whenever it changes. */
module Theme {
  import opened Wrappers

  datatype Accent = Orange | Blue

  const StorageKey := "accent-theme"
  const ThemeAttribute := "data-theme"

  /** The string a theme is stored as. */
  function Name(t: Accent): string {
    match t
    case Orange => "orange"
    case Blue => "blue"
  }

  /** The initial-theme parse: only the exact string "blue" gives Blue; an
      absent, empty or unrecognised value falls back to Orange. */
  function Parse(stored: Option<string>): (t: Accent)
    ensures t == Blue <==> stored == Some("blue")
  {
    if stored == Some("blue") then Blue else Orange
  }

  function Lookup(storage: map<string, string>, key: string): Option<string> {
    if key in storage then Some(storage[key]) else None
  }

  /** The theme a fresh start reads from `storage`. */
  function Load(storage: map<string, string>): Accent {
    Parse(Lookup(storage, StorageKey))
  }

  /** Local storage after writing the theme under its key; every other key is kept. */
  function Persist(storage: map<string, string>, t: Accent): (s: map<string, string>)
    ensures s.Keys == storage.Keys + {StorageKey}
    ensures Lookup(s, StorageKey) == Some(Name(t))
    ensures forall k :: k in storage && k != StorageKey ==> s[k] == storage[k]
  {
    storage[StorageKey := Name(t)]
  }

  /** The root element's attributes after reflecting the theme: `data-theme`
      is "blue" for Blue and absent for Orange; every other attribute is kept. */
  function Reflect(attributes: map<string, string>, t: Accent): (a: map<string, string>)
    ensures Lookup(a, ThemeAttribute) == if t == Blue then Some("blue") else None
    ensures forall k :: k != ThemeAttribute ==> Lookup(a, k) == Lookup(attributes, k)
  {
    if t == Blue then attributes[ThemeAttribute := "blue"] else attributes - {ThemeAttribute}
  }

  /** Each theme reads back as itself from its stored name. */
  lemma ParseName(t: Accent)
    ensures Parse(Some(Name(t))) == t
  {
  }

  /** A theme written to storage is the theme the next start reads. */
  lemma LoadPersist(storage: map<string, string>, t: Accent)
    ensures Load(Persist(storage, t)) == t
  {
    ParseName(t);
  }

  class ThemeProvider {
    var theme: Accent
    /** The page's local storage. */
    var storage: map<string, string>
    /** The attributes of the document root element. */
    var rootAttributes: map<string, string>

    /** Storage and the root attribute agree with the current theme. */
    ghost predicate Synced()
      reads this
    {
      && Lookup(storage, StorageKey) == Some(Name(theme))
      && Lookup(rootAttributes, ThemeAttribute) == if theme == Blue then Some("blue") else None
    }

    /** Mounting the provider: the theme is parsed from storage, then the
        effect runs once, writing it back and reflecting it on the root (an
        unrecognised stored value is thereby replaced by "orange"). */
    constructor (storage0: map<string, string>, rootAttributes0: map<string, string>)
      ensures theme == Load(storage0)
      ensures storage == Persist(storage0, theme)
      ensures rootAttributes == Reflect(rootAttributes0, theme)
      ensures Synced()
    {
      theme := Load(storage0);
      storage := storage0;
      rootAttributes := rootAttributes0;
      new;
      ApplyTheme();
    }

    /** The effect body: set or remove `data-theme`, then store the theme. */
    method ApplyTheme()
      modifies this`storage, this`rootAttributes
      ensures storage == Persist(old(storage), theme)
      ensures rootAttributes == Reflect(old(rootAttributes), theme)
      ensures Synced()
    {
      if theme == Blue {
        rootAttributes := rootAttributes[ThemeAttribute := "blue"];
      } else {
        rootAttributes := rootAttributes - {ThemeAttribute};
      }
      storage := storage[StorageKey := Name(theme)];
    }

    /** `setTheme`: a new value re-runs the effect; setting the current value
        again changes nothing, and the state is already in sync. */
    method SetTheme(t: Accent)
      requires Synced()
      modifies this
      ensures theme == t && Synced()
      ensures storage == Persist(old(storage), t)
      ensures rootAttributes == Reflect(old(rootAttributes), t)
    {
      if t != theme {
        theme := t;
        ApplyTheme();
      } else {
        assert storage == storage[StorageKey := Name(t)];
        assert rootAttributes == Reflect(rootAttributes, t);
      }
    }
  }

  /** Setting a theme and then starting afresh from the same storage and
      root element comes back with that theme. */
  method Reload(p: ThemeProvider, t: Accent) returns (q: ThemeProvider)
    requires p.Synced()
    modifies p
    ensures fresh(q) && q.theme == t && q.Synced()
  {
    p.SetTheme(t);
    LoadPersist(old(p.storage), t);
    q := new ThemeProvider(p.storage, p.rootAttributes);
  }

  const OutsideProvider := "useTheme must be used within ThemeProvider"

  /** `useTheme`: the provider in scope, or an error when there is none. */
  function UseTheme(context: Option<ThemeProvider>): (r: Result<ThemeProvider, string>)
    ensures r.Ok? <==> context.Some?
    ensures r.Ok? ==> r.value == context.value
    ensures r.Err? ==> r.error == OutsideProvider
  {
    match context
    case Some(p) => Ok(p)
    case None => Err(OutsideProvider)
  }
}
