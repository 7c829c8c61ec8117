/**
 * The font-size settings (src/lib/stores/settings.ts): a module-level cached `Store` for
 * `settings.json`, the persisted key `fontSize`, and the writable `fontSize` the UI reads.
 * `Store.load` is an oracle: whether it would succeed when it is called.
 */
module FontSettings {
  const DefaultFontSize := 14
  const MinFontSize := 12
  const MaxFontSize := 24
  const FontSizeKey := "fontSize"
  const FontSizeRangeError := "フォントサイズは12px〜24pxの範囲で指定してください"

  /** What `Store.load` would do if it were called now. */
  datatype LoadAttempt = Loads | LoadFails(reason: string)

  /** How an `async` settings function settles: it resolves, or it rethrows. */
  datatype Outcome = Completed | Threw(reason: string)

  /**
   * The settings state: whether the cached store is loaded, the key-value contents of
   * `settings.json` (the store saves automatically, so its contents and the file agree), the
   * current `fontSize`, and how many times `Store.load` has been called.
   */
  datatype Settings = Settings(storeLoaded: bool, persisted: map<string, int>, fontSize: int, loadCalls: nat)

  /** The module as first evaluated over a file holding `persisted`: no store yet, `fontSize` at 14. */
  function Initial(persisted: map<string, int>): Settings
  {
    Settings(false, persisted, DefaultFontSize, 0)
  }

  datatype Step = Step(next: Settings, outcome: Outcome)

  /** `getStore`: load the store only when none is cached. */
  function CachedStore(s: Settings, attempt: LoadAttempt): (r: Step)
    ensures r.next.persisted == s.persisted && r.next.fontSize == s.fontSize
    ensures s.storeLoaded ==> r == Step(s, Completed)
    ensures !s.storeLoaded ==> r.next.loadCalls == s.loadCalls + 1
    ensures r.outcome.Completed? <==> r.next.storeLoaded
  {
    if s.storeLoaded then Step(s, Completed)
    else match attempt
      case Loads => Step(s.(storeLoaded := true, loadCalls := s.loadCalls + 1), Completed)
      case LoadFails(reason) => Step(s.(loadCalls := s.loadCalls + 1), Threw(reason))
  }

  /** `savedFontSize ?? DEFAULT_SETTINGS.fontSize`. */
  function SavedOrDefault(persisted: map<string, int>): int
  {
    if FontSizeKey in persisted then persisted[FontSizeKey] else DefaultFontSize
  }

  /** `loadSettings`: the saved size or 14, and 14 when the store cannot be had; it never throws. */
  function Load(s: Settings, attempt: LoadAttempt): (r: Step)
    ensures r.outcome == Completed && r.next.persisted == s.persisted
    ensures r.next.storeLoaded ==> r.next.fontSize == SavedOrDefault(s.persisted)
    ensures !r.next.storeLoaded ==> r.next.fontSize == DefaultFontSize
  {
    var g := CachedStore(s, attempt);
    if g.outcome.Threw? then Step(g.next.(fontSize := DefaultFontSize), Completed)
    else Step(g.next.(fontSize := SavedOrDefault(g.next.persisted)), Completed)
  }

  /** `saveFontSize`: refuse sizes outside 12..24 before anything else, then store and publish. */
  function Save(s: Settings, size: int, attempt: LoadAttempt): (r: Step)
    ensures !(MinFontSize <= size <= MaxFontSize) ==> r == Step(s, Threw(FontSizeRangeError))
    ensures r.outcome.Completed? ==>
      MinFontSize <= size <= MaxFontSize
      && r.next.persisted == s.persisted[FontSizeKey := size] && r.next.fontSize == size
    ensures r.outcome.Threw? ==> r.next.persisted == s.persisted && r.next.fontSize == s.fontSize
  {
    if size < MinFontSize || size > MaxFontSize then Step(s, Threw(FontSizeRangeError))
    else
      var g := CachedStore(s, attempt);
      if g.outcome.Threw? then g
      else Step(g.next.(persisted := g.next.persisted[FontSizeKey := size], fontSize := size), Completed)
  }

  /** `resetSettings`: store 14 and publish it. */
  function Reset(s: Settings, attempt: LoadAttempt): (r: Step)
    ensures r.outcome.Completed? ==> r.next.persisted == s.persisted[FontSizeKey := DefaultFontSize] && r.next.fontSize == DefaultFontSize
    ensures r.outcome.Threw? ==> r.next.persisted == s.persisted && r.next.fontSize == s.fontSize
    ensures r.outcome.Completed? <==> r.next.storeLoaded
  {
    var g := CachedStore(s, attempt);
    if g.outcome.Threw? then g
    else Step(g.next.(persisted := g.next.persisted[FontSizeKey := DefaultFontSize], fontSize := DefaultFontSize), Completed)
  }

  /** The module's state: the cached store, the file's contents and the `fontSize` writable. */
  class SettingsStore {
    var storeLoaded: bool
    var persisted: map<string, int>
    var fontSize: int
    ghost var loadCalls: nat

    ghost function Model(): Settings
      reads this
    {
      Settings(storeLoaded, persisted, fontSize, loadCalls)
    }

    /** Module evaluation: `store = null`, `fontSize = writable(14)`. */
    constructor (file: map<string, int>)
      ensures Model() == Initial(file)
    {
      storeLoaded := false;
      persisted := file;
      fontSize := DefaultFontSize;
      loadCalls := 0;
    }

    /** `getStore`. */
    method GetStore(attempt: LoadAttempt) returns (outcome: Outcome)
      modifies this`storeLoaded, this`loadCalls
      ensures Step(Model(), outcome) == CachedStore(old(Model()), attempt)
    {
      if !storeLoaded {
        loadCalls := loadCalls + 1;
        match attempt
        case Loads =>
          storeLoaded := true;
          outcome := Completed;
        case LoadFails(reason) =>
          outcome := Threw(reason);
      } else {
        outcome := Completed;
      }
    }

    method LoadSettings(attempt: LoadAttempt) returns (outcome: Outcome)
      modifies this
      ensures Step(Model(), outcome) == Load(old(Model()), attempt)
    {
      var got := GetStore(attempt);
      if got.Threw? {
        fontSize := DefaultFontSize;
      } else {
        fontSize := if FontSizeKey in persisted then persisted[FontSizeKey] else DefaultFontSize;
      }
      outcome := Completed;
    }

    method SaveFontSize(size: int, attempt: LoadAttempt) returns (outcome: Outcome)
      modifies this
      ensures Step(Model(), outcome) == Save(old(Model()), size, attempt)
    {
      if size < MinFontSize || size > MaxFontSize {
        return Threw(FontSizeRangeError);
      }
      outcome := GetStore(attempt);
      if outcome.Completed? {
        persisted := persisted[FontSizeKey := size];
        fontSize := size;
      }
    }

    method ResetSettings(attempt: LoadAttempt) returns (outcome: Outcome)
      modifies this
      ensures Step(Model(), outcome) == Reset(old(Model()), attempt)
    {
      outcome := GetStore(attempt);
      if outcome.Completed? {
        persisted := persisted[FontSizeKey := DefaultFontSize];
        fontSize := DefaultFontSize;
      }
    }
  }
}
