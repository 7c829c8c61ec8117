/** What the settings functions promise, alone and in sequence. */
module FontSettingsProperties {
  import opened FontSettings

  /** A size outside 12..24 is refused before the store is touched: nothing at all changes. */
  lemma OutOfRangeSaveChangesNothing(s: Settings, size: int, attempt: LoadAttempt)
    requires size < 12 || size > 24
    ensures Save(s, size, attempt) == Step(s, Threw("フォントサイズは12px〜24pxの範囲で指定してください"))
  {
  }

  /** A size in 12..24 is persisted under `fontSize` and published, once a store is available. */
  lemma InRangeSaveStoresAndPublishes(s: Settings, size: int, attempt: LoadAttempt)
    requires 12 <= size <= 24
    requires s.storeLoaded || attempt.Loads?
    ensures var r := Save(s, size, attempt);
      && r.outcome == Completed
      && r.next.persisted == s.persisted["fontSize" := size]
      && r.next.fontSize == size
      && r.next.storeLoaded
  {
  }

  /** A save whose store cannot be loaded rethrows the load's error and changes neither value. */
  lemma SaveWithoutStoreRethrows(s: Settings, size: int, reason: string)
    requires 12 <= size <= 24 && !s.storeLoaded
    ensures var r := Save(s, size, LoadFails(reason));
      r.outcome == Threw(reason) && r.next.persisted == s.persisted && r.next.fontSize == s.fontSize
  {
  }

  /** Loading publishes the saved size, or 14 when none is saved; it applies no range check and never throws. */
  lemma LoadPublishesSavedOrDefault(s: Settings, attempt: LoadAttempt)
    requires s.storeLoaded || attempt.Loads?
    ensures var r := Load(s, attempt);
      && r.outcome == Completed
      && r.next.persisted == s.persisted
      && ("fontSize" in s.persisted ==> r.next.fontSize == s.persisted["fontSize"])
      && ("fontSize" !in s.persisted ==> r.next.fontSize == 14)
  {
  }

  /** A size outside 12..24 already in the file is published as it is. */
  lemma LoadAppliesNoRangeCheck()
    ensures Load(Initial(map["fontSize" := 99]), Loads).next.fontSize == 99
  {
  }

  /** When the store cannot be loaded, loading publishes 14 and still resolves. */
  lemma FailedLoadFallsBack(s: Settings, reason: string)
    requires !s.storeLoaded
    ensures Load(s, LoadFails(reason)) == Step(s.(fontSize := 14, loadCalls := s.loadCalls + 1), Completed)
  {
  }

  /** Resetting persists and publishes 14, once a store is available. */
  lemma ResetStoresDefault(s: Settings, attempt: LoadAttempt)
    requires s.storeLoaded || attempt.Loads?
    ensures var r := Reset(s, attempt);
      r.outcome == Completed && r.next.persisted == s.persisted["fontSize" := 14] && r.next.fontSize == 14
  {
  }

  /** A size that was saved is what the next load publishes, whatever that load's store would do. */
  lemma SaveThenLoad(s: Settings, size: int, a1: LoadAttempt, a2: LoadAttempt)
    requires Save(s, size, a1).outcome == Completed
    ensures Load(Save(s, size, a1).next, a2).next.fontSize == size
  {
    var saved := Save(s, size, a1);
    assert saved.next.storeLoaded && saved.next.persisted["fontSize"] == size;
  }

  /** One call of a settings function, with what `Store.load` would do if it were called. */
  datatype Call = LoadCall(attempt: LoadAttempt) | SaveCall(size: int, attempt: LoadAttempt) | ResetCall(attempt: LoadAttempt)

  function Apply(s: Settings, c: Call): Step
  {
    match c
    case LoadCall(a) => Load(s, a)
    case SaveCall(size, a) => Save(s, size, a)
    case ResetCall(a) => Reset(s, a)
  }

  /** The state after the calls in order, each starting from where the previous one left off. */
  function Run(s: Settings, calls: seq<Call>): Settings
    decreases calls
  {
    if calls == [] then s else Run(Apply(s, calls[0]).next, calls[1..])
  }

  /** Every call loads the store at most once, and never once one is cached; a cached store stays cached. */
  lemma CallLoadsAtMostOnce(s: Settings, c: Call)
    ensures Apply(s, c).next.loadCalls <= s.loadCalls + 1
    ensures s.storeLoaded ==> Apply(s, c).next.storeLoaded && Apply(s, c).next.loadCalls == s.loadCalls
  {
  }

  /** Once the store is cached, no later call loads it again: `getStore` reuses it. */
  lemma {:induction false} CachedStoreIsReused(s: Settings, calls: seq<Call>)
    requires s.storeLoaded
    ensures Run(s, calls).storeLoaded && Run(s, calls).loadCalls == s.loadCalls
    decreases calls
  {
    if calls != [] {
      CallLoadsAtMostOnce(s, calls[0]);
      CachedStoreIsReused(Apply(s, calls[0]).next, calls[1..]);
    }
  }

  /** `Store.load` is called no more often than the settings functions are, however the loads go. */
  lemma {:induction false} LoadCallsBounded(s: Settings, calls: seq<Call>)
    ensures Run(s, calls).loadCalls <= s.loadCalls + |calls|
    decreases calls
  {
    if calls != [] {
      CallLoadsAtMostOnce(s, calls[0]);
      LoadCallsBounded(Apply(s, calls[0]).next, calls[1..]);
    }
  }

  /** The file's contents change only by a save of 12..24 or by a reset, and only under `fontSize`. */
  lemma OnlyFontSizeIsPersisted(s: Settings, c: Call, key: string)
    requires key != "fontSize"
    ensures key in Apply(s, c).next.persisted <==> key in s.persisted
    ensures key in s.persisted ==> Apply(s, c).next.persisted[key] == s.persisted[key]
    ensures "fontSize" in Apply(s, c).next.persisted && Apply(s, c).next.persisted != s.persisted ==>
      var v := Apply(s, c).next.persisted["fontSize"]; 12 <= v <= 24
  {
  }
}
