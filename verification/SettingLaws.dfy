/** What every successful set and clear keeps: the cache mirrors the table, Graph delivery never runs
    without Graph lookup, and the CORS origins follow the frontend URL. */
module SettingLaws {
  import opened Text
  import opened Integers
  import opened AddressLists
  import opened Urls
  import opened SettingValues
  import opened Settings

  /** The cache is the decoded table. */
  predicate Synced(env: Env, st: State) {
    Load(env, st.table) == Some(st.cache)
  }

  /** The API never writes the CORS row as a secret. */
  predicate CorsReadable(table: map<Key, Row>) {
    CorsOrigins in table ==> !table[CorsOrigins].isSecret
  }

  predicate Sound(env: Env, st: State) {
    && Synced(env, st)
    && Coercible(env, st.cache)
    && DependencyOk(env, st.cache)
    && CorsReadable(st.table)
  }

  predicate IsOn(settings: map<Key, Value>, key: Key) {
    key in settings && settings[key] == BoolValue(true)
  }

  // ----- loading -----

  lemma LoadUpdate(env: Env, table: map<Key, Row>, cache: map<Key, string>, key: Key, row: Row)
    requires Load(env, table) == Some(cache) && Known(key)
    ensures StoredValue(env, row).Some? ==>
      Load(env, table[key := row]) == Some(cache[key := StoredValue(env, row).value])
    ensures StoredValue(env, row).None? ==> Load(env, table[key := row]) == None
  {
    var rows := table[key := row];
    assert row == rows[key];
    if StoredValue(env, row).Some? {
      assert Readable(env, rows);
      assert Load(env, rows).value == cache[key := StoredValue(env, row).value];
    }
  }

  lemma LoadRemove(env: Env, table: map<Key, Row>, cache: map<Key, string>, key: Key)
    requires Load(env, table) == Some(cache) && Known(key)
    ensures Load(env, table - {key}) == Some(cache - {key})
  {
    assert Readable(env, table - {key});
    assert Load(env, table - {key}).value == cache - {key};
  }

  /** The text a successful set leaves in the cache: normalized once for the check, once more for
      storage. */
  function StoredText(env: Env, key: Key, value: string): Option<string> {
    match Normalize(env, key, value)
    case Some(text) => Normalize(env, key, text)
    case None => None
  }

  lemma NewRowStores(env: Env, cache: map<Key, string>, key: Key, value: string)
    requires EnvOk(env) && Known(key) && NewRow(env, cache, key, value).Some?
    ensures var (text, row) := NewRow(env, cache, key, value).value;
      && Normalize(env, key, value) == Some(text)
      && StoredText(env, key, value).Some?
      && StoredValue(env, row) == StoredText(env, key, value)
      && row.isSecret == IsSecret(key)
      && DependencyOk(env, cache[key := text])
  {
  }

  lemma StoredCoerces(env: Env, key: Key, value: string)
    requires Known(key) && StoredText(env, key, value).Some?
    ensures Coerce(env, key, StoredText(env, key, value).value).Some?
    ensures KindOf(key) == IntKind || KindOf(key) == BoolKind ==>
      StoredText(env, key, value) == Normalize(env, key, value)
  {
    NormalizedCoerces(env, key, Normalize(env, key, value).value);
    if KindOf(key) == IntKind || KindOf(key) == BoolKind {
      NormalizeTwiceIff(env, key, value);
    }
  }

  /** The dependency looks at two keys only. */
  lemma SameSwitches(env: Env, a: map<Key, string>, b: map<Key, string>)
    requires GraphDeliveryEnabled in a <==> GraphDeliveryEnabled in b
    requires GraphDeliveryEnabled in a && GraphDeliveryEnabled in b ==>
        a[GraphDeliveryEnabled] == b[GraphDeliveryEnabled]
    requires GraphLookupEnabled in a <==> GraphLookupEnabled in b
    requires GraphLookupEnabled in a && GraphLookupEnabled in b ==> a[GraphLookupEnabled] == b[GraphLookupEnabled]
    ensures DependencyOk(env, a) <==> DependencyOk(env, b)
  {
  }

  lemma OtherKeyUpdate(env: Env, cache: map<Key, string>, key: Key, text: string)
    requires key != GraphDeliveryEnabled && key != GraphLookupEnabled
    ensures DependencyOk(env, cache[key := text]) <==> DependencyOk(env, cache)
  {
    SameSwitches(env, cache, cache[key := text]);
  }

  /** The dependency is checked on the once-normalized text, and holds of the stored one. */
  lemma CheckedIsStored(env: Env, cache: map<Key, string>, key: Key, value: string)
    requires Known(key) && StoredText(env, key, value).Some?
    ensures DependencyOk(env, cache[key := StoredText(env, key, value).value])
       <==> DependencyOk(env, cache[key := Normalize(env, key, value).value])
  {
    if key == GraphDeliveryEnabled || key == GraphLookupEnabled {
      StoredCoerces(env, key, value);
    } else {
      OtherKeyUpdate(env, cache, key, StoredText(env, key, value).value);
      OtherKeyUpdate(env, cache, key, Normalize(env, key, value).value);
    }
  }

  // ----- one operation -----

  lemma SetRowsPlain(env: Env, st: State, key: Key, value: string)
    requires Known(key) && !key.FrontendBaseUrl?
    ensures NewRow(env, st.cache, key, value).None? ==> Set(env, st, key, value) == Err
    ensures NewRow(env, st.cache, key, value).Some? ==>
      Set(env, st, key, value) == Reload(env, st.table[key := NewRow(env, st.cache, key, value).value.1])
  {
  }

  /** Setting any key but the frontend URL, from a state whose cache mirrors the table: once the
      value passes its checks nothing else can fail, and exactly that key changes. */
  lemma SetChangesOneKey(env: Env, st: State, key: Key, value: string)
    requires EnvOk(env) && Synced(env, st) && Known(key) && !key.FrontendBaseUrl?
    ensures Set(env, st, key, value).Ok? <==> NewRow(env, st.cache, key, value).Some?
    ensures Set(env, st, key, value).Ok? ==>
      var now := Set(env, st, key, value).value;
      && StoredText(env, key, value).Some?
      && Synced(env, now)
      && now.cache == st.cache[key := StoredText(env, key, value).value]
      && now.table == st.table[key := NewRow(env, st.cache, key, value).value.1]
      && DependencyOk(env, now.cache)
  {
    SetRowsPlain(env, st, key, value);
    if NewRow(env, st.cache, key, value).Some? {
      var (text, row) := NewRow(env, st.cache, key, value).value;
      NewRowStores(env, st.cache, key, value);
      LoadUpdate(env, st.table, st.cache, key, row);
      CheckedIsStored(env, st.cache, key, value);
    }
  }

  /** Whether the stored CORS list takes part in a frontend change. */
  predicate FollowsFrontend(env: Env, st: State)
    requires Coercible(env, st.cache)
  {
    CorsOrigins in st.cache ==>
      st.cache[CorsOrigins] == StripSlashes(FrontendOf(Effective(env, st.cache).value))
  }

  /** The cache after a frontend change. */
  function AfterFrontend(env: Env, st: State, value: string): Option<map<Key, string>>
    requires Coercible(env, st.cache)
  {
    match (Normalize(env, FrontendBaseUrl, value), StoredText(env, FrontendBaseUrl, value))
    case (Some(text), Some(stored)) =>
      var cache := st.cache[FrontendBaseUrl := stored];
      if !FollowsFrontend(env, st) then Some(cache)
      else
        (match Normalize(env, CorsOrigins, text)
         case Some(origins) => Some(cache[CorsOrigins := origins])
         case None => None)
    case _ => None
  }

  lemma CoupleCases(env: Env, table: map<Key, Row>, previous: string, text: string)
    requires CorsReadable(table)
    ensures var rows := Couple(env, table, previous, text);
      if CorsOrigins in table && table[CorsOrigins].value != previous then rows == Some(table)
      else if Normalize(env, CorsOrigins, text).None? then rows == None
      else rows == Some(table[CorsOrigins := Row(Normalize(env, CorsOrigins, text).value, false)])
  {
  }

  lemma CoupleLoads(env: Env, table: map<Key, Row>, cache: map<Key, string>, previous: string, text: string)
    requires Load(env, table) == Some(cache) && CorsReadable(table)
    ensures var rows := Couple(env, table, previous, text);
      if CorsOrigins in cache && cache[CorsOrigins] != previous then rows == Some(table)
      else if Normalize(env, CorsOrigins, text).None? then rows == None
      else (rows.Some? && CorsReadable(rows.value)
            && Load(env, rows.value) == Some(cache[CorsOrigins := Normalize(env, CorsOrigins, text).value]))
  {
    CoupleCases(env, table, previous, text);
    assert CorsOrigins in cache <==> CorsOrigins in table;
    if Normalize(env, CorsOrigins, text).Some? {
      LoadUpdate(env, table, cache, CorsOrigins, Row(Normalize(env, CorsOrigins, text).value, false));
    }
  }

  lemma SetRowsFrontend(env: Env, st: State, value: string)
    requires Coercible(env, st.cache)
    ensures var row := NewRow(env, st.cache, FrontendBaseUrl, value);
      if row.None? then Set(env, st, FrontendBaseUrl, value) == Err
      else
        var previous := StripSlashes(FrontendOf(Effective(env, st.cache).value));
        var rows := Couple(env, st.table[FrontendBaseUrl := row.value.1], previous, row.value.0);
        Set(env, st, FrontendBaseUrl, value) == if rows.None? then Err else Reload(env, rows.value)
  {
  }

  lemma NewFrontendRow(env: Env, st: State, value: string)
    requires DependencyOk(env, st.cache)
    ensures NewRow(env, st.cache, FrontendBaseUrl, value).Some? <==> StoredText(env, FrontendBaseUrl, value).Some?
  {
    if StoredText(env, FrontendBaseUrl, value).Some? {
      var text := Normalize(env, FrontendBaseUrl, value).value;
      OtherKeyUpdate(env, st.cache, FrontendBaseUrl, text);
      assert Serialize(env, FrontendBaseUrl, text).Some?;
    }
  }

  /** Setting the frontend URL, from a sound state: it succeeds exactly when the URL is accepted both
      times and, where the CORS list follows, accepted as a list of origins too; nothing but the URL
      and that list changes. */
  lemma SetFrontend(env: Env, st: State, value: string)
    requires EnvOk(env) && Sound(env, st)
    ensures Set(env, st, FrontendBaseUrl, value).Ok? <==> AfterFrontend(env, st, value).Some?
    ensures Set(env, st, FrontendBaseUrl, value).Ok? ==>
      var now := Set(env, st, FrontendBaseUrl, value).value;
      && Synced(env, now) && CorsReadable(now.table)
      && now.cache == AfterFrontend(env, st, value).value
  {
    NewFrontendRow(env, st, value);
    SetRowsFrontend(env, st, value);
    if NewRow(env, st.cache, FrontendBaseUrl, value).Some? {
      FrontendRowLoads(env, st, value);
    }
  }

  /** The frontend row together with the list that may follow it. */
  lemma FrontendRowLoads(env: Env, st: State, value: string)
    requires EnvOk(env) && Sound(env, st) && NewRow(env, st.cache, FrontendBaseUrl, value).Some?
    ensures var (text, row) := NewRow(env, st.cache, FrontendBaseUrl, value).value;
      var previous := StripSlashes(FrontendOf(Effective(env, st.cache).value));
      var rows := Couple(env, st.table[FrontendBaseUrl := row], previous, text);
      && (rows.Some? <==> AfterFrontend(env, st, value).Some?)
      && (rows.Some? ==> CorsReadable(rows.value) && Load(env, rows.value) == AfterFrontend(env, st, value))
  {
    var (text, row) := NewRow(env, st.cache, FrontendBaseUrl, value).value;
    NewRowStores(env, st.cache, FrontendBaseUrl, value);
    LoadUpdate(env, st.table, st.cache, FrontendBaseUrl, row);
    var stored := StoredText(env, FrontendBaseUrl, value).value;
    var previous := StripSlashes(FrontendOf(Effective(env, st.cache).value));
    CoupleLoads(env, st.table[FrontendBaseUrl := row], st.cache[FrontendBaseUrl := stored], previous, text);
  }

  /** The list written beside the key: the origins of a new frontend URL that the list follows. */
  function Followed(env: Env, st: State, key: Key, value: string): Option<string>
    requires Coercible(env, st.cache)
  {
    if !key.FrontendBaseUrl? || !FollowsFrontend(env, st) then None
    else
      match Normalize(env, key, value)
      case Some(text) => Normalize(env, CorsOrigins, text)
      case None => None
  }

  function WithOrigins(st: State, origins: Option<string>): State {
    if origins.None? then st
    else State(st.table[CorsOrigins := Row(origins.value, false)], st.cache[CorsOrigins := origins.value])
  }

  lemma CorsCached(env: Env, st: State)
    requires Synced(env, st) && CorsReadable(st.table)
    ensures CorsOrigins in st.table <==> CorsOrigins in st.cache
    ensures CorsOrigins in st.table ==> st.table[CorsOrigins].value == st.cache[CorsOrigins]
  {
  }

  lemma FrontendTexts(env: Env, st: State, value: string)
    requires Coercible(env, st.cache) && AfterFrontend(env, st, value).Some?
    ensures StoredText(env, FrontendBaseUrl, value).Some?
    ensures FollowsFrontend(env, st) <==> Followed(env, st, FrontendBaseUrl, value).Some?
    ensures var cache := st.cache[FrontendBaseUrl := StoredText(env, FrontendBaseUrl, value).value];
      var followed := Followed(env, st, FrontendBaseUrl, value);
      AfterFrontend(env, st, value).value == if followed.None? then cache else cache[CorsOrigins := followed.value]
  {
  }

  /** The whole state after a frontend change. */
  lemma FrontendState(env: Env, st: State, value: string)
    requires EnvOk(env) && Sound(env, st) && Set(env, st, FrontendBaseUrl, value).Ok?
    ensures NewRow(env, st.cache, FrontendBaseUrl, value).Some? && StoredText(env, FrontendBaseUrl, value).Some?
    ensures var row := NewRow(env, st.cache, FrontendBaseUrl, value).value.1;
      var stored := StoredText(env, FrontendBaseUrl, value).value;
      var changed := State(st.table[FrontendBaseUrl := row], st.cache[FrontendBaseUrl := stored]);
      Set(env, st, FrontendBaseUrl, value).value == WithOrigins(changed, Followed(env, st, FrontendBaseUrl, value))
  {
    hide Set, Normalize, NewRow, StoredText, Synced, DependencyOk;
    SetFrontend(env, st, value);
    NewFrontendRow(env, st, value);
    SetRowsFrontend(env, st, value);
    FrontendTexts(env, st, value);
    NewRowStores(env, st.cache, FrontendBaseUrl, value);
    var (text, row) := NewRow(env, st.cache, FrontendBaseUrl, value).value;
    CorsCached(env, st);
    CoupleCases(env, st.table[FrontendBaseUrl := row], StripSlashes(FrontendOf(Effective(env, st.cache).value)), text);
  }

  /** The cache after a set that passes its checks. */
  function AfterSet(env: Env, st: State, key: Key, value: string): Option<map<Key, string>>
    requires Coercible(env, st.cache)
  {
    if !Known(key) then None
    else if key.FrontendBaseUrl? then AfterFrontend(env, st, value)
    else
      match (NewRow(env, st.cache, key, value), StoredText(env, key, value))
      case (Some(_), Some(stored)) => Some(st.cache[key := stored])
      case _ => None
  }

  predicate RowKept(a: map<Key, Row>, b: map<Key, Row>, k: Key) {
    (k in a <==> k in b) && (k in a && k in b ==> a[k] == b[k])
  }

  /** No row changes but that of the key and, where there are new origins, that of the list. */
  ghost predicate OtherRowsKept(a: map<Key, Row>, b: map<Key, Row>, key: Key, origins: Option<string>) {
    forall k :: k != key && (k.CorsOrigins? ==> origins.None?) ==> RowKept(a, b, k)
  }

  lemma OneRowChanges(table: map<Key, Row>, key: Key, row: Row, origins: Option<string>)
    ensures OtherRowsKept(table, table[key := row], key, origins)
  {
  }

  lemma WithOriginsKeeps(st: State, row: Row, stored: string, origins: Option<string>)
    ensures var changed := State(st.table[FrontendBaseUrl := row], st.cache[FrontendBaseUrl := stored]);
      OtherRowsKept(st.table, WithOrigins(changed, origins).table, FrontendBaseUrl, origins)
  {
  }

  /** Setting any key, from a sound state: once the value passes its checks nothing else can fail, and
      nothing changes but the row of that key and a list that follows the frontend URL. */
  lemma SetChanges(env: Env, st: State, key: Key, value: string)
    requires EnvOk(env) && Sound(env, st)
    ensures Set(env, st, key, value).Ok? <==> AfterSet(env, st, key, value).Some?
    ensures Set(env, st, key, value).Ok? ==>
      var now := Set(env, st, key, value).value;
      && Synced(env, now) && DependencyOk(env, now.cache) && Some(now.cache) == AfterSet(env, st, key, value)
      && OtherRowsKept(st.table, now.table, key, Followed(env, st, key, value))
  {
    hide Set, Synced, DependencyOk, NewRow, AfterFrontend, Followed, Coercible, StoredText, Normalize;
    hide Effective, FollowsFrontend, WithOrigins, RowKept;
    if key.FrontendBaseUrl? {
      SetFrontend(env, st, value);
      if Set(env, st, key, value).Ok? {
        FrontendState(env, st, value);
        var row := NewRow(env, st.cache, key, value).value.1;
        WithOriginsKeeps(st, row, StoredText(env, key, value).value, Followed(env, st, key, value));
        FrontendKeepsSound(env, st, value);
      }
    } else if Known(key) {
      SetChangesOneKey(env, st, key, value);
      if Set(env, st, key, value).Ok? {
        var row := NewRow(env, st.cache, key, value).value.1;
        OneRowChanges(st.table, key, row, Followed(env, st, key, value));
      }
    } else {
      SetKnown(env, st, key, value);
    }
  }

  /** The new frontend URL may change the list of origins only in a row that followed it: any other
      stored list is left as it is. */
  lemma DifferingOriginsKept(env: Env, st: State, value: string)
    requires EnvOk(env) && Sound(env, st) && !FollowsFrontend(env, st)
    requires Set(env, st, FrontendBaseUrl, value).Ok?
    ensures var now := Set(env, st, FrontendBaseUrl, value).value;
      CorsOrigins in now.table && now.table[CorsOrigins] == st.table[CorsOrigins]
  {
    SetRowsFrontend(env, st, value);
    var (text, row) := NewRow(env, st.cache, FrontendBaseUrl, value).value;
    CoupleCases(env, st.table[FrontendBaseUrl := row], StripSlashes(FrontendOf(Effective(env, st.cache).value)), text);
  }

  /** Clearing removes exactly one key; whether it succeeds depends on the switches alone. */
  lemma ClearChangesOneKey(env: Env, st: State, key: Key)
    requires Synced(env, st) && Known(key)
    ensures Clear(env, st, key)
       == if DependencyOk(env, st.cache - {key}) then Ok(State(st.table - {key}, st.cache - {key})) else Err
    ensures Clear(env, st, key).Ok? ==> Synced(env, Clear(env, st, key).value)
  {
    LoadRemove(env, st.table, st.cache, key);
  }

  // ----- runs -----

  datatype Operation = SetTo(key: Key, value: string) | ClearOf(key: Key)

  function Attempt(env: Env, st: State, op: Operation): Result<State> {
    match op
    case SetTo(key, value) => Set(env, st, key, value)
    case ClearOf(key) => Clear(env, st, key)
  }

  function After(env: Env, st: State, op: Operation): State {
    match Attempt(env, st, op)
    case Ok(now) => now
    case Err => st
  }

  function Run(env: Env, st: State, ops: seq<Operation>): State {
    if ops == [] then st else After(env, Run(env, st, ops[..|ops| - 1]), ops[|ops| - 1])
  }

  lemma CoercibleUpdate(env: Env, cache: map<Key, string>, key: Key, text: string)
    requires Coercible(env, cache) && Known(key) && Coerce(env, key, text).Some?
    ensures Coercible(env, cache[key := text])
  {
  }

  lemma SetKeepsSound(env: Env, st: State, key: Key, value: string)
    requires EnvOk(env) && Sound(env, st) && Known(key) && !key.FrontendBaseUrl?
    requires Set(env, st, key, value).Ok?
    ensures Sound(env, Set(env, st, key, value).value)
  {
    SetChangesOneKey(env, st, key, value);
    StoredCoerces(env, key, value);
    NewRowStores(env, st.cache, key, value);
    CoercibleUpdate(env, st.cache, key, StoredText(env, key, value).value);
  }

  lemma TextCoerces(env: Env, key: Key, text: string)
    requires Known(key) && (KindOf(key) == UrlKind || KindOf(key) == OriginsKind)
    ensures Coerce(env, key, text) == Some(TextValue(text))
  {
  }

  lemma TextUpdate(env: Env, cache: map<Key, string>, key: Key, text: string)
    requires Coercible(env, cache) && DependencyOk(env, cache)
    requires key == FrontendBaseUrl || key == CorsOrigins
    ensures Coercible(env, cache[key := text]) && DependencyOk(env, cache[key := text])
  {
    UrlKeys();
    TextCoerces(env, key, text);
    CoercibleUpdate(env, cache, key, text);
    OtherKeyUpdate(env, cache, key, text);
  }

  lemma AfterFrontendCoerces(env: Env, st: State, value: string)
    requires Coercible(env, st.cache) && DependencyOk(env, st.cache) && AfterFrontend(env, st, value).Some?
    ensures Coercible(env, AfterFrontend(env, st, value).value)
    ensures DependencyOk(env, AfterFrontend(env, st, value).value)
  {
    var stored := StoredText(env, FrontendBaseUrl, value).value;
    var now := AfterFrontend(env, st, value).value;
    var cache := st.cache[FrontendBaseUrl := stored];
    TextUpdate(env, st.cache, FrontendBaseUrl, stored);
    if now != cache {
      TextUpdate(env, cache, CorsOrigins, now[CorsOrigins]);
    }
  }

  lemma FrontendKeepsSound(env: Env, st: State, value: string)
    requires EnvOk(env) && Sound(env, st)
    requires Set(env, st, FrontendBaseUrl, value).Ok?
    ensures Sound(env, Set(env, st, FrontendBaseUrl, value).value)
  {
    SetFrontend(env, st, value);
    AfterFrontendCoerces(env, st, value);
  }

  lemma OperationKeepsSound(env: Env, st: State, op: Operation)
    requires EnvOk(env) && Sound(env, st)
    ensures Sound(env, After(env, st, op))
  {
    match op
    case SetTo(key, value) =>
      if Set(env, st, key, value).Ok? {
        if key.FrontendBaseUrl? {
          FrontendKeepsSound(env, st, value);
        } else {
          SetKeepsSound(env, st, key, value);
        }
      }
    case ClearOf(key) =>
      if Known(key) {
        ClearChangesOneKey(env, st, key);
      }
  }

  lemma EmptySound(env: Env)
    requires EnvOk(env)
    ensures Sound(env, State(map[], map[]))
  {
    assert Load(env, map[]) == Some(map[]);
  }

  /** Over every run of sets and clears, successful or rejected, from a sound state: the cache is the
      decoded table, the effective settings exist, and Graph delivery is never effective without
      Graph lookup. */
  lemma {:induction false} RunKeepsSound(env: Env, st: State, ops: seq<Operation>)
    requires EnvOk(env) && Sound(env, st)
    ensures var now := Run(env, st, ops);
      && Sound(env, now)
      && Effective(env, now.cache).Some?
      && (IsOn(Effective(env, now.cache).value, GraphDeliveryEnabled)
          ==> IsOn(Effective(env, now.cache).value, GraphLookupEnabled))
  {
    if ops != [] {
      RunKeepsSound(env, st, ops[..|ops| - 1]);
      OperationKeepsSound(env, Run(env, st, ops[..|ops| - 1]), ops[|ops| - 1]);
    }
  }

  // ----- what an operation does to the effective settings -----

  lemma EffectiveAt(env: Env, cache: map<Key, string>, key: Key)
    requires EnvOk(env) && Coercible(env, cache) && Known(key)
    ensures Effective(env, cache).Some? && key in Effective(env, cache).value
    ensures Effective(env, cache).value[key]
         == if key in cache then Coerce(env, key, cache[key]).value else env.base[key]
    ensures Effective(env, cache).value.Keys == env.base.Keys
  {
  }

  lemma EffectiveUpdate(env: Env, cache: map<Key, string>, key: Key, text: string)
    requires EnvOk(env) && Coercible(env, cache) && Known(key) && Coerce(env, key, text).Some?
    ensures Effective(env, cache[key := text])
         == Some(Effective(env, cache).value[key := Coerce(env, key, text).value])
  {
    hide Coerce;
    CoercibleUpdate(env, cache, key, text);
    EffectiveAt(env, cache, key);
    EffectiveAt(env, cache[key := text], key);
    var was, now := Effective(env, cache).value, Effective(env, cache[key := text]).value;
    var v := Coerce(env, key, text).value;
    forall k | k in now ensures now[k] == was[key := v][k] {
      EffectiveAt(env, cache, k);
      EffectiveAt(env, cache[key := text], k);
    }
    assert now == was[key := v];
  }

  lemma EffectiveRemove(env: Env, cache: map<Key, string>, key: Key)
    requires EnvOk(env) && Coercible(env, cache) && Known(key)
    ensures Effective(env, cache - {key}) == Some(Effective(env, cache).value[key := env.base[key]])
  {
    hide Coerce;
    var was, now := Effective(env, cache).value, Effective(env, cache - {key}).value;
    EffectiveAt(env, cache, key);
    EffectiveAt(env, cache - {key}, key);
    forall k | k in now ensures now[k] == was[key := env.base[key]][k] {
      EffectiveAt(env, cache, k);
      EffectiveAt(env, cache - {key}, k);
    }
    assert now == was[key := env.base[key]];
  }

  /** What a submitted text means: the number it reads as, whether it is one of the words for yes,
      or the text as stored. */
  function Meaning(env: Env, key: Key, value: string): Option<Value>
    requires Known(key)
  {
    match KindOf(key)
    case IntKind =>
      (match ParseInt(value, env.maxDigits)
       case Some(n) => Some(IntValue(n))
       case None => None)
    case BoolKind => Some(BoolValue(IsTrueWord(Lower(Trim(value)))))
    case _ =>
      (match StoredText(env, key, value)
       case Some(text) => Some(TextValue(text))
       case None => None)
  }

  lemma StoredMeaning(env: Env, key: Key, value: string)
    requires Known(key) && StoredText(env, key, value).Some?
    ensures Coerce(env, key, StoredText(env, key, value).value) == Meaning(env, key, value)
    ensures KindOf(key) == IntKind ==>
      exists n :: Meaning(env, key, value) == Some(IntValue(n)) && InRange(key, n)
  {
    hide Normalize, Trim, Lower, ParseInt, IsTrueWord;
    StoredCoerces(env, key, value);
    NormalizedCoerces(env, key, value);
  }

  /** After a successful set the key has the submitted value's meaning, and every other effective
      setting is what it was. */
  lemma OtherTakesEffect(env: Env, st: State, key: Key, value: string)
    requires EnvOk(env) && Sound(env, st) && Known(key) && !key.FrontendBaseUrl?
    requires Set(env, st, key, value).Ok?
    ensures Meaning(env, key, value).Some?
    ensures Effective(env, Set(env, st, key, value).value.cache)
         == Some(Effective(env, st.cache).value[key := Meaning(env, key, value).value])
  {
    SetChangesOneKey(env, st, key, value);
    StoredCoerces(env, key, value);
    StoredMeaning(env, key, value);
    EffectiveUpdate(env, st.cache, key, StoredText(env, key, value).value);
  }

  lemma FrontendTakesEffect(env: Env, st: State, value: string)
    requires EnvOk(env) && Sound(env, st) && Set(env, st, FrontendBaseUrl, value).Ok?
    ensures StoredText(env, FrontendBaseUrl, value).Some?
    ensures var url := TextValue(StoredText(env, FrontendBaseUrl, value).value);
      var changed := Effective(env, st.cache).value[FrontendBaseUrl := url];
      Effective(env, Set(env, st, FrontendBaseUrl, value).value.cache)
        == Some(EffectiveWith(changed, Followed(env, st, FrontendBaseUrl, value)))
  {
    hide Set, Followed;
    FrontendState(env, st, value);
    var stored, followed := StoredText(env, FrontendBaseUrl, value).value, Followed(env, st, FrontendBaseUrl, value);
    var cache := st.cache[FrontendBaseUrl := stored];
    UrlKeys();
    TextCoerces(env, FrontendBaseUrl, stored);
    TextUpdate(env, st.cache, FrontendBaseUrl, stored);
    EffectiveUpdate(env, st.cache, FrontendBaseUrl, stored);
    if followed.Some? {
      TextCoerces(env, CorsOrigins, followed.value);
      EffectiveUpdate(env, cache, CorsOrigins, followed.value);
    }
  }

  function EffectiveWith(settings: map<Key, Value>, origins: Option<string>): map<Key, Value> {
    if origins.None? then settings else settings[CorsOrigins := TextValue(origins.value)]
  }

  /** After a successful set the key has the submitted value's meaning, a list that followed the
      frontend URL has its origins, and every other effective setting is what it was. */
  lemma SetTakesEffect(env: Env, st: State, key: Key, value: string)
    requires EnvOk(env) && Sound(env, st) && Set(env, st, key, value).Ok?
    ensures Known(key) && Meaning(env, key, value).Some?
    ensures var changed := Effective(env, st.cache).value[key := Meaning(env, key, value).value];
      Effective(env, Set(env, st, key, value).value.cache)
        == Some(EffectiveWith(changed, Followed(env, st, key, value)))
  {
    hide Set, Sound, Effective;
    SetKnown(env, st, key, value);
    if key.FrontendBaseUrl? {
      UrlKeys();
      FrontendTakesEffect(env, st, value);
    } else {
      OtherTakesEffect(env, st, key, value);
    }
  }

  /** What a setting is when nothing is configured. */
  function Default(key: Key): Value {
    match key
    case WebhookUrlRevealTtlHours => IntValue(24)
    case WebhookMaxPayloadBytes => IntValue(64000)
    case WebhookAbuseFailureLimit => IntValue(10)
    case WebhookAbuseWindowMinutes => IntValue(10)
    case LogRetentionDays => IntValue(7)
    case LogCleanupIntervalMinutes => IntValue(60)
    case EventDebugPreviewsEnabled => BoolValue(false)
    case TrustXForwardedFor => BoolValue(false)
    case SessionSecureCookie => BoolValue(false)
    case CorsOrigins => TextValue("http://localhost:5173,http://localhost")
    case AppPublicBaseUrl => TextValue("http://localhost:8000")
    case FrontendBaseUrl => TextValue("http://localhost:5173")
    case MsAppTenantId => TextValue("")
    case MsAppClientId => TextValue("")
    case MsAppClientSecret => TextValue("")
    case _ => BoolValue(true)
  }

  /** With the built-in defaults the environment is as the other results need it, the empty table is a
      sound start, and every effective setting is its default. */
  lemma DefaultsAreSound(env: Env)
    requires forall key :: key in env.base <==> Known(key)
    requires forall key :: key in env.base ==> env.base[key] == Default(key)
    requires forall x :: env.encrypt(x).Some? ==> env.decrypt(env.encrypt(x).value) == Some(x)
    ensures EnvOk(env) && Sound(env, State(map[], map[])) && Effective(env, map[]) == Some(env.base)
  {
    assert Load(env, map[]) == Some(map[]);
    assert Effective(env, map[]).value == env.base;
  }

  predicate DependencyMet(settings: map<Key, Value>) {
    IsOn(settings, GraphDeliveryEnabled) ==> IsOn(settings, GraphLookupEnabled)
  }

  /** The check on the overrides is the dependency of the effective settings. */
  lemma DependencyIff(env: Env, cache: map<Key, string>)
    requires EnvOk(env) && Coercible(env, cache)
    ensures DependencyOk(env, cache) <==> DependencyMet(Effective(env, cache).value)
  {
    hide Coerce;
    SwitchKeys();
    SwitchIs(env, cache, GraphDeliveryEnabled);
    SwitchIs(env, cache, GraphLookupEnabled);
  }

  lemma SwitchKeys()
    ensures KindOf(GraphDeliveryEnabled) == BoolKind && KindOf(GraphLookupEnabled) == BoolKind
  {
  }

  lemma SwitchIs(env: Env, cache: map<Key, string>, key: Key)
    requires EnvOk(env) && Coercible(env, cache) && (key.GraphDeliveryEnabled? || key.GraphLookupEnabled?)
    ensures Switch(env, cache, key) <==> IsOn(Effective(env, cache).value, key)
  {
    hide Coerce;
    EffectiveAt(env, cache, key);
  }

  /** The text is accepted and can be stored, and with it Graph delivery is not on without lookup. */
  predicate CanSet(env: Env, st: State, key: Key, value: string)
    requires Known(key) && Effective(env, st.cache).Some?
  {
    && StoredText(env, key, value).Some? && Meaning(env, key, value).Some?
    && (key.MsAppClientSecret? ==> env.encrypt(StoredText(env, key, value).value).Some?)
    && DependencyMet(Effective(env, st.cache).value[key := Meaning(env, key, value).value])
  }

  /** A set of any key but the frontend URL succeeds exactly then. */
  lemma SetAccepted(env: Env, st: State, key: Key, value: string)
    requires EnvOk(env) && Sound(env, st) && Known(key) && !key.FrontendBaseUrl?
    ensures Set(env, st, key, value).Ok? <==> CanSet(env, st, key, value)
  {
    hide Set, Coerce, Normalize, Meaning, Load, Effective, DependencyMet, DependencyOk;
    SetChangesOneKey(env, st, key, value);
    if StoredText(env, key, value).Some? {
      var stored := StoredText(env, key, value).value;
      StoredCoerces(env, key, value);
      StoredMeaning(env, key, value);
      CheckedIsStored(env, st.cache, key, value);
      CoercibleUpdate(env, st.cache, key, stored);
      EffectiveUpdate(env, st.cache, key, stored);
      DependencyIff(env, st.cache[key := stored]);
      RowIff(env, st.cache, key, value);
    } else {
      NoRow(env, st.cache, key, value);
    }
  }

  lemma RowIff(env: Env, cache: map<Key, string>, key: Key, value: string)
    requires Known(key) && StoredText(env, key, value).Some?
    ensures NewRow(env, cache, key, value).Some? <==>
      && (key.MsAppClientSecret? ==> env.encrypt(StoredText(env, key, value).value).Some?)
      && DependencyOk(env, cache[key := Normalize(env, key, value).value])
  {
    hide Normalize, DependencyOk;
  }

  lemma NoRow(env: Env, cache: map<Key, string>, key: Key, value: string)
    requires StoredText(env, key, value).None?
    ensures NewRow(env, cache, key, value).None?
  {
    hide Normalize, DependencyOk;
  }

  /** The client secret is stored trimmed and encrypted, in a row marked as secret; every other key is
      stored as its normalized text, in a row that is not. */
  lemma SecretStored(env: Env, st: State, key: Key, value: string)
    requires EnvOk(env) && Sound(env, st) && Known(key) && !key.FrontendBaseUrl? && Set(env, st, key, value).Ok?
    ensures StoredText(env, key, value).Some?
    ensures var table, text := Set(env, st, key, value).value.table, StoredText(env, key, value).value;
      && key in table
      && (if key.MsAppClientSecret? then
            text == Trim(value) && env.encrypt(text).Some? && table[key] == Row(env.encrypt(text).value, true)
          else table[key] == Row(text, false))
  {
    hide Set, Load, DependencyOk, Normalize;
    SetChangesOneKey(env, st, key, value);
    RowHolds(env, st.cache, key, value);
    if key.MsAppClientSecret? {
      SecretText(env, value);
    }
  }

  lemma RowHolds(env: Env, cache: map<Key, string>, key: Key, value: string)
    requires NewRow(env, cache, key, value).Some?
    ensures StoredText(env, key, value).Some?
    ensures var row, text := NewRow(env, cache, key, value).value.1, StoredText(env, key, value).value;
      if key.MsAppClientSecret? then env.encrypt(text).Some? && row == Row(env.encrypt(text).value, true)
      else row == Row(text, false)
  {
    hide Normalize, DependencyOk;
  }

  lemma SecretText(env: Env, value: string)
    ensures StoredText(env, MsAppClientSecret, value).Some? ==>
      StoredText(env, MsAppClientSecret, value).value == Trim(value)
  {
    hide Trim, NormalizeUrl, NormalizeCors, NormalizeInt, NormalizeBool;
    TrimAgain(value);
  }

  /** A successful clear brings the environment's value back, or the default of an application
      setting. */
  lemma ClearTakesEffect(env: Env, st: State, key: Key)
    requires EnvOk(env) && Sound(env, st) && Clear(env, st, key).Ok?
    ensures Known(key)
    ensures Effective(env, Clear(env, st, key).value.cache)
         == Some(Effective(env, st.cache).value[key := env.base[key]])
  {
    ClearChangesOneKey(env, st, key);
    EffectiveRemove(env, st.cache, key);
  }

  lemma AddRemove<K, V>(m: map<K, V>, k: K, v: V)
    requires k !in m
    ensures m[k := v] - {k} == m
  {
  }

  /** Clearing undoes setting a key that had no row. */
  lemma ClearUndoesOther(env: Env, st: State, key: Key, value: string)
    requires EnvOk(env) && Sound(env, st) && Known(key) && !key.FrontendBaseUrl?
    requires key !in st.table && Set(env, st, key, value).Ok?
    ensures Clear(env, Set(env, st, key, value).value, key) == Ok(st)
  {
    var now := Set(env, st, key, value).value;
    SetChangesOneKey(env, st, key, value);
    ClearChangesOneKey(env, now, key);
    AddRemove(st.cache, key, StoredText(env, key, value).value);
    AddRemove(st.table, key, NewRow(env, st.cache, key, value).value.1);
  }

  lemma ClearUndoesFrontend(env: Env, st: State, value: string)
    requires EnvOk(env) && Sound(env, st) && FrontendBaseUrl !in st.table
    requires Set(env, st, FrontendBaseUrl, value).Ok?
    ensures var cleared := Clear(env, Set(env, st, FrontendBaseUrl, value).value, FrontendBaseUrl);
      cleared == Ok(WithOrigins(st, Followed(env, st, FrontendBaseUrl, value)))
  {
    hide Set, Clear, Followed, NewRow, StoredText, WithOrigins, Effective, FollowsFrontend;
    FrontendState(env, st, value);
    FrontendKeepsSound(env, st, value);
    ClearAlways(env, Set(env, st, FrontendBaseUrl, value).value);
    var row := NewRow(env, st.cache, FrontendBaseUrl, value).value.1;
    var stored := StoredText(env, FrontendBaseUrl, value).value;
    RemovedAgain(st, row, stored, Followed(env, st, FrontendBaseUrl, value));
  }

  lemma RemovedAgain(st: State, row: Row, stored: string, origins: Option<string>)
    requires FrontendBaseUrl !in st.table && FrontendBaseUrl !in st.cache
    ensures var changed := State(st.table[FrontendBaseUrl := row], st.cache[FrontendBaseUrl := stored]);
      var now := WithOrigins(changed, origins);
      State(now.table - {FrontendBaseUrl}, now.cache - {FrontendBaseUrl}) == WithOrigins(st, origins)
  {
    AddRemove(st.table, FrontendBaseUrl, row);
    AddRemove(st.cache, FrontendBaseUrl, stored);
    if origins.Some? {
      AddRemoveOther(st.table, FrontendBaseUrl, row, CorsOrigins, Row(origins.value, false));
      AddRemoveOther(st.cache, FrontendBaseUrl, stored, CorsOrigins, origins.value);
    }
  }

  lemma ClearAlways(env: Env, st: State)
    requires EnvOk(env) && Sound(env, st)
    ensures Clear(env, st, FrontendBaseUrl) == Ok(State(st.table - {FrontendBaseUrl}, st.cache - {FrontendBaseUrl}))
  {
    SameSwitches(env, st.cache, st.cache - {FrontendBaseUrl});
    ClearChangesOneKey(env, st, FrontendBaseUrl);
  }

  lemma AddRemoveOther<K, V>(m: map<K, V>, k: K, v: V, l: K, w: V)
    requires k !in m && k != l
    ensures m[k := v][l := w] - {k} == m[l := w]
  {
  }

  /** Clearing undoes setting a key that had no row, but for a list that followed the frontend URL. */
  lemma ClearUndoesSet(env: Env, st: State, key: Key, value: string)
    requires EnvOk(env) && Sound(env, st) && key !in st.table && Set(env, st, key, value).Ok?
    ensures Clear(env, Set(env, st, key, value).value, key) == Ok(WithOrigins(st, Followed(env, st, key, value)))
  {
    hide Set, Clear, Sound;
    SetKnown(env, st, key, value);
    if key.FrontendBaseUrl? {
      ClearUndoesFrontend(env, st, value);
    } else {
      ClearUndoesOther(env, st, key, value);
    }
  }

  // ----- the CORS origins follow the frontend URL -----

  function BareUrl(value: string): string {
    StripSlashes(Trim(value))
  }

  lemma StoredUrl(env: Env, value: string, u: string)
    requires NormalizeUrl(env.hostOk, Trim(value)) == Some(u)
    requires Trim(u) == u && NormalizeUrl(env.hostOk, u) == Some(u)
    ensures Normalize(env, FrontendBaseUrl, value) == Some(u)
    ensures StoredText(env, FrontendBaseUrl, value) == Some(u)
    ensures Normalize(env, CorsOrigins, u) == NormalizeCors(env.hostOk, u)
  {
    UrlKeys();
    NormalizeUrlKinds(env, FrontendBaseUrl, value);
    NormalizeUrlKinds(env, FrontendBaseUrl, u);
    NormalizeUrlKinds(env, CorsOrigins, u);
  }

  lemma PlainStored(env: Env, value: string)
    requires PlainOrigin(env.hostOk, BareUrl(value))
    ensures Normalize(env, FrontendBaseUrl, value) == Some(BareUrl(value))
    ensures StoredText(env, FrontendBaseUrl, value) == Some(BareUrl(value))
    ensures Normalize(env, CorsOrigins, BareUrl(value)) == Some(BareUrl(value))
  {
    PlainAfterStrip(env.hostOk, Trim(value));
    PlainIsFixed(env.hostOk, BareUrl(value));
    StoredUrl(env, value, BareUrl(value));
  }

  /** Both rows hold the same plain origin. */
  predicate Tracks(env: Env, cache: map<Key, string>) {
    && FrontendBaseUrl in cache && CorsOrigins in cache
    && cache[CorsOrigins] == cache[FrontendBaseUrl]
    && PlainOrigin(env.hostOk, cache[FrontendBaseUrl])
  }

  lemma CachedFrontend(env: Env, cache: map<Key, string>)
    requires EnvOk(env) && Coercible(env, cache) && FrontendBaseUrl in cache
    ensures FrontendOf(Effective(env, cache).value) == cache[FrontendBaseUrl]
  {
    UrlKeys();
    EffectiveAt(env, cache, FrontendBaseUrl);
    TextCoerces(env, FrontendBaseUrl, cache[FrontendBaseUrl]);
  }

  /** The cache after a URL accepted by both passes, whose origins are accepted. */
  lemma FrontendStored(env: Env, st: State, value: string, text: string, stored: string, origins: string)
    requires EnvOk(env) && Sound(env, st) && FollowsFrontend(env, st)
    requires Normalize(env, FrontendBaseUrl, value) == Some(text)
    requires StoredText(env, FrontendBaseUrl, value) == Some(stored)
    requires Normalize(env, CorsOrigins, text) == Some(origins)
    ensures Set(env, st, FrontendBaseUrl, value).Ok?
    ensures Set(env, st, FrontendBaseUrl, value).value.cache
         == st.cache[FrontendBaseUrl := stored][CorsOrigins := origins]
  {
    SetFrontend(env, st, value);
  }

  lemma TracksFollows(env: Env, st: State)
    requires EnvOk(env) && Sound(env, st)
    requires CorsOrigins !in st.cache || Tracks(env, st.cache)
    ensures FollowsFrontend(env, st)
  {
    if CorsOrigins in st.cache {
      CachedFrontend(env, st.cache);
      PlainIsFixed(env.hostOk, st.cache[FrontendBaseUrl]);
    }
  }

  /** One plain frontend change always succeeds from such a state, and both rows become it. */
  lemma PlainFrontendStep(env: Env, st: State, value: string)
    requires EnvOk(env) && Sound(env, st) && PlainOrigin(env.hostOk, BareUrl(value))
    requires CorsOrigins !in st.cache || Tracks(env, st.cache)
    ensures Set(env, st, FrontendBaseUrl, value).Ok?
    ensures Set(env, st, FrontendBaseUrl, value).value.cache
         == st.cache[FrontendBaseUrl := BareUrl(value)][CorsOrigins := BareUrl(value)]
  {
    PlainStored(env, value);
    TracksFollows(env, st);
    FrontendStored(env, st, value, BareUrl(value), BareUrl(value), BareUrl(value));
  }

  /** Operations that change the frontend URL to plain origins only and leave the list alone. */
  predicate PlainOnly(env: Env, op: Operation) {
    match op
    case SetTo(key, value) => !key.CorsOrigins? && (key.FrontendBaseUrl? ==> PlainOrigin(env.hostOk, BareUrl(value)))
    case ClearOf(key) => !key.CorsOrigins? && !key.FrontendBaseUrl?
  }

  function LastFrontend(ops: seq<Operation>): Option<string> {
    if ops == [] then None
    else
      var op := ops[|ops| - 1];
      if op.SetTo? && op.key.FrontendBaseUrl? then Some(BareUrl(op.value)) else LastFrontend(ops[..|ops| - 1])
  }

  /** Both caches have the same frontend URL and the same list, or lack the same of them. */
  predicate SameUrls(a: map<Key, string>, b: map<Key, string>) {
    && (FrontendBaseUrl in a <==> FrontendBaseUrl in b)
    && (CorsOrigins in a <==> CorsOrigins in b)
    && (FrontendBaseUrl in a && FrontendBaseUrl in b ==> a[FrontendBaseUrl] == b[FrontendBaseUrl])
    && (CorsOrigins in a && CorsOrigins in b ==> a[CorsOrigins] == b[CorsOrigins])
  }

  lemma SetLeavesBoth(env: Env, st: State, key: Key, value: string)
    requires EnvOk(env) && Synced(env, st) && !key.CorsOrigins? && !key.FrontendBaseUrl?
    requires Known(key) && Set(env, st, key, value).Ok?
    ensures SameUrls(st.cache, Set(env, st, key, value).value.cache)
  {
    hide Set, Synced, StoredText, NewRow, DependencyOk;
    SetChangesOneKey(env, st, key, value);
  }

  lemma ClearLeavesBoth(env: Env, st: State, key: Key)
    requires Synced(env, st) && !key.CorsOrigins? && !key.FrontendBaseUrl?
    requires Known(key) && Clear(env, st, key).Ok?
    ensures SameUrls(st.cache, Clear(env, st, key).value.cache)
  {
    hide Clear, Synced, DependencyOk;
    ClearChangesOneKey(env, st, key);
  }

  lemma SetKnown(env: Env, st: State, key: Key, value: string)
    ensures Set(env, st, key, value).Ok? ==> Known(key)
    ensures Clear(env, st, key).Ok? ==> Known(key)
  {
  }

  lemma OthersLeaveBoth(env: Env, st: State, op: Operation)
    requires EnvOk(env) && Synced(env, st) && !op.key.CorsOrigins? && !op.key.FrontendBaseUrl?
    ensures SameUrls(st.cache, After(env, st, op).cache)
  {
    hide Set, Clear, Synced;
    match op
    case SetTo(key, value) =>
      SetKnown(env, st, key, value);
      if Set(env, st, key, value).Ok? {
        SetLeavesBoth(env, st, key, value);
      }
    case ClearOf(key) =>
      SetKnown(env, st, key, "");
      if Clear(env, st, key).Ok? {
        ClearLeavesBoth(env, st, key);
      }
  }

  predicate FollowsLast(env: Env, cache: map<Key, string>, last: Option<string>) {
    match last
    case Some(u) => Tracks(env, cache) && cache[FrontendBaseUrl] == u
    case None => CorsOrigins !in cache
  }

  lemma FollowsLastStep(env: Env, st: State, op: Operation, last: Option<string>)
    requires EnvOk(env) && Sound(env, st) && PlainOnly(env, op)
    requires FollowsLast(env, st.cache, last)
    ensures FollowsLast(env, After(env, st, op).cache,
                        if op.SetTo? && op.key.FrontendBaseUrl? then Some(BareUrl(op.value)) else last)
  {
    if op.SetTo? && op.key.FrontendBaseUrl? {
      PlainFrontendStep(env, st, op.value);
      PlainTracks(env, st.cache, BareUrl(op.value));
    } else {
      OthersLeaveBoth(env, st, op);
    }
  }

  lemma PlainTracks(env: Env, cache: map<Key, string>, u: string)
    requires PlainOrigin(env.hostOk, u)
    ensures FollowsLast(env, cache[FrontendBaseUrl := u][CorsOrigins := u], Some(u))
  {
    TwoUpdates(cache, u, u);
  }

  /** Starting without a CORS row, along any run that sets the frontend URL to plain origins and does
      anything to the other settings, the stored CORS list is exactly the current frontend URL. */
  lemma {:induction false} OriginsFollowFrontend(env: Env, st: State, ops: seq<Operation>)
    requires EnvOk(env) && Sound(env, st) && CorsOrigins !in st.cache
    requires forall i :: 0 <= i < |ops| ==> PlainOnly(env, ops[i])
    ensures FollowsLast(env, Run(env, st, ops).cache, LastFrontend(ops))
  {
    if ops != [] {
      var init := ops[..|ops| - 1];
      OriginsFollowFrontend(env, st, init);
      RunKeepsSound(env, st, init);
      FollowsLastStep(env, Run(env, st, init), ops[|ops| - 1], LastFrontend(init));
    }
  }

  lemma TrackedEffective(env: Env, cache: map<Key, string>)
    requires EnvOk(env) && Coercible(env, cache) && Tracks(env, cache)
    ensures Effective(env, cache).Some?
    ensures FrontendBaseUrl in Effective(env, cache).value && CorsOrigins in Effective(env, cache).value
    ensures Effective(env, cache).value[CorsOrigins] == Effective(env, cache).value[FrontendBaseUrl]
         == TextValue(cache[FrontendBaseUrl])
  {
    UrlKeys();
    EffectiveAt(env, cache, FrontendBaseUrl);
    EffectiveAt(env, cache, CorsOrigins);
    TextCoerces(env, FrontendBaseUrl, cache[FrontendBaseUrl]);
    TextCoerces(env, CorsOrigins, cache[CorsOrigins]);
  }

  /** So the effective CORS list is always exactly the effective frontend URL, the last one set. */
  lemma EffectiveOriginsFollow(env: Env, st: State, ops: seq<Operation>)
    requires EnvOk(env) && Sound(env, st) && CorsOrigins !in st.cache
    requires forall i :: 0 <= i < |ops| ==> PlainOnly(env, ops[i])
    requires LastFrontend(ops).Some?
    ensures var effective := Effective(env, Run(env, st, ops).cache);
      && effective.Some?
      && effective.value[FrontendBaseUrl] == TextValue(LastFrontend(ops).value)
      && effective.value[CorsOrigins] == TextValue(LastFrontend(ops).value)
  {
    OriginsFollowFrontend(env, st, ops);
    RunKeepsSound(env, st, ops);
    TrackedEffective(env, Run(env, st, ops).cache);
  }

  /** The two texts a frontend change stores: the URL, and its origins. */
  lemma FrontendParts(env: Env, value: string, text: string)
    requires Normalize(env, FrontendBaseUrl, value) == Some(text)
    ensures text == BareUrl(value)
    ensures StoredText(env, FrontendBaseUrl, value).Some? ==>
      StoredText(env, FrontendBaseUrl, value) == Some(StripSlashes(Trim(text)))
    ensures Normalize(env, CorsOrigins, text) == NormalizeCors(env.hostOk, Trim(text))
  {
    hide NormalizeCors;
    UrlKeys();
    NormalizeUrlKinds(env, FrontendBaseUrl, value);
    NormalizeUrlKinds(env, FrontendBaseUrl, text);
    NormalizeUrlKinds(env, CorsOrigins, text);
    UrlIsStripped(env.hostOk, Trim(value));
    UrlIsStripped(env.hostOk, Trim(text));
  }

  lemma UrlIsStripped(hostOk: string -> bool, raw: string)
    ensures NormalizeUrl(hostOk, raw).Some? ==> NormalizeUrl(hostOk, raw) == Some(StripSlashes(raw))
  {
  }

  /** The first frontend change writes the stored URL itself as CORS list exactly when the written URL,
      without its trailing slashes and the blanks before them, is a plain origin, or several with commas
      between them, but for blanks and one slash at the end of the last. */
  lemma FirstOriginsIffPlain(env: Env, st: State, value: string)
    requires EnvOk(env) && Sound(env, st) && CorsOrigins !in st.cache
    requires Set(env, st, FrontendBaseUrl, value).Ok?
    ensures var now := Set(env, st, FrontendBaseUrl, value).value.cache;
      && FrontendBaseUrl in now && CorsOrigins in now
      && (now[CorsOrigins] == now[FrontendBaseUrl] <==> PlainBeforeSlash(env.hostOk, Trim(BareUrl(value))))
  {
    hide Set, NormalizeCors, PlainBeforeSlash, Sound, StripSlashes;
    var w := Trim(BareUrl(value));
    FirstOrigins(env, st, value);
    TrimFixes(BareUrl(value));
    CorsCopiesStrippedIff(env.hostOk, w);
    TwoUpdates(st.cache, StripSlashes(w), NormalizeCors(env.hostOk, w).value);
  }

  lemma FirstOrigins(env: Env, st: State, value: string)
    requires EnvOk(env) && Sound(env, st) && CorsOrigins !in st.cache
    requires Set(env, st, FrontendBaseUrl, value).Ok?
    ensures var w := Trim(BareUrl(value));
      && NormalizeCors(env.hostOk, w).Some?
      && Set(env, st, FrontendBaseUrl, value).value.cache
           == st.cache[FrontendBaseUrl := StripSlashes(w)][CorsOrigins := NormalizeCors(env.hostOk, w).value]
  {
    hide Set, Normalize, NormalizeCors, Trim, StripSlashes;
    TracksFollows(env, st);
    SetFrontend(env, st, value);
    var text := Normalize(env, FrontendBaseUrl, value).value;
    FrontendParts(env, value, text);
    var stored, origins := StripSlashes(Trim(text)), NormalizeCors(env.hostOk, Trim(text)).value;
    FrontendStored(env, st, value, text, stored, origins);
  }

  lemma DifferentOrigins(env: Env, st: State, u: string, origin: string)
    requires EnvOk(env) && Coercible(env, st.cache) && StripSlashes(u) == u && origin != u
    requires FrontendBaseUrl in st.cache && st.cache[FrontendBaseUrl] == u
    requires CorsOrigins in st.cache && st.cache[CorsOrigins] == origin
    ensures !FollowsFrontend(env, st)
  {
    CachedFrontend(env, st.cache);
  }

  /** A frontend URL whose origin is another text ends up beside a list that does not follow it. */
  lemma OtherOriginDecouples(env: Env, st: State, u: string, origin: string)
    requires EnvOk(env) && Sound(env, st) && CorsOrigins !in st.cache
    requires Trim(u) == u && StripSlashes(u) == u && NormalizeUrl(env.hostOk, u) == Some(u)
    requires NormalizeCors(env.hostOk, u) == Some(origin) && origin != u
    ensures Set(env, st, FrontendBaseUrl, u).Ok?
    ensures var now := Set(env, st, FrontendBaseUrl, u).value;
      && now.cache == st.cache[FrontendBaseUrl := u][CorsOrigins := origin]
      && Sound(env, now) && !FollowsFrontend(env, now)
  {
    StoredUrl(env, u, u);
    TracksFollows(env, st);
    FrontendStored(env, st, u, u, u, origin);
    FrontendKeepsSound(env, st, u);
    var now := Set(env, st, FrontendBaseUrl, u).value;
    TwoUpdates(st.cache, u, origin);
    DifferentOrigins(env, now, u, origin);
  }

  lemma TwoUpdates(cache: map<Key, string>, u: string, origin: string)
    ensures var now := cache[FrontendBaseUrl := u][CorsOrigins := origin];
      && FrontendBaseUrl in now && now[FrontendBaseUrl] == u
      && CorsOrigins in now && now[CorsOrigins] == origin
  {
  }

  /** A frontend URL whose scheme has capitals decouples the list: the list is lower-case, so it
      differs from the URL, and the next frontend change leaves it alone. */
  lemma CapitalSchemeDecouples(env: Env, st: State, scheme: string, host: string)
    requires EnvOk(env) && Sound(env, st) && CorsOrigins !in st.cache
    requires IsHttpScheme(Lower(scheme)) && Lower(scheme) != scheme
    requires IsPlainHost(host) && env.hostOk(host)
    ensures Set(env, st, FrontendBaseUrl, scheme + MARK + host).Ok?
    ensures var now := Set(env, st, FrontendBaseUrl, scheme + MARK + host).value;
      && Sound(env, now) && !FollowsFrontend(env, now)
  {
    CapitalScheme(env.hostOk, scheme, host);
    OtherOriginDecouples(env, st, scheme + MARK + host, Lower(scheme) + MARK + host);
  }
}
