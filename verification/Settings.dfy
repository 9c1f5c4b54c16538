/** Stored settings, the process-wide cache of them, and the effective settings: what setting and
    clearing one keeps. One process, one request at a time; a failed request leaves the session
    rolled back. */
module Settings {
  import opened Text
  import opened Integers
  import opened AddressLists
  import opened Urls
  import opened SettingValues

  datatype Row = Row(value: string, isSecret: bool)

  datatype State = State(table: map<Key, Row>, cache: map<Key, string>)

  predicate IsSecret(key: Key) {
    key.MsAppClientSecret?
  }

  function StoredValue(env: Env, row: Row): Option<string> {
    if row.isSecret then env.decrypt(row.value) else Some(row.value)
  }

  predicate Readable(env: Env, table: map<Key, Row>) {
    forall k :: k in table && Known(k) ==> StoredValue(env, table[k]).Some?
  }

  /** `load_overrides`: the decoded rows of known keys, or nothing when one cannot be decrypted. */
  function Load(env: Env, table: map<Key, Row>): Option<map<Key, string>> {
    if Readable(env, table)
    then Some(map k | k in table && Known(k) :: StoredValue(env, table[k]).value)
    else None
  }

  /** A switch counts as on when there is no override of it. */
  predicate Switch(env: Env, cache: map<Key, string>, key: Key)
    requires Known(key)
  {
    key in cache ==> Coerce(env, key, cache[key]) == Some(BoolValue(true))
  }

  /** `_validate_feature_dependency`. */
  predicate DependencyOk(env: Env, cache: map<Key, string>) {
    Switch(env, cache, GraphDeliveryEnabled) ==> Switch(env, cache, GraphLookupEnabled)
  }

  predicate Coercible(env: Env, cache: map<Key, string>) {
    forall k :: k in cache ==> Known(k) && Coerce(env, k, cache[k]).Some?
  }

  /** `get_effective_settings`: nothing when a cached value does not coerce. */
  function Effective(env: Env, cache: map<Key, string>): Option<map<Key, Value>> {
    if Coercible(env, cache)
    then Some(map k | k in env.base :: if k in cache then Coerce(env, k, cache[k]).value else env.base[k])
    else None
  }

  /** The environment has a value of the right type for every known key, the application settings
      start from their defaults, and the cipher decrypts what it encrypted. */
  ghost predicate EnvOk(env: Env) {
    && (forall k :: k in env.base <==> Known(k))
    && (forall k :: k in env.base ==> HasType(k, env.base[k]))
    && env.base[BotFrameworkEnabled] == BoolValue(true)
    && env.base[GraphLookupEnabled] == BoolValue(true)
    && env.base[GraphDeliveryEnabled] == BoolValue(true)
    && env.base[WebhookUrlRevealTtlHours] == IntValue(24)
    && (forall x :: env.encrypt(x).Some? ==> env.decrypt(env.encrypt(x).value) == Some(x))
  }

  /** `_serialize_for_storage`, which normalizes once more. */
  function Serialize(env: Env, key: Key, value: string): Option<string> {
    match Normalize(env, key, value)
    case Some(text) => if IsSecret(key) then env.encrypt(text) else Some(text)
    case None => None
  }

  /** The CORS row follows the frontend URL when there is none yet, or when it equals the previous
      frontend URL. */
  function Couple(env: Env, table: map<Key, Row>, previous: string, frontend: string): Option<map<Key, Row>> {
    var stored := if CorsOrigins in table then StoredValue(env, table[CorsOrigins]) else Some("");
    if stored.None? then None
    else if CorsOrigins in table && stored.value != previous then Some(table)
    else
      match Serialize(env, CorsOrigins, frontend)
      case Some(text) =>
        Some(table[CorsOrigins := Row(text, CorsOrigins in table && table[CorsOrigins].isSecret)])
      case None => None
  }

  function FrontendOf(effective: map<Key, Value>): string {
    if FrontendBaseUrl in effective && effective[FrontendBaseUrl].TextValue?
    then effective[FrontendBaseUrl].text
    else ""
  }

  function Reload(env: Env, table: map<Key, Row>): Result<State> {
    match Load(env, table)
    case Some(cache) => Ok(State(table, cache))
    case None => Err
  }

  /** The row for a submitted value and the once-normalized text that was checked. */
  function NewRow(env: Env, cache: map<Key, string>, key: Key, value: string): Option<(string, Row)> {
    match Normalize(env, key, value)
    case None => None
    case Some(text) =>
      match Serialize(env, key, text)
      case None => None
      case Some(stored) =>
        if DependencyOk(env, cache[key := text]) then Some((text, Row(stored, IsSecret(key)))) else None
  }

  /** The rows `set_override` writes, or nothing when it rejects the value. */
  function SetRows(env: Env, st: State, key: Key, value: string): Option<map<Key, Row>> {
    var effective := Effective(env, st.cache);
    if !Known(key) || (key.FrontendBaseUrl? && effective.None?) then None
    else
      match NewRow(env, st.cache, key, value)
      case None => None
      case Some((text, row)) =>
        var table := st.table[key := row];
        if key.FrontendBaseUrl?
        then Couple(env, table, StripSlashes(FrontendOf(effective.value)), text)
        else Some(table)
  }

  /** `set_override`: the new state, or an error that leaves everything as it was. */
  function Set(env: Env, st: State, key: Key, value: string): Result<State> {
    match SetRows(env, st, key, value)
    case Some(rows) => Reload(env, rows)
    case None => Err
  }

  /** `clear_override`. */
  function Clear(env: Env, st: State, key: Key): Result<State> {
    if !Known(key) || !DependencyOk(env, st.cache - {key}) then Err
    else Reload(env, st.table - {key})
  }

  /** `settings` is the environment with the cached values of the keys in `done` put over it. */
  ghost predicate Applied(env: Env, cache: map<Key, string>, done: set<Key>, settings: map<Key, Value>) {
    && settings.Keys == env.base.Keys
    && (forall k :: k in cache && k in done ==> Known(k) && Coerce(env, k, cache[k]).Some?)
    && (forall k :: k in env.base && !(k in cache && k in done) ==> settings[k] == env.base[k])
    && (forall k :: k in env.base && k in cache && k in done ==> Coerce(env, k, cache[k]) == Some(settings[k]))
  }

  lemma NotCoercible(env: Env, cache: map<Key, string>)
    requires !Coercible(env, cache)
    ensures Effective(env, cache) == None
  {
  }

  lemma AppliedNone(env: Env, cache: map<Key, string>)
    ensures Applied(env, cache, {}, env.base)
  {
  }

  lemma AppliedSkip(env: Env, cache: map<Key, string>, done: set<Key>, settings: map<Key, Value>, key: Key)
    requires Applied(env, cache, done, settings) && key !in cache
    ensures Applied(env, cache, done + {key}, settings)
  {
    hide Coerce;
  }

  lemma AppliedTake(env: Env, cache: map<Key, string>, done: set<Key>, settings: map<Key, Value>, key: Key, v: Value)
    requires Applied(env, cache, done, settings) && key in env.base && Known(key)
    requires key in cache && Coerce(env, key, cache[key]) == Some(v)
    ensures Applied(env, cache, done + {key}, settings[key := v])
  {
    hide Coerce;
    forall k | k in env.base && k in cache && k in done + {key}
      ensures Coerce(env, k, cache[k]) == Some(settings[key := v][k])
    {
    }
  }

  function Features(): set<Key> {
    {BotFrameworkEnabled, GraphLookupEnabled, GraphDeliveryEnabled, WebhookUrlRevealTtlHours}
  }

  lemma AppliedAll(env: Env, cache: map<Key, string>, done: set<Key>, settings: map<Key, Value>)
    requires EnvOk(env) && Applied(env, cache, done, settings)
    requires forall k :: k in cache ==> Known(k) && k in done
    ensures Effective(env, cache) == Some(settings)
  {
    hide Coerce;
    assert Coercible(env, cache);
    var effective := Effective(env, cache).value;
    assert effective.Keys == settings.Keys;
    forall k | k in settings ensures settings[k] == effective[k] {
      assert k in cache ==> k in done;
    }
    assert effective == settings;
  }

  // ----- the program: rows behind a database session, and the cache of the process -----

  class SettingsStore {
    const env: Env
    var rows: map<Key, Row>
    var cache: map<Key, string>

    constructor (env: Env)
      ensures this.env == env && rows == map[] && cache == map[]
    {
      this.env := env;
      rows, cache := map[], map[];
    }

    function View(): State
      reads this
    {
      State(rows, cache)
    }

    method LoadOverrides() returns (ok: bool)
      modifies this`cache
      ensures ok == Load(env, rows).Some?
      ensures cache == if ok then Load(env, rows).value else old(cache)
    {
      var loaded: map<Key, string> := map[];
      var todo := rows.Keys;
      while todo != {}
        invariant todo <= rows.Keys
        invariant forall k :: k in loaded <==> k in rows && k !in todo && Known(k)
        invariant forall k :: k in loaded ==> StoredValue(env, rows[k]) == Some(loaded[k])
        decreases |todo|
      {
        var key :| key in todo;
        todo := todo - {key};
        if !Known(key) {
          continue;
        }
        var value := StoredValue(env, rows[key]);
        if value.None? {
          return false;
        }
        loaded := loaded[key := value.value];
      }
      assert loaded == Load(env, rows).value;
      cache := loaded;
      ok := true;
    }

    method GetEffectiveSettings() returns (r: Option<map<Key, Value>>)
      requires EnvOk(env)
      requires forall k :: k in cache ==> Known(k)
      ensures r == Effective(env, cache)
    {
      hide Applied, Coerce, Effective;
      var cached := cache;
      AppliedNone(env, cached);
      if cached == map[] {
        AppliedAll(env, cached, {}, env.base);
        return Some(env.base);
      }
      var environment := set k | k in cached && Overridable(k);
      var features := Features();
      r := UpdateFrom(cached, environment, {}, env.base);
      assert {} + environment == environment;
      if r.None? {
        NotCoercible(env, cached);
      } else {
        r := UpdateFrom(cached, features, environment, r.value);
        if r.Some? {
          AppliedAll(env, cached, environment + features, r.value);
        } else {
          NotCoercible(env, cached);
        }
      }
    }

    /** Takes the cached values of `keys` over into `settings`. */
    method UpdateFrom(cached: map<Key, string>, keys: set<Key>, ghost done: set<Key>, settings: map<Key, Value>)
      returns (r: Option<map<Key, Value>>)
      requires EnvOk(env) && forall k :: k in keys ==> Known(k)
      requires Applied(env, cached, done, settings)
      ensures r.None? ==> !Coercible(env, cached)
      ensures r.Some? ==> Applied(env, cached, done + keys, r.value)
    {
      hide Coerce, Applied;
      var effective, todo := settings, keys;
      ghost var sofar := done;
      while todo != {}
        invariant todo <= keys && sofar + todo == done + keys
        invariant Applied(env, cached, sofar, effective)
        decreases |todo|
      {
        var key :| key in todo;
        todo := todo - {key};
        if key in cached {
          var value := Coerce(env, key, cached[key]);
          if value.None? {
            return None;
          }
          AppliedTake(env, cached, sofar, effective, key, value.value);
          effective := effective[key := value.value];
        } else {
          AppliedSkip(env, cached, sofar, effective, key);
        }
        sofar := sofar + {key};
      }
      assert sofar == done + keys;
      r := Some(effective);
    }

    method SetOverride(key: Key, value: string) returns (ok: bool)
      requires EnvOk(env)
      requires forall k :: k in cache ==> Known(k)
      modifies this
      ensures ok == Set(env, old(View()), key, value).Ok?
      ensures View() == if ok then Set(env, old(View()), key, value).value else old(View())
    {
      var before := rows;
      ok := WriteRows(key, value);
      if ok {
        ok := LoadOverrides();
      }
      if !ok {
        rows := before;
      }
    }

    /** Up to the flush. */
    method WriteRows(key: Key, value: string) returns (ok: bool)
      requires EnvOk(env)
      requires forall k :: k in cache ==> Known(k)
      modifies this`rows
      ensures ok == SetRows(env, old(View()), key, value).Some?
      ensures ok ==> rows == SetRows(env, old(View()), key, value).value
    {
      hide NewRow, Couple, Effective;
      if !Known(key) {
        return false;
      }
      var previous := "";
      if key == FrontendBaseUrl {
        var effective := GetEffectiveSettings();
        if effective.None? {
          return false;
        }
        previous := StripSlashes(FrontendOf(effective.value));
      }
      var written := ValidRow(key, value);
      if written.None? {
        return false;
      }
      var (text, row) := written.value;
      rows := rows[key := row];
      ok := true;
      if key == FrontendBaseUrl {
        ok := CoupleCors(previous, text);
      }
    }

    method ValidRow(key: Key, value: string) returns (r: Option<(string, Row)>)
      requires Known(key)
      ensures r == NewRow(env, cache, key, value)
    {
      var text := Normalize(env, key, value);
      if text.None? {
        return None;
      }
      var stored := Serialize(env, key, text.value);
      if stored.None? || !DependencyOk(env, cache[key := text.value]) {
        return None;
      }
      r := Some((text.value, Row(stored.value, IsSecret(key))));
    }

    method CoupleCors(previous: string, frontend: string) returns (ok: bool)
      modifies this`rows
      ensures ok == Couple(env, old(rows), previous, frontend).Some?
      ensures rows == if ok then Couple(env, old(rows), previous, frontend).value else old(rows)
    {
      if CorsOrigins !in rows {
        var text := Serialize(env, CorsOrigins, frontend);
        if text.None? {
          return false;
        }
        rows := rows[CorsOrigins := Row(text.value, false)];
      } else {
        var row := rows[CorsOrigins];
        var stored := StoredValue(env, row);
        if stored.None? {
          return false;
        }
        if stored.value == previous {
          var text := Serialize(env, CorsOrigins, frontend);
          if text.None? {
            return false;
          }
          rows := rows[CorsOrigins := row.(value := text.value)];
        }
      }
      ok := true;
    }

    method ClearOverride(key: Key) returns (ok: bool)
      modifies this
      ensures ok == Clear(env, old(View()), key).Ok?
      ensures View() == if ok then Clear(env, old(View()), key).value else old(View())
    {
      var before := rows;
      if !Known(key) || !DependencyOk(env, cache - {key}) {
        return false;
      }
      if key in rows {
        rows := rows - {key};
      }
      assert rows == old(rows) - {key};
      ok := LoadOverrides();
      if !ok {
        rows := before;
      }
    }
  }
}
