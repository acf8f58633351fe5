/**
 The environment of a spawned Claude adapter and the overlay that reproduces it
 (adapters/claude-settings-policy.ts).

 `fold` is the identity on POSIX and upper-casing on Windows, where names that
 differ only in case are one variable.
 */
module ClaudeEnvironment {
  import opened Common
  import opened Whitespace

  type Env = map<string, string>

  type Fold = string -> string

  const INCLUDE_USER_SETTINGS := "ACPX_CLAUDE_INCLUDE_USER_SETTINGS"
  const MODEL := "ANTHROPIC_MODEL"
  const BASE_URL := "ANTHROPIC_BASE_URL"
  const AUTH_TOKEN := "ANTHROPIC_AUTH_TOKEN"
  const MODEL_CONFIG := "CLAUDE_MODEL_CONFIG"
  const CONFIG_DIR := "CLAUDE_CONFIG_DIR"

  /** The names the resolver writes itself are already folded and stay apart. */
  ghost predicate FixesNames(fold: Fold)
  {
    && fold(INCLUDE_USER_SETTINGS) == INCLUDE_USER_SETTINGS && fold(MODEL) == MODEL && fold(BASE_URL) == BASE_URL
    && fold(AUTH_TOKEN) == AUTH_TOKEN && fold(MODEL_CONFIG) == MODEL_CONFIG && fold(CONFIG_DIR) == CONFIG_DIR
  }

  /** No variable is spelled in two ways, as in every process environment. */
  ghost predicate FoldUnique(env: Env, fold: Fold)
  {
    forall j, k :: j in env && k in env && fold(j) == fold(k) ==> j == k
  }

  /** `getEnvironmentValue`. */
  function Get(env: Env, name: string, fold: Fold): Option<string>
    requires FoldUnique(env, fold)
  {
    if exists k :: k in env && fold(k) == fold(name) then
      var k :| k in env && fold(k) == fold(name);
      Some(env[k])
    else None
  }

  function Deleted(env: Env, name: string, fold: Fold): Env
  {
    map k | k in env && fold(k) != fold(name) :: env[k]
  }

  function Put(env: Env, name: string, value: string, fold: Fold): Env
  {
    Deleted(env, name, fold)[name := value]
  }

  lemma GetAfterDelete(env: Env, name: string, fold: Fold, n: string)
    requires FoldUnique(env, fold)
    ensures FoldUnique(Deleted(env, name, fold), fold)
    ensures Get(Deleted(env, name, fold), n, fold) == if fold(n) == fold(name) then None else Get(env, n, fold)
  {
    var after := Deleted(env, name, fold);
    if fold(n) != fold(name) && Get(env, n, fold).Some? {
      var k :| k in env && fold(k) == fold(n);
      assert k in after;
    }
  }

  lemma GetAfterPut(env: Env, name: string, value: string, fold: Fold, n: string)
    requires FoldUnique(env, fold)
    ensures FoldUnique(Put(env, name, value, fold), fold)
    ensures Get(Put(env, name, value, fold), n, fold) == if fold(n) == fold(name) then Some(value) else Get(env, n, fold)
  {
    var after := Put(env, name, value, fold);
    GetAfterDelete(env, name, fold, n);
    if fold(n) == fold(name) {
      assert name in after;
    } else if Get(env, n, fold).Some? {
      var k :| k in env && fold(k) == fold(n);
      assert k in after;
    }
  }

  // ----- what the resolver keeps while it edits

  /** The environment being built, with the names written and removed. */
  datatype Draft = Draft(env: Env, setKeys: set<string>, clearedKeys: set<string>)

  predicate HasKey(keys: set<string>, name: string, fold: Fold)
  {
    exists k :: k in keys && fold(k) == fold(name)
  }

  /** The draft differs from the inherited environment only where the resolver wrote or removed something. */
  ghost predicate DerivedAt(d: Draft, base: Env, fold: Fold, n: string)
    requires FoldUnique(base, fold) && FoldUnique(d.env, fold)
  {
    && (HasKey(d.setKeys, n, fold) ==> Get(d.env, n, fold).Some?)
    && (HasKey(d.clearedKeys, n, fold) && !HasKey(d.setKeys, n, fold) ==> Get(d.env, n, fold).None?)
    && (!HasKey(d.setKeys, n, fold) && !HasKey(d.clearedKeys, n, fold) ==> Get(d.env, n, fold) == Get(base, n, fold))
  }

  ghost predicate Derived(d: Draft, base: Env, fold: Fold)
  {
    && FoldUnique(base, fold) && FoldUnique(d.env, fold)
    && d.clearedKeys <= {INCLUDE_USER_SETTINGS}
    && forall n :: DerivedAt(d, base, fold, n)
  }

  function SetValue(d: Draft, name: string, value: string, fold: Fold): Draft
  {
    d.(env := Put(d.env, name, value, fold), setKeys := d.setKeys + {name})
  }

  function Clear(d: Draft, name: string, fold: Fold): Draft
  {
    d.(env := Deleted(d.env, name, fold), clearedKeys := d.clearedKeys + {name})
  }

  lemma SetKeepsDerived(d: Draft, base: Env, fold: Fold, name: string, value: string)
    requires Derived(d, base, fold)
    ensures Derived(SetValue(d, name, value, fold), base, fold)
  {
    var d' := SetValue(d, name, value, fold);
    GetAfterPut(d.env, name, value, fold, name);
    forall n ensures DerivedAt(d', base, fold, n) {
      assert DerivedAt(d, base, fold, n);
      GetAfterPut(d.env, name, value, fold, n);
      assert name in d'.setKeys;
      assert HasKey(d'.setKeys, n, fold) <==> HasKey(d.setKeys, n, fold) || fold(n) == fold(name);
    }
  }

  lemma ClearKeepsDerived(d: Draft, base: Env, fold: Fold)
    requires Derived(d, base, fold) && !HasKey(d.setKeys, INCLUDE_USER_SETTINGS, fold)
    ensures Derived(Clear(d, INCLUDE_USER_SETTINGS, fold), base, fold)
  {
    var d' := Clear(d, INCLUDE_USER_SETTINGS, fold);
    GetAfterDelete(d.env, INCLUDE_USER_SETTINGS, fold, "");
    forall n ensures DerivedAt(d', base, fold, n) {
      assert DerivedAt(d, base, fold, n);
      GetAfterDelete(d.env, INCLUDE_USER_SETTINGS, fold, n);
      assert INCLUDE_USER_SETTINGS in d'.clearedKeys;
      assert HasKey(d'.clearedKeys, n, fold) <==> HasKey(d.clearedKeys, n, fold) || fold(n) == fold(INCLUDE_USER_SETTINGS);
    }
  }

  // ----- the overlay

  /** Crosses into the overlay: written by the resolver, or different from the inherited value. */
  predicate Crosses(d: Draft, base: Env, fold: Fold, key: string, provenance: bool)
    requires FoldUnique(base, fold)
  {
    key in d.env && ((provenance && HasKey(d.setKeys, key, fold)) || Get(base, key, fold) != Some(d.env[key]))
  }

  predicate RestatesClear(d: Draft, base: Env, fold: Fold, provenance: bool)
    requires FoldUnique(base, fold) && FoldUnique(d.env, fold)
  {
    && Get(d.env, INCLUDE_USER_SETTINGS, fold).None?
    && (if provenance then HasKey(d.clearedKeys, INCLUDE_USER_SETTINGS, fold)
        else Get(base, INCLUDE_USER_SETTINGS, fold).Some?)
  }

  function Crossing(d: Draft, base: Env, fold: Fold, provenance: bool, keys: set<string>): Env
    requires FoldUnique(base, fold)
  {
    map k | k in keys && Crosses(d, base, fold, k, provenance) :: d.env[k]
  }

  function Overlay(d: Draft, base: Env, fold: Fold, provenance: bool): Env
    requires FoldUnique(base, fold) && FoldUnique(d.env, fold)
  {
    var crossing := Crossing(d, base, fold, provenance, d.env.Keys);
    if RestatesClear(d, base, fold, provenance) then crossing[INCLUDE_USER_SETTINGS := "0"] else crossing
  }

  /** An empty overlay is no overlay; either way this is what it reads as. */
  method NarrowToAgentProcessEnvOverlay(d: Draft, base: Env, fold: Fold, provenance: bool) returns (overlay: Option<Env>)
    requires FoldUnique(base, fold) && FoldUnique(d.env, fold)
    ensures AsEnv(overlay) == Overlay(d, base, fold, provenance)
    ensures overlay != Some(map[])
  {
    var result := CrossingKeys(d, base, fold, provenance);
    var resolvedLacks := Get(d.env, INCLUDE_USER_SETTINGS, fold).None?;
    if provenance {
      if HasKey(d.clearedKeys, INCLUDE_USER_SETTINGS, fold) && resolvedLacks {
        result := result[INCLUDE_USER_SETTINGS := "0"];
      }
    } else if Get(base, INCLUDE_USER_SETTINGS, fold).Some? && resolvedLacks {
      result := result[INCLUDE_USER_SETTINGS := "0"];
    }
    return if |result| > 0 then Some(result) else None;
  }

  method CrossingKeys(d: Draft, base: Env, fold: Fold, provenance: bool) returns (result: Env)
    requires FoldUnique(base, fold)
    ensures result == Crossing(d, base, fold, provenance, d.env.Keys)
  {
    result := map[];
    var left := d.env.Keys;
    ghost var done: set<string> := {};
    while left != {}
      invariant done == d.env.Keys - left && left <= d.env.Keys
      invariant result == Crossing(d, base, fold, provenance, done)
      decreases |left|
    {
      var key :| key in left;
      left := left - {key};
      CrossingOne(d, base, fold, provenance, done, key);
      if (provenance && HasKey(d.setKeys, key, fold)) || Get(base, key, fold) != Some(d.env[key]) {
        result := result[key := d.env[key]];
      }
      done := done + {key};
    }
    assert done == d.env.Keys;
  }

  lemma CrossingOne(d: Draft, base: Env, fold: Fold, provenance: bool, done: set<string>, key: string)
    requires FoldUnique(base, fold) && key in d.env
    ensures Crossing(d, base, fold, provenance, done + {key}) ==
      if (provenance && HasKey(d.setKeys, key, fold)) || Get(base, key, fold) != Some(d.env[key])
      then Crossing(d, base, fold, provenance, done)[key := d.env[key]]
      else Crossing(d, base, fold, provenance, done)
  {}

  lemma OverlayFoldUnique(d: Draft, base: Env, fold: Fold, provenance: bool)
    requires FoldUnique(base, fold) && FoldUnique(d.env, fold)
    ensures FoldUnique(Overlay(d, base, fold, provenance), fold)
  {}

  /** What a name reads in the overlay. */
  lemma GetOverlay(d: Draft, base: Env, fold: Fold, provenance: bool, n: string)
    requires FoldUnique(base, fold) && FoldUnique(d.env, fold)
    ensures FoldUnique(Overlay(d, base, fold, provenance), fold)
    ensures Get(Overlay(d, base, fold, provenance), n, fold) ==
      if fold(n) == fold(INCLUDE_USER_SETTINGS) && RestatesClear(d, base, fold, provenance) then Some("0")
      else if (provenance && HasKey(d.setKeys, n, fold)) || Get(base, n, fold) != Get(d.env, n, fold)
      then Get(d.env, n, fold) else None
  {
    OverlayFoldUnique(d, base, fold, provenance);
    var o := Overlay(d, base, fold, provenance);
    if fold(n) == fold(INCLUDE_USER_SETTINGS) && RestatesClear(d, base, fold, provenance) {
      assert INCLUDE_USER_SETTINGS in o;
    } else if Get(d.env, n, fold).Some? {
      var k :| k in d.env && fold(k) == fold(n);
      assert Get(base, k, fold) == Get(base, n, fold);
      assert HasKey(d.setKeys, k, fold) <==> HasKey(d.setKeys, n, fold);
      assert k in o <==> Crosses(d, base, fold, k, provenance);
    }
  }

  /** One environment over another. */
  function Layered(over: Env, under: Option<string>, n: string, fold: Fold): Option<string>
    requires FoldUnique(over, fold)
  {
    if Get(over, n, fold).Some? then Get(over, n, fold) else under
  }

  /** What the resolver means a name to read: its resolved value, or "0" for a removed control key. */
  function Intended(d: Draft, n: string, fold: Fold): Option<string>
    requires FoldUnique(d.env, fold)
  {
    if HasKey(d.clearedKeys, n, fold) && Get(d.env, n, fold).None? then Some("0") else Get(d.env, n, fold)
  }

  predicate Touched(d: Draft, n: string, fold: Fold)
  {
    HasKey(d.setKeys, n, fold) || HasKey(d.clearedKeys, n, fold)
  }

  /** The inherited environment under the overlay reads, name by name, as the resolved environment. */
  lemma OverlayReproducesResolved(d: Draft, base: Env, fold: Fold, n: string)
    requires Derived(d, base, fold)
    ensures FoldUnique(Overlay(d, base, fold, true), fold)
    ensures Layered(Overlay(d, base, fold, true), Get(base, n, fold), n, fold) == Intended(d, n, fold)
  {
    GetOverlay(d, base, fold, true, n);
    assert DerivedAt(d, base, fold, n);
    ClearedIsControl(d, base, fold, n);
  }

  lemma ClearedIsControl(d: Draft, base: Env, fold: Fold, n: string)
    requires Derived(d, base, fold)
    ensures HasKey(d.clearedKeys, n, fold)
      <==> fold(n) == fold(INCLUDE_USER_SETTINGS) && HasKey(d.clearedKeys, INCLUDE_USER_SETTINGS, fold)
  {}

  /** With the overlay on top a name reads as intended where the resolver touched it, and as the lower two layers elsewhere. */
  predicate ReadsAsIntended(overlay: Env, d: Draft, base: Env, persisted: Env, n: string, fold: Fold)
    requires FoldUnique(overlay, fold) && FoldUnique(d.env, fold) && FoldUnique(base, fold) && FoldUnique(persisted, fold)
  {
    var under := Layered(persisted, Get(base, n, fold), n, fold);
    Layered(overlay, under, n, fold) == if Touched(d, n, fold) then Intended(d, n, fold) else under
  }

  /**
   Over any persisted session environment between the two, a name the resolver
   wrote or removed still reads as intended, and every other name reads its
   persisted value, or the inherited one.
   */
  lemma OverlayBeatsPersisted(d: Draft, base: Env, persisted: Env, fold: Fold, n: string)
    requires Derived(d, base, fold) && FoldUnique(persisted, fold)
    ensures FoldUnique(Overlay(d, base, fold, true), fold)
    ensures ReadsAsIntended(Overlay(d, base, fold, true), d, base, persisted, n, fold)
  {
    GetOverlay(d, base, fold, true, n);
    assert DerivedAt(d, base, fold, n);
    ClearedIsControl(d, base, fold, n);
  }

  /**
   Without provenance a written name reads as intended exactly when its value
   differs from the inherited one or no other value is persisted for it.
   */
  lemma ValueDifferenceExactly(d: Draft, base: Env, persisted: Env, fold: Fold, n: string)
    requires Derived(d, base, fold) && FoldUnique(persisted, fold) && HasKey(d.setKeys, n, fold)
    ensures FoldUnique(Overlay(d, base, fold, false), fold)
    ensures Layered(Overlay(d, base, fold, false), Layered(persisted, Get(base, n, fold), n, fold), n, fold)
         == Get(d.env, n, fold)
      <==> Get(base, n, fold) != Get(d.env, n, fold) || Get(persisted, n, fold) in {None, Get(d.env, n, fold)}
  {
    GetOverlay(d, base, fold, false, n);
    assert DerivedAt(d, base, fold, n);
  }

  // ----- the resolver

  datatype Policy = FullUser | Isolated | ProviderOnly

  /** What the session asks for: `model` is the explicit model, when it is not blank. */
  datatype Settings = Settings(claude: bool, policy: Policy, model: Option<string>)
  {
    predicate Valid()
    {
      model.Some? ==> NonBlank(model.value)
    }
  }

  /** What reading the profile gives, and the directory of the filtered profile. */
  datatype Profile = Profile(provider: Env, model: Option<string>, modelConfig: Option<string>, dir: string)

  /** `readAnthropicEnvironment` keeps provider variables only, none of them empty. */
  ghost predicate ReadFromProfile(p: Profile, fold: Fold)
  {
    && FoldUnique(p.provider, fold)
    && forall k :: k in p.provider ==> fold(k) != INCLUDE_USER_SETTINGS && fold(k) != CONFIG_DIR && fold(k) != MODEL_CONFIG
  }

  predicate Present(v: Option<string>)
  {
    v.Some? && NonBlank(v.value)
  }

  /** The inherited value of a provider variable unless it is empty, or else the profile's. */
  function Effective(env: Env, provider: Env, name: string, fold: Fold): Option<string>
    requires FoldUnique(env, fold) && FoldUnique(provider, fold)
  {
    var own := Get(env, name, fold);
    if own.Some? && own.value != "" then own else Get(provider, name, fold)
  }

  predicate ThirdParty(env: Env, provider: Env, fold: Fold)
    requires FoldUnique(env, fold) && FoldUnique(provider, fold)
  {
    Present(Effective(env, provider, BASE_URL, fold)) || Present(Effective(env, provider, AUTH_TOKEN, fold))
  }

  class SpawnEnvironment {
    var env: Env
    var setKeys: set<string>
    var clearedKeys: set<string>
    const fold: Fold
    ghost const base: Env

    ghost predicate Valid()
      reads this
    {
      Derived(Now(), base, fold)
    }

    function Now(): Draft
      reads this
    {
      Draft(env, setKeys, clearedKeys)
    }

    /** A copy of the inherited environment. */
    constructor (base: Env, fold: Fold)
      requires FoldUnique(base, fold)
      ensures Valid() && this.base == base && this.fold == fold && Now() == Draft(base, {}, {})
    {
      this.base, this.fold := base, fold;
      env, setKeys, clearedKeys := base, {}, {};
    }

    method DeleteMatching(name: string)
      modifies this`env
      ensures env == Deleted(old(env), name, fold)
    {
      var left := env.Keys;
      ghost var was := env;
      while left != {}
        invariant left <= was.Keys
        invariant env == map k | k in was && (k in left || fold(k) != fold(name)) :: was[k]
        decreases |left|
      {
        var key :| key in left;
        left := left - {key};
        if fold(key) == fold(name) {
          env := env - {key};
        }
      }
    }

    method DeleteEnvironmentValue()
      requires Valid() && !HasKey(setKeys, INCLUDE_USER_SETTINGS, fold)
      modifies this
      ensures Valid() && Now() == Clear(old(Now()), INCLUDE_USER_SETTINGS, fold)
      ensures forall n :: Get(env, n, fold) ==
                          (if fold(n) == fold(INCLUDE_USER_SETTINGS) then None else Get(old(env), n, fold))
    {
      ghost var was := env;
      ClearKeepsDerived(Now(), base, fold);
      DeleteMatching(INCLUDE_USER_SETTINGS);
      clearedKeys := clearedKeys + {INCLUDE_USER_SETTINGS};
      forall n ensures Get(env, n, fold) == (if fold(n) == fold(INCLUDE_USER_SETTINGS) then None else Get(was, n, fold)) {
        GetAfterDelete(was, INCLUDE_USER_SETTINGS, fold, n);
      }
    }

    method SetEnvironmentValue(name: string, value: string)
      requires Valid()
      modifies this
      ensures Valid() && Now() == SetValue(old(Now()), name, value, fold)
      ensures forall n :: Get(env, n, fold) == (if fold(n) == fold(name) then Some(value) else Get(old(env), n, fold))
    {
      ghost var was := env;
      SetKeepsDerived(Now(), base, fold, name, value);
      DeleteMatching(name);
      env := env[name := value];
      setKeys := setKeys + {name};
      forall n ensures Get(env, n, fold) == (if fold(n) == fold(name) then Some(value) else Get(was, n, fold)) {
        GetAfterPut(was, name, value, fold, n);
      }
    }
  }

  /** The value of a name with the provider variables filled in where the environment has none or a blank one. */
  function Filled(env: Env, provider: Env, n: string, fold: Fold): Option<string>
    requires FoldUnique(env, fold) && FoldUnique(provider, fold)
  {
    if Present(Get(env, n, fold)) || Get(provider, n, fold).None? then Get(env, n, fold) else Get(provider, n, fold)
  }

  /** Writes the provider variables that the environment lacks or leaves blank. */
  method ImportProvider(s: SpawnEnvironment, provider: Env)
    requires s.Valid() && FoldUnique(provider, s.fold)
    modifies s
    ensures s.Valid() && s.clearedKeys == old(s.clearedKeys)
    ensures forall n :: Get(s.env, n, s.fold) == Filled(old(s.env), provider, n, s.fold)
    ensures forall n :: HasKey(s.setKeys, n, s.fold) ==> HasKey(old(s.setKeys), n, s.fold) || HasKey(provider.Keys, n, s.fold)
  {
    var left := provider.Keys;
    ghost var was := s.env;
    while left != {}
      invariant s.Valid() && left <= provider.Keys && s.clearedKeys == old(s.clearedKeys)
      invariant forall n :: Imported(s.env, was, provider, left, n, s.fold)
      invariant forall k :: k in s.setKeys ==> k in old(s.setKeys) || k in provider
      decreases |left|
    {
      var key :| key in left;
      ghost var before, at := s.env, left;
      left := left - {key};
      if !Present(Get(s.env, key, s.fold)) {
        s.SetEnvironmentValue(key, provider[key]);
      }
      forall n ensures Imported(s.env, was, provider, left, n, s.fold) {
        ImportOne(before, was, provider, at, key, n, s.fold);
      }
    }
    forall n ensures Get(s.env, n, s.fold) == Filled(was, provider, n, s.fold) {
      assert Imported(s.env, was, provider, left, n, s.fold);
    }
  }

  /** While the keys in `left` are still to be imported. */
  ghost predicate Imported(env: Env, was: Env, provider: Env, left: set<string>, n: string, fold: Fold)
    requires FoldUnique(env, fold) && FoldUnique(was, fold) && FoldUnique(provider, fold)
  {
    Get(env, n, fold) == if HasKey(left, n, fold) then Get(was, n, fold) else Filled(was, provider, n, fold)
  }

  lemma ImportOne(env: Env, was: Env, provider: Env, left: set<string>, key: string, n: string, fold: Fold)
    requires FoldUnique(env, fold) && FoldUnique(was, fold) && FoldUnique(provider, fold)
    requires key in left && left <= provider.Keys
    requires Imported(env, was, provider, left, n, fold) && Imported(env, was, provider, left, key, fold)
    ensures FoldUnique(Put(env, key, provider[key], fold), fold)
    ensures Imported(if Present(Get(env, key, fold)) then env else Put(env, key, provider[key], fold),
              was, provider, left - {key}, n, fold)
  {
    GetAfterPut(env, key, provider[key], fold, n);
    assert HasKey(left, key, fold);
    if fold(n) == fold(key) {
      assert !HasKey(left - {key}, n, fold);
      assert Get(provider, n, fold) == Some(provider[key]);
      assert Get(env, n, fold) == Get(env, key, fold) && Get(was, n, fold) == Get(was, key, fold);
    } else {
      assert HasKey(left, n, fold) <==> HasKey(left - {key}, n, fold) by {
        if HasKey(left, n, fold) {
          var k :| k in left && fold(k) == fold(n);
          assert k in left - {key};
        }
      }
    }
  }

  /** Every policy keeps the explicit model. */
  ghost predicate KeepsModel(env: Env, input: Settings, fold: Fold)
    requires FoldUnique(env, fold)
  {
    input.model.Some? ==> Get(env, MODEL, fold) == input.model
  }

  /** Without the full-user policy the user settings are off and settings are read from the filtered profile. */
  ghost predicate Restricted(d: Draft, p: Profile, fold: Fold)
    requires FoldUnique(d.env, fold)
  {
    && Get(d.env, INCLUDE_USER_SETTINGS, fold) == None
    && INCLUDE_USER_SETTINGS in d.clearedKeys
    && Get(d.env, CONFIG_DIR, fold) == Some(p.dir)
  }

  /** Provider variables are filled in from the profile, and its model where nothing else names one. */
  ghost predicate FillsProvider(env: Env, input: Settings, p: Profile, base: Env, fold: Fold)
    requires FoldUnique(env, fold) && FoldUnique(base, fold) && FoldUnique(p.provider, fold)
  {
    && (forall n :: n in p.provider && fold(n) != MODEL ==> Get(env, n, fold) == Filled(base, p.provider, n, fold))
    && (input.model.None? ==>
          Get(env, MODEL, fold) ==
          (var filled := Filled(base, p.provider, MODEL, fold);
           if Present(filled) || p.model.None? then filled else p.model))
  }

  /** What each policy promises of the environment it resolves. */
  ghost predicate Resolved(d: Draft, input: Settings, p: Profile, base: Env, fold: Fold)
    requires FoldUnique(d.env, fold) && FoldUnique(base, fold) && FoldUnique(p.provider, fold)
  {
    && KeepsModel(d.env, input, fold)
    && (if input.policy == FullUser then Get(d.env, INCLUDE_USER_SETTINGS, fold) == Some("1") else Restricted(d, p, fold))
    && (input.policy == ProviderOnly ==> FillsProvider(d.env, input, p, base, fold))
  }

  /** `ANTHROPIC_MODEL` first, then the policy. */
  method Resolve(input: Settings, p: Profile, base: Env, fold: Fold) returns (resolved: Option<Draft>)
    requires FoldUnique(base, fold) && FixesNames(fold) && ReadFromProfile(p, fold) && input.Valid()
    ensures resolved.Some? <==>
      input.claude && (input.policy == ProviderOnly ==> ThirdParty(base, p.provider, fold))
    ensures resolved.Some? ==> Derived(resolved.value, base, fold) && Resolved(resolved.value, input, p, base, fold)
  {
    if !input.claude {
      return None;
    }
    var s := new SpawnEnvironment(base, fold);
    if input.model.Some? {
      s.SetEnvironmentValue(MODEL, input.model.value);
    }
    assert StartsFrom(s.env, input, base, fold);
    if input.policy == FullUser {
      s.SetEnvironmentValue(INCLUDE_USER_SETTINGS, "1");
      assert KeepsModel(s.env, input, fold);
      return Some(s.Now());
    }
    if input.policy == Isolated {
      Isolate(s, p.dir);
      assert KeepsModel(s.env, input, fold) && Restricted(s.Now(), p, fold);
      return Some(s.Now());
    }
    SameProvider(s.env, input, base, p.provider, fold);
    if !ThirdParty(s.env, p.provider, fold) {
      return None;
    }
    ghost var e0 := s.env;
    ResolveProvider(s, input, p);
    ProviderResolved(s.Now(), e0, input, p, base, fold);
    return Some(s.Now());
  }

  /** The inherited environment with the explicit model, on which the policy works. */
  ghost predicate StartsFrom(env: Env, input: Settings, base: Env, fold: Fold)
    requires FoldUnique(env, fold) && FoldUnique(base, fold)
  {
    forall n :: Get(env, n, fold) == (if input.model.Some? && fold(n) == MODEL then input.model else Get(base, n, fold))
  }

  /** The explicit model does not decide whether the provider is a third party. */
  lemma SameProvider(env: Env, input: Settings, base: Env, provider: Env, fold: Fold)
    requires FoldUnique(env, fold) && FoldUnique(base, fold) && FoldUnique(provider, fold) && FixesNames(fold)
    requires StartsFrom(env, input, base, fold)
    ensures ThirdParty(env, provider, fold) == ThirdParty(base, provider, fold)
  {
    assert Get(env, BASE_URL, fold) == Get(base, BASE_URL, fold);
    assert Get(env, AUTH_TOKEN, fold) == Get(base, AUTH_TOKEN, fold);
  }

  method Isolate(s: SpawnEnvironment, dir: string)
    requires s.Valid() && FixesNames(s.fold) && !HasKey(s.setKeys, INCLUDE_USER_SETTINGS, s.fold)
    modifies s
    ensures s.Valid() && INCLUDE_USER_SETTINGS in s.clearedKeys
    ensures Get(s.env, INCLUDE_USER_SETTINGS, s.fold) == None && Get(s.env, CONFIG_DIR, s.fold) == Some(dir)
    ensures Get(s.env, MODEL, s.fold) == Get(old(s.env), MODEL, s.fold)
  {
    s.DeleteEnvironmentValue();
    s.SetEnvironmentValue(CONFIG_DIR, dir);
  }

  /** What a name reads after the provider-only policy, the model configuration aside. */
  function ProviderValue(env: Env, input: Settings, p: Profile, n: string, fold: Fold): Option<string>
    requires FoldUnique(env, fold) && FoldUnique(p.provider, fold)
  {
    if fold(n) == INCLUDE_USER_SETTINGS then None
    else if fold(n) == CONFIG_DIR then Some(p.dir)
    else
      var filled := Filled(env, p.provider, n, fold);
      if fold(n) == MODEL && input.model.None? && !Present(filled) && p.model.Some? then p.model else filled
  }

  /** The provider-only policy for a third-party provider. */
  method ResolveProvider(s: SpawnEnvironment, input: Settings, p: Profile)
    requires s.Valid() && FixesNames(s.fold) && ReadFromProfile(p, s.fold)
    requires !HasKey(s.setKeys, INCLUDE_USER_SETTINGS, s.fold)
    modifies s
    ensures s.Valid() && INCLUDE_USER_SETTINGS in s.clearedKeys
    ensures forall n :: s.fold(n) != MODEL_CONFIG ==>
      Get(s.env, n, s.fold) == ProviderValue(old(s.env), input, p, n, s.fold)
  {
    ghost var e0 := s.env;
    ImportProvider(s, p.provider);
    assert !HasKey(s.setKeys, INCLUDE_USER_SETTINGS, s.fold);
    s.DeleteEnvironmentValue();
    ghost var e2 := s.env;
    assert Get(e2, MODEL, s.fold) == Filled(e0, p.provider, MODEL, s.fold);
    ChooseModels(s, input, p);
    ghost var e3 := s.env;
    s.SetEnvironmentValue(CONFIG_DIR, p.dir);
    forall n | s.fold(n) != MODEL_CONFIG
      ensures Get(s.env, n, s.fold) == ProviderValue(e0, input, p, n, s.fold)
    {
      assert Get(s.env, n, s.fold) == if s.fold(n) == CONFIG_DIR then Some(p.dir) else Get(e3, n, s.fold);
      assert Get(e2, n, s.fold) == if s.fold(n) == INCLUDE_USER_SETTINGS then None else Filled(e0, p.provider, n, s.fold);
      if s.fold(n) == MODEL {
        SameName(e3, n, MODEL, s.fold);
        SameName(e2, n, MODEL, s.fold);
        SameName(e0, n, MODEL, s.fold);
        SameName(p.provider, n, MODEL, s.fold);
      }
    }
  }

  lemma SameName(env: Env, a: string, b: string, fold: Fold)
    requires FoldUnique(env, fold) && fold(a) == fold(b)
    ensures Get(env, a, fold) == Get(env, b, fold)
  {}

  lemma ProviderResolved(d: Draft, e0: Env, input: Settings, p: Profile, base: Env, fold: Fold)
    requires FoldUnique(d.env, fold) && FoldUnique(e0, fold) && FoldUnique(base, fold)
    requires FixesNames(fold) && ReadFromProfile(p, fold) && input.policy == ProviderOnly
    requires INCLUDE_USER_SETTINGS in d.clearedKeys
    requires forall n :: fold(n) != MODEL_CONFIG ==> Get(d.env, n, fold) == ProviderValue(e0, input, p, n, fold)
    requires StartsFrom(e0, input, base, fold)
    requires input.Valid()
    ensures Resolved(d, input, p, base, fold)
  {
    assert KeepsModel(d.env, input, fold) by {
      assert Get(d.env, MODEL, fold) == ProviderValue(e0, input, p, MODEL, fold);
    }
    assert Restricted(d, p, fold) by {
      assert Get(d.env, CONFIG_DIR, fold) == ProviderValue(e0, input, p, CONFIG_DIR, fold);
      assert Get(d.env, INCLUDE_USER_SETTINGS, fold) == ProviderValue(e0, input, p, INCLUDE_USER_SETTINGS, fold);
    }
    ProviderFilled(d, e0, input, p, base, fold);
  }

  lemma ProviderFilled(d: Draft, e0: Env, input: Settings, p: Profile, base: Env, fold: Fold)
    requires FoldUnique(d.env, fold) && FoldUnique(e0, fold) && FoldUnique(base, fold)
    requires FixesNames(fold) && ReadFromProfile(p, fold) && StartsFrom(e0, input, base, fold)
    requires forall n :: fold(n) != MODEL_CONFIG ==> Get(d.env, n, fold) == ProviderValue(e0, input, p, n, fold)
    ensures FillsProvider(d.env, input, p, base, fold)
  {
    ModelFilled(e0, input, p, base, fold);
    assert Get(d.env, MODEL, fold) == ProviderValue(e0, input, p, MODEL, fold);
    forall n | n in p.provider && fold(n) != MODEL
      ensures Get(d.env, n, fold) == Filled(base, p.provider, n, fold)
    {
      assert Get(e0, n, fold) == Get(base, n, fold);
    }
  }

  lemma ModelFilled(e0: Env, input: Settings, p: Profile, base: Env, fold: Fold)
    requires FoldUnique(e0, fold) && FoldUnique(base, fold)
    requires FixesNames(fold) && ReadFromProfile(p, fold) && StartsFrom(e0, input, base, fold)
    ensures input.model.None? ==>
      ProviderValue(e0, input, p, MODEL, fold) ==
      (var filled := Filled(base, p.provider, MODEL, fold);
       if Present(filled) || p.model.None? then filled else p.model)
  {
    assert input.model.None? ==> Get(e0, MODEL, fold) == Get(base, MODEL, fold);
  }

  /** The model and model configuration of the profile, where nothing else names one. */
  method ChooseModels(s: SpawnEnvironment, input: Settings, p: Profile)
    requires s.Valid() && FixesNames(s.fold)
    modifies s
    ensures s.Valid() && s.clearedKeys == old(s.clearedKeys)
    ensures forall n :: s.fold(n) != MODEL && s.fold(n) != MODEL_CONFIG ==>
      Get(s.env, n, s.fold) == Get(old(s.env), n, s.fold)
    ensures Get(s.env, MODEL, s.fold) ==
      (var own := Get(old(s.env), MODEL, s.fold);
       if input.model.Some? || Present(own) || p.model.None? then own else p.model)
  {
    if input.model.None? && !Present(Get(s.env, MODEL, s.fold)) && p.model.Some? {
      s.SetEnvironmentValue(MODEL, p.model.value);
    }
    if !Present(Get(s.env, MODEL_CONFIG, s.fold)) && p.modelConfig.Some? {
      s.SetEnvironmentValue(MODEL_CONFIG, p.modelConfig.value);
    }
  }

  /**
   The overlay handed to the runtime: over any persisted session environment on
   top of the inherited one, what the resolver wrote or removed reads as intended
   and the rest is left alone. Without a resolved environment there is none.
   */
  method ResolveAgentProcessEnv(input: Settings, p: Profile, base: Env, fold: Fold)
    returns (overlay: Option<Env>, resolved: Option<Draft>)
    requires FoldUnique(base, fold) && FixesNames(fold) && ReadFromProfile(p, fold) && input.Valid()
    ensures resolved.None? ==> overlay.None?
    ensures resolved.Some? ==> Derived(resolved.value, base, fold) && Resolved(resolved.value, input, p, base, fold)
    ensures resolved.Some? ==> FoldUnique(AsEnv(overlay), fold)
    ensures resolved.Some? ==> forall persisted: Env, n: string :: FoldUnique(persisted, fold) ==>
      ReadsAsIntended(AsEnv(overlay), resolved.value, base, persisted, n, fold)
  {
    resolved := Resolve(input, p, base, fold);
    if resolved.None? {
      return None, None;
    }
    overlay := NarrowToAgentProcessEnvOverlay(resolved.value, base, fold, true);
    OverlayFoldUnique(resolved.value, base, fold, true);
    forall persisted: Env, n: string | FoldUnique(persisted, fold)
      ensures ReadsAsIntended(AsEnv(overlay), resolved.value, base, persisted, n, fold)
    {
      OverlayBeatsPersisted(resolved.value, base, persisted, fold, n);
    }
  }

  /** No overlay reads as an empty one. */
  function AsEnv(overlay: Option<Env>): Env
  {
    if overlay.Some? then overlay.value else map[]
  }
}
