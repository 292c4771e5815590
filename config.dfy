/**
 * The plugin's configuration: the dictionary values it reads, DEFAULT_CONFIG,
 * and `setup`, which fills a user's partial `_notify` dictionary from the defaults.
 */
module Config {
  import opened Wrappers

  /** The Python values a configuration dictionary can hold. */
  datatype Value =
    | Str(s: string)
    | Bool(b: bool)
    | Int(i: int)
    | List(items: seq<Value>)
    | Dict(entries: map<string, Value>)

  type Mapping = map<string, Value>

  /** The nested `when` record of DEFAULT_CONFIG. */
  const DefaultWhen: Mapping := map[
    "pipeline" := Str("abe"),
    "proc" := Str("abe"),
    "job" := Str("")
  ]

  const DefaultConfig: Mapping := map[
    "from" := Str("pyppl-notify@no-reply.info"),
    "to" := List([]),
    "when" := Dict(DefaultWhen),
    "server" := Str("localhost"),
    "ssl" := Bool(false),
    "port" := Int(25),
    "username" := Str(""),
    "password" := Str("")
  ]

  /** `d.get(k, v)` */
  function GetOr(d: Mapping, k: string, v: Value): Value {
    if k in d then d[k] else v
  }

  /**
   * Key `k` of the defaults holds a non-empty dictionary but the user gave a
   * value that is not one: the first `conf[key].get(k, v)` then raises, because
   * that value has no `get`. With an empty default dictionary the inner loop
   * never runs and nothing raises.
   */
  predicate Clash(user: Mapping, defaults: Mapping, k: string) {
    k in defaults && defaults[k].Dict? && defaults[k].entries != map[] && k in user && !user[k].Dict?
  }

  /** The user's entries, completed by the defaults for the keys the user left out. */
  function FillMissing(user: Mapping, defaults: Mapping): Mapping {
    map k | k in user.Keys + defaults.Keys :: if k in user then user[k] else defaults[k]
  }

  /** Filling a dictionary that already has every default key changes nothing. */
  lemma FillMissingCovered(d: Mapping, defaults: Mapping)
    requires defaults.Keys <= d.Keys
    ensures FillMissing(d, defaults) == d
  {
  }

  /** The value key `k` holds after the merge: defaults fill in one level deep. */
  function MergedValue(user: Mapping, defaults: Mapping, k: string): Value
    requires k in user.Keys + defaults.Keys
  {
    if k !in defaults then user[k]
    else if k !in user then defaults[k]
    else if defaults[k].Dict? && user[k].Dict? then Dict(FillMissing(user[k].entries, defaults[k].entries))
    else user[k]
  }

  /** What `setup` leaves in `_notify`, or None when the merge raises. */
  function Merge(user: Mapping, defaults: Mapping): (r: Option<Mapping>)
    ensures r.Some? ==> r.value.Keys == user.Keys + defaults.Keys
  {
    if exists k :: k in defaults && Clash(user, defaults, k) then None
    else Some(map k | k in user.Keys + defaults.Keys :: MergedValue(user, defaults, k))
  }

  /**
   * The loop of `setup`: for every default key, `conf[key] = conf.get(key, val)`
   * and, when the default is a dictionary, the same one level down. Python walks
   * the dictionaries in insertion order; here the keys are taken in any order,
   * which changes only which clashing key is reported.
   */
  method MergeDefaults(user: Mapping, defaults: Mapping) returns (r: Result<Mapping, string>)
    ensures r.Success? <==> Merge(user, defaults).Some?
    ensures r.Success? ==> r.value == Merge(user, defaults).value
    ensures r.Failure? ==> Clash(user, defaults, r.error)
  {
    var conf := user;
    var todo := defaults.Keys;
    while todo != {}
      invariant todo <= defaults.Keys
      invariant conf.Keys == user.Keys + (defaults.Keys - todo)
      invariant forall k :: k in conf ==>
        conf[k] == (if k in defaults && k !in todo then MergedValue(user, defaults, k) else user[k])
      invariant forall k :: k in defaults && k !in todo ==> !Clash(user, defaults, k)
      decreases todo
    {
      var key :| key in todo;
      var val := defaults[key];
      assert GetOr(conf, key, val) == GetOr(user, key, val);
      conf := conf[key := GetOr(conf, key, val)];
      if val.Dict? {
        if !conf[key].Dict? {
          // the first `get` of the inner loop raises; with no sub-keys it never runs
          if val.entries != map[] {
            assert Clash(user, defaults, key);
            return Failure(key);
          }
        } else {
          var sub := FillEntries(conf[key].entries, val.entries);
          FillMissingCovered(val.entries, val.entries);
          assert Dict(sub) == MergedValue(user, defaults, key);
          conf := conf[key := Dict(sub)];
        }
      }
      todo := todo - {key};
    }
    MergeOfFinishedLoop(user, defaults, conf);
    r := Success(conf);
  }

  /** When the loop of `setup` has visited every default key without raising, it has built `Merge`. */
  lemma MergeOfFinishedLoop(user: Mapping, defaults: Mapping, conf: Mapping)
    requires conf.Keys == user.Keys + defaults.Keys
    requires forall k :: k in conf ==> conf[k] == (if k in defaults then MergedValue(user, defaults, k) else user[k])
    requires forall k :: k in defaults ==> !Clash(user, defaults, k)
    ensures Merge(user, defaults) == Some(conf)
  {
    assert !(exists k :: k in defaults && Clash(user, defaults, k));
    var m := map k | k in user.Keys + defaults.Keys :: MergedValue(user, defaults, k);
    assert forall k :: k in conf ==> m[k] == conf[k];
    assert m == conf;
  }

  /** The inner loop of `setup`: `conf[key][k] = conf[key].get(k, v)` for every default sub-key. */
  method FillEntries(given: Mapping, defaults: Mapping) returns (sub: Mapping)
    ensures sub == FillMissing(given, defaults)
  {
    sub := given;
    var todo := defaults.Keys;
    while todo != {}
      invariant todo <= defaults.Keys
      invariant sub.Keys == given.Keys + (defaults.Keys - todo)
      invariant forall k :: k in sub ==> sub[k] == (if k in given then given[k] else defaults[k])
      decreases todo
    {
      var k :| k in todo;
      sub := sub[k := GetOr(sub, k, defaults[k])];
      todo := todo - {k};
    }
  }

  /** The `_notify` entry `setup` starts from: `config.get('_notify', {})`. */
  function NotifyOf(config: Mapping): Value {
    GetOr(config, "_notify", Dict(map[]))
  }

  /**
   * `setup(config)`: merges the `_notify` entry of the host's configuration with
   * DEFAULT_CONFIG and stores it back. Fails, naming the entry that has no `get`,
   * when `_notify` or its `when` is not a dictionary.
   */
  method Setup(config: Mapping) returns (r: Result<Mapping, string>)
    ensures r.Success? <==> NotifyOf(config).Dict? && Merge(NotifyOf(config).entries, DefaultConfig).Some?
    ensures r.Success? ==> r.value == config["_notify" := Dict(Merge(NotifyOf(config).entries, DefaultConfig).value)]
    ensures r.Failure? ==> r.error in {"_notify", "when"}
    ensures !NotifyOf(config).Dict? ==> r == Failure("_notify")
    ensures NotifyOf(config).Dict? && r.Failure? ==> r.error == "when"
  {
    var notify := NotifyOf(config);
    if !notify.Dict? {
      return Failure("_notify");
    }
    var merged := MergeDefaults(notify.entries, DefaultConfig);
    if merged.Failure? {
      OnlyWhenClashes(notify.entries, merged.error);
      return Failure(merged.error);
    }
    r := Success(config["_notify" := Dict(merged.value)]);
  }

  /** Of DEFAULT_CONFIG's keys only `when` holds a dictionary. */
  lemma OnlyWhenClashes(user: Mapping, k: string)
    requires Clash(user, DefaultConfig, k)
    ensures k == "when"
  {
  }

  /** `setup` raises exactly when the user's `when` is present and not a dictionary. */
  lemma MergeFailsIff(user: Mapping)
    ensures Merge(user, DefaultConfig).None? <==> "when" in user && !user["when"].Dict?
  {
    if Merge(user, DefaultConfig).None? {
      var k :| k in DefaultConfig && Clash(user, DefaultConfig, k);
      OnlyWhenClashes(user, k);
    } else {
      assert DefaultWhen["pipeline"] == Str("abe");
      assert !Clash(user, DefaultConfig, "when");
    }
  }

  /**
   * After the merge every default key is present and `when` is a dictionary
   * with every default sub-key; what the user gave, top-level or inside
   * `when`, is kept; missing entries take the default; nothing else is added.
   */
  lemma MergeFillsWithoutOverwriting(user: Mapping)
    requires Merge(user, DefaultConfig).Some?
    ensures var m := Merge(user, DefaultConfig).value;
      && m.Keys == user.Keys + DefaultConfig.Keys
      && m["when"].Dict? && m["when"].entries.Keys == GetOr(user, "when", Dict(map[])).entries.Keys + DefaultWhen.Keys
      && (forall k :: k in user && k != "when" ==> m[k] == user[k])
      && (forall k :: k in DefaultConfig && k !in user ==> m[k] == DefaultConfig[k])
      && (forall j :: j in GetOr(user, "when", Dict(map[])).entries ==> m["when"].entries[j] == user["when"].entries[j])
      && (forall j :: j in DefaultWhen && j !in GetOr(user, "when", Dict(map[])).entries ==> m["when"].entries[j] == DefaultWhen[j])
  {
    MergeFailsIff(user);
  }

  /** Running `setup` on its own output changes nothing. */
  lemma MergeIdempotent(user: Mapping, defaults: Mapping)
    requires Merge(user, defaults).Some?
    ensures Merge(Merge(user, defaults).value, defaults) == Merge(user, defaults)
  {
    var m := Merge(user, defaults).value;
    forall k | k in defaults
      ensures !Clash(m, defaults, k)
    {
      assert !Clash(user, defaults, k);
    }
    forall k | k in m
      ensures MergedValue(m, defaults, k) == m[k]
    {
      if k in defaults && defaults[k].Dict? {
        if k in user && user[k].Dict? {
          FillMissingTwice(user[k].entries, defaults[k].entries);
        } else if k !in user {
          FillMissingCovered(defaults[k].entries, defaults[k].entries);
        }
      }
    }
    assert m.Keys + defaults.Keys == m.Keys;
    assert (map k | k in m.Keys + defaults.Keys :: MergedValue(m, defaults, k)) == m;
  }

  /** Filling twice from the same defaults is filling once. */
  lemma FillMissingTwice(d: Mapping, defaults: Mapping)
    ensures FillMissing(FillMissing(d, defaults), defaults) == FillMissing(d, defaults)
  {
  }

  /** With an empty `_notify` the result is DEFAULT_CONFIG itself. */
  lemma MergeOfNothing()
    ensures Merge(map[], DefaultConfig) == Some(DefaultConfig)
    ensures DefaultConfig["port"] == Int(25) && DefaultConfig["server"] == Str("localhost")
    ensures DefaultConfig["ssl"] == Bool(false) && DefaultWhen["job"] == Str("")
  {
    MergeFailsIff(map[]);
    var m := Merge(map[], DefaultConfig).value;
    FillMissingCovered(DefaultWhen, DefaultWhen);
    assert m.Keys == DefaultConfig.Keys;
    assert forall k :: k in DefaultConfig ==> m[k] == DefaultConfig[k];
    assert m == DefaultConfig;
  }

  /** The partial configuration of the example below: a recipient and `when.pipeline`. */
  const PartialUser: Mapping := map["to" := List([Str("a@x.com")]), "when" := Dict(map["pipeline" := Str("be")])]

  /** That user keeps their recipient and gets the default transport settings. */
  lemma MergeOfPartialUser()
    ensures Merge(PartialUser, DefaultConfig).Some?
    ensures var m := Merge(PartialUser, DefaultConfig).value;
      && m["ssl"] == Bool(false) && m["port"] == Int(25) && m["server"] == Str("localhost")
      && m["to"] == List([Str("a@x.com")]) && m["from"] == Str("pyppl-notify@no-reply.info")
  {
    assert Merge(PartialUser, DefaultConfig).Some? by {
      MergeFailsIff(PartialUser);
    }
    var m := Merge(PartialUser, DefaultConfig).value;
    assert m["ssl"] == MergedValue(PartialUser, DefaultConfig, "ssl");
    assert m["port"] == MergedValue(PartialUser, DefaultConfig, "port");
    assert m["server"] == MergedValue(PartialUser, DefaultConfig, "server");
    assert m["to"] == MergedValue(PartialUser, DefaultConfig, "to");
    assert m["from"] == MergedValue(PartialUser, DefaultConfig, "from");
  }

  /** That user's `when.pipeline` is kept and the other two policies default. */
  lemma MergeOfPartialUserWhen()
    ensures Merge(PartialUser, DefaultConfig).Some?
    ensures Merge(PartialUser, DefaultConfig).value["when"]
      == Dict(map["pipeline" := Str("be"), "proc" := Str("abe"), "job" := Str("")])
  {
    assert Merge(PartialUser, DefaultConfig).Some? by {
      MergeFailsIff(PartialUser);
    }
    var m := Merge(PartialUser, DefaultConfig).value;
    assert m["when"] == MergedValue(PartialUser, DefaultConfig, "when");
    PartialWhenFilled();
  }

  /** Filling `pipeline = "be"` from the default `when`. */
  lemma PartialWhenFilled()
    ensures FillMissing(map["pipeline" := Str("be")], DefaultWhen)
      == map["pipeline" := Str("be"), "proc" := Str("abe"), "job" := Str("")]
  {
    var w := FillMissing(map["pipeline" := Str("be")], DefaultWhen);
    assert w.Keys == {"pipeline", "proc", "job"};
  }
}
