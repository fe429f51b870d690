/**
 * The layered configuration (src/config.py): built-in defaults, then the
 * configuration file merged over them, then environment variables. The
 * configuration is a JSON object; dot paths address nested dicts. The file
 * system and the process environment are parameters.
 */
module Configuration {
  import opened Wrappers
  import opened Errors
  import opened Json
  import Strings

  /** `_get_default_config()` */
  function Defaults(): Object {
    map[
      "server" := Obj(map[
        "port" := Int(8000),
        "log_level" := Str("INFO"),
        "timeout" := Int(30),
        "max_retries" := Int(3)]),
      "agiloft" := Obj(map[
        "base_url" := Str("https://agiloft160371.saas.agiloft.com/ewws/alrest/Agiloft Demo70"),
        "username" := Str("admin"),
        "kb" := Str("Agiloft Demo70"),
        "language" := Str("en"),
        "password" := Str("")])]
  }

  // ---------------------------------------------------------------------
  // Merging
  // ---------------------------------------------------------------------

  /** `_merge_config(base, override)`: where both sides hold a dict the
      merge recurses; otherwise the override's value replaces the base's;
      keys only in the base survive. */
  function Merge(base: Object, over: Object): (r: Object)
    ensures r.Keys == base.Keys + over.Keys
    ensures forall k :: k in base && k !in over ==> r[k] == base[k]
    ensures forall k :: k in over && !(k in base && base[k].Obj? && over[k].Obj?) ==> r[k] == over[k]
    ensures forall k :: k in over && k in base && base[k].Obj? && over[k].Obj? ==>
      r[k].Obj? && r[k].fields.Keys == base[k].fields.Keys + over[k].fields.Keys
    decreases Obj(over)
  {
    map k | k in base.Keys + over.Keys ::
      if k !in over then base[k]
      else if k in base && base[k].Obj? && over[k].Obj? then
        assert over[k] in over.Values;
        Obj(Merge(base[k].fields, over[k].fields))
      else over[k]
  }

  /** Merging the same override twice changes nothing the first merge did
      not: the merge is idempotent in its override. */
  lemma {:induction false} MergeIdempotent(base: Object, over: Object)
    ensures Merge(Merge(base, over), over) == Merge(base, over)
    decreases Obj(over)
  {
    var m := Merge(base, over);
    var mm := Merge(m, over);
    forall k | k in mm
      ensures mm[k] == m[k]
    {
      if k in over && over[k].Obj? {
        assert over[k] in over.Values;
        if k in base && base[k].Obj? {
          MergeIdempotent(base[k].fields, over[k].fields);
        } else {
          MergeSelf(over[k].fields);
        }
      }
    }
  }

  /** A dict merged over itself is itself. */
  lemma {:induction false} MergeSelf(d: Object)
    ensures Merge(d, d) == d
    decreases Obj(d)
  {
    forall k | k in d
      ensures Merge(d, d)[k] == d[k]
    {
      if d[k].Obj? {
        assert d[k] in d.Values;
        MergeSelf(d[k].fields);
      }
    }
  }

  /** Along any path the override reaches with a non-dict value, the merge
      reads the override's value. */
  lemma {:induction false} MergeOverrideWins(base: Object, over: Object, keys: seq<string>, v: Value)
    requires Walk(Obj(over), keys) == Some(v) && !v.Obj?
    ensures Walk(Obj(Merge(base, over)), keys) == Some(v)
    decreases |keys|
  {
    if |keys| > 0 {
      var k := keys[0];
      var r := Merge(base, over);
      if k in base && base[k].Obj? && over[k].Obj? {
        assert over[k] in over.Values;
        assert r[k] == Obj(Merge(base[k].fields, over[k].fields));
        MergeOverrideWins(base[k].fields, over[k].fields, keys[1..], v);
      } else {
        assert r[k] == over[k];
      }
    }
  }

  /** A top-level key the override does not mention keeps every value the
      base holds under it. */
  lemma MergeBaseSurvives(base: Object, over: Object, keys: seq<string>)
    requires |keys| > 0 && keys[0] !in over
    ensures Walk(Obj(Merge(base, over)), keys) == Walk(Obj(base), keys)
  {
  }

  /** An empty override leaves the base as it is. */
  lemma MergeEmpty(base: Object)
    ensures Merge(base, map[]) == base
  {
  }

  // ---------------------------------------------------------------------
  // Dot paths
  // ---------------------------------------------------------------------

  /** `path.split('.')` */
  function Keys(path: string): (r: seq<string>)
    ensures |r| >= 1
  {
    Strings.Split(path, '.')
  }

  /** Following keys from a value: each step needs a dict holding the key
      (a missing key is a KeyError, a non-dict a TypeError: both end the walk). */
  function Walk(v: Value, keys: seq<string>): Option<Value> {
    if |keys| == 0 then Some(v)
    else if v.Obj? && keys[0] in v.fields then Walk(v.fields[keys[0]], keys[1..])
    else None
  }

  /** `get(path, default)` */
  function Get(data: Object, path: string, default: Value): Value {
    Walk(Obj(data), Keys(path)).GetOr(default)
  }

  /** Some step before the last key lands on something that is not a dict,
      so assigning through the path raises a TypeError. */
  predicate Blocked(d: Object, keys: seq<string>)
    decreases |keys|
  {
    && |keys| > 1 && keys[0] in d
    && (!d[keys[0]].Obj? || Blocked(d[keys[0]].fields, keys[1..]))
  }

  /** Assignment along a key path: missing intermediate dicts are created,
      an intermediate that is not a dict is a TypeError. */
  function SetIn(d: Object, keys: seq<string>, value: Value): (r: Result<Object, Error>)
    requires |keys| >= 1
    ensures r.Err? <==> Blocked(d, keys)
    ensures r.Err? ==> r.error == Builtin(TypeError)
    ensures r.Ok? ==> r.value.Keys == d.Keys + {keys[0]}
    ensures r.Ok? ==> forall k :: k in d && k != keys[0] ==> r.value[k] == d[k]
    decreases |keys|
  {
    if |keys| == 1 then Ok(d[keys[0] := value])
    else
      var child := if keys[0] in d then d[keys[0]] else Obj(map[]);
      if !child.Obj? then Err(Builtin(TypeError))
      else
        match SetIn(child.fields, keys[1..], value)
        case Err(e) => Err(e)
        case Ok(c) => Ok(d[keys[0] := Obj(c)])
  }

  /** What was set can be read back. */
  lemma {:induction false} SetInThenWalk(d: Object, keys: seq<string>, value: Value)
    requires |keys| >= 1 && SetIn(d, keys, value).Ok?
    ensures Walk(Obj(SetIn(d, keys, value).value), keys) == Some(value)
    decreases |keys|
  {
    var r := SetIn(d, keys, value).value;
    if |keys| > 1 {
      var child := if keys[0] in d then d[keys[0]] else Obj(map[]);
      SetInThenWalk(child.fields, keys[1..], value);
      assert r[keys[0]] == Obj(SetIn(child.fields, keys[1..], value).value);
    }
  }

  /** `keys2` leaves `keys` at some position both have. */
  predicate Diverge(keys: seq<string>, keys2: seq<string>) {
    exists i :: 0 <= i < |keys| && i < |keys2| && keys[i] != keys2[i]
  }

  /** A path that leaves the assigned one reads what it read before. */
  lemma {:induction false} SetInKeepsOthers(d: Object, keys: seq<string>, value: Value, keys2: seq<string>)
    requires |keys| >= 1 && SetIn(d, keys, value).Ok?
    requires Diverge(keys, keys2)
    ensures Walk(Obj(SetIn(d, keys, value).value), keys2) == Walk(Obj(d), keys2)
    decreases |keys|
  {
    var r := SetIn(d, keys, value).value;
    var i :| 0 <= i < |keys| && i < |keys2| && keys[i] != keys2[i];
    if keys2[0] != keys[0] {
      assert keys2[0] in r <==> keys2[0] in d;
    } else {
      assert i > 0 && |keys| > 1;
      var child := if keys[0] in d then d[keys[0]] else Obj(map[]);
      assert keys[1..][i - 1] != keys2[1..][i - 1];
      SetInKeepsOthers(child.fields, keys[1..], value, keys2[1..]);
      assert r[keys[0]] == Obj(SetIn(child.fields, keys[1..], value).value);
      if keys[0] !in d {
        FreshWalk(keys[1..], value, keys2[1..]);
      }
    }
  }

  /** In the dicts created along a fresh path only that path is readable. */
  lemma {:induction false} FreshWalk(keys: seq<string>, value: Value, keys2: seq<string>)
    requires |keys| >= 1 && Diverge(keys, keys2)
    ensures SetIn(map[], keys, value).Ok?
    ensures Walk(Obj(SetIn(map[], keys, value).value), keys2).None?
    decreases |keys|
  {
    var i :| 0 <= i < |keys| && i < |keys2| && keys[i] != keys2[i];
    if |keys| > 1 {
      if keys2[0] == keys[0] {
        assert keys[1..][i - 1] != keys2[1..][i - 1];
        FreshWalk(keys[1..], value, keys2[1..]);
      } else {
        assert SetIn(map[], keys, value).Ok?;
      }
    }
  }

  /** `set(path, value)` */
  function Set(data: Object, path: string, value: Value): (r: Result<Object, Error>)
    ensures r.Err? <==> Blocked(data, Keys(path))
  {
    SetIn(data, Keys(path), value)
  }

  /** After `set(p, v)`, `get(p)` is `v`, whatever the default. */
  lemma SetThenGet(data: Object, path: string, value: Value, default: Value)
    requires Set(data, path, value).Ok?
    ensures Get(Set(data, path, value).value, path, default) == value
  {
    SetInThenWalk(data, Keys(path), value);
  }

  /** After `set(p, v)`, a path that leaves `p` reads what it read before. */
  lemma SetKeepsOtherPaths(data: Object, path: string, value: Value, other: string, default: Value)
    requires Set(data, path, value).Ok?
    requires Diverge(Keys(path), Keys(other))
    ensures Get(Set(data, path, value).value, other, default) == Get(data, other, default)
  {
    SetInKeepsOthers(data, Keys(path), value, Keys(other));
  }

  // ---------------------------------------------------------------------
  // Environment
  // ---------------------------------------------------------------------

  /** `_convert_type(value, existing)`: the environment string takes the type
      of the value it replaces. Bool is checked before int, so a flag is
      never parsed as a number. Floats are not part of this model. */
  function ConvertType(value: string, existing: Value): (r: Result<Value, Error>)
    ensures existing.Null? || existing.Str? || existing.Arr? || existing.Obj? ==> r == Ok(Str(value))
    ensures existing.Bool? ==>
      r == Ok(Bool(Strings.Lower(value) in ["true", "1", "yes", "on"]))
    ensures existing.Int? ==> (r.Ok? <==> Strings.ParseInt(value).Some?)
    ensures existing.Int? && r.Ok? ==> r == Ok(Int(Strings.ParseInt(value).value))
    ensures existing.Int? && r.Err? ==> r.error == Builtin(ValueError)
  {
    match existing
    case Null => Ok(Str(value))
    case Bool(_) => Ok(Bool(Strings.Lower(value) in ["true", "1", "yes", "on"]))
    case Int(_) =>
      (match Strings.ParseInt(value)
       case Some(n) => Ok(Int(n))
       case None => Err(Builtin(ValueError)))
    case _ => Ok(Str(value))
  }

  /** A number written by `str` is read back as that number. */
  lemma ConvertIntRoundTrip(n: int, existing: int)
    ensures ConvertType(Strings.IntToString(n), Int(existing)) == Ok(Int(n))
  {
    Strings.ParseIntToString(n);
  }

  /** The path is blocked exactly at the parent of its last key: every
      earlier level is a dict, and the parent is present but is not one. */
  predicate FinalParentNotDict(d: Object, keys: seq<string>)
    decreases |keys|
  {
    && |keys| > 1 && keys[0] in d
    && if |keys| == 2 then !d[keys[0]].Obj?
       else d[keys[0]].Obj? && FinalParentNotDict(d[keys[0]].fields, keys[1..])
  }

  /** `_set_nested_value(path, value)`: like `set`, but the value is first
      converted to the type of the one it replaces. Reading that value with
      `current.get(final_key)` on a parent that is not a dict raises
      AttributeError; a non-dict met earlier on the path raises TypeError in
      the navigation loop. */
  function SetFromEnv(d: Object, keys: seq<string>, value: string): (r: Result<Object, Error>)
    requires |keys| >= 1
    ensures Blocked(d, keys) ==>
      r == Err(Builtin(if FinalParentNotDict(d, keys) then AttributeError else TypeError))
    ensures !Blocked(d, keys) ==>
      var existing := Walk(Obj(d), keys).GetOr(Null);
      && (r.Ok? <==> ConvertType(value, existing).Ok?)
      && (r.Ok? ==> r == SetIn(d, keys, ConvertType(value, existing).value))
    decreases |keys|
  {
    if |keys| == 1 then
      var existing := if keys[0] in d then d[keys[0]] else Null;
      match ConvertType(value, existing)
      case Err(e) => Err(e)
      case Ok(v) => Ok(d[keys[0] := v])
    else
      var child := if keys[0] in d then d[keys[0]] else Obj(map[]);
      if !child.Obj? then Err(Builtin(if |keys| == 2 then AttributeError else TypeError))
      else
        match SetFromEnv(child.fields, keys[1..], value)
        case Err(e) => Err(e)
        case Ok(c) => Ok(d[keys[0] := Obj(c)])
  }

  /** On a two-key path every block is at the final parent, so the
      environment layer can only fail there with AttributeError. */
  lemma TwoKeyBlockIsAttributeError(d: Object, keys: seq<string>, value: string)
    requires |keys| == 2 && Blocked(d, keys)
    ensures SetFromEnv(d, keys, value) == Err(Builtin(AttributeError))
  {
  }

  /** One entry of the environment mapping: a variable and the
      `section.key` path it sets. */
  datatype EnvMapping = EnvMapping(variable: string, section: string, key: string)

  /** The dot path of a key inside a section. */
  function Field(section: string, key: string): string {
    section + "." + key
  }

  function PathOf(m: EnvMapping): string {
    Field(m.section, m.key)
  }

  /** A dot path of a dot-free section and key splits back into the two. */
  lemma FieldKeys(section: string, key: string)
    requires '.' !in section && '.' !in key
    ensures Keys(Field(section, key)) == [section, key]
  {
    Strings.SplitHead(section, '.', key);
    Strings.SplitNoSeparator(key, '.');
  }

  /** `env_mappings`, in order. */
  const EnvMappings: seq<EnvMapping> := [
    EnvMapping("AGILOFT_BASE_URL", "agiloft", "base_url"),
    EnvMapping("AGILOFT_USERNAME", "agiloft", "username"),
    EnvMapping("AGILOFT_PASSWORD", "agiloft", "password"),
    EnvMapping("AGILOFT_KB", "agiloft", "kb"),
    EnvMapping("AGILOFT_LANGUAGE", "agiloft", "language"),
    EnvMapping("MCP_SERVER_PORT", "server", "port"),
    EnvMapping("MCP_LOG_LEVEL", "server", "log_level"),
    EnvMapping("MCP_TIMEOUT", "server", "timeout"),
    EnvMapping("MCP_MAX_RETRIES", "server", "max_retries")]

  /** The environment: `os.getenv`. */
  type Environment = string -> Option<string>

  /** `_load_from_environment` over the given mappings, in order: each
      variable that is set overrides its path. */
  function ApplyEnv(d: Object, ms: seq<EnvMapping>, env: Environment): (r: Result<Object, Error>)
    ensures (forall i :: 0 <= i < |ms| ==> env(ms[i].variable).None?) ==> r == Ok(d)
    decreases |ms|
  {
    if |ms| == 0 then Ok(d)
    else
      var next := match env(ms[0].variable)
        case None => Ok(d)
        case Some(v) => SetFromEnv(d, Keys(PathOf(ms[0])), v);
      match next
      case Err(e) => Err(e)
      case Ok(d1) => ApplyEnv(d1, ms[1..], env)
  }

  /** A mapping's path splits into its section and key. */
  lemma PathKeys(m: EnvMapping)
    requires '.' !in m.section && '.' !in m.key
    ensures Keys(PathOf(m)) == [m.section, m.key]
  {
    FieldKeys(m.section, m.key);
  }

  /** Every path is a dot-free section and a dot-free key, and no two
      mappings share a path. */
  predicate WellFormed(ms: seq<EnvMapping>) {
    && (forall i :: 0 <= i < |ms| ==> '.' !in ms[i].section && '.' !in ms[i].key)
    && (forall i, j :: 0 <= i < j < |ms| ==> (ms[i].section, ms[i].key) != (ms[j].section, ms[j].key))
  }

  lemma WellFormedTail(ms: seq<EnvMapping>)
    requires |ms| > 0 && WellFormed(ms)
    ensures WellFormed(ms[1..])
  {
    forall i, j | 0 <= i < j < |ms| - 1
      ensures (ms[1..][i].section, ms[1..][i].key) != (ms[1..][j].section, ms[1..][j].key)
    {
      assert ms[1..][i] == ms[i + 1] && ms[1..][j] == ms[j + 1];
    }
  }

  /** Two different mappings' paths leave each other. */
  lemma PathsDiverge(ms: seq<EnvMapping>, i: int, j: int)
    requires WellFormed(ms) && 0 <= i < |ms| && 0 <= j < |ms| && i != j
    ensures Diverge(Keys(PathOf(ms[i])), Keys(PathOf(ms[j])))
  {
    PathKeys(ms[i]);
    PathKeys(ms[j]);
    if i < j {
      assert (ms[i].section, ms[i].key) != (ms[j].section, ms[j].key);
    } else {
      assert (ms[j].section, ms[j].key) != (ms[i].section, ms[i].key);
    }
    if ms[i].section == ms[j].section {
      assert ms[i].key != ms[j].key;
      assert Keys(PathOf(ms[i]))[1] != Keys(PathOf(ms[j]))[1];
    } else {
      assert Keys(PathOf(ms[i]))[0] != Keys(PathOf(ms[j]))[0];
    }
  }

  /** A path that leaves every overridden path keeps what it read. */
  lemma {:induction false} ApplyEnvKeeps(d: Object, ms: seq<EnvMapping>, env: Environment, keys2: seq<string>)
    requires ApplyEnv(d, ms, env).Ok?
    requires forall i :: 0 <= i < |ms| && env(ms[i].variable).Some? ==> Diverge(Keys(PathOf(ms[i])), keys2)
    ensures Walk(Obj(ApplyEnv(d, ms, env).value), keys2) == Walk(Obj(d), keys2)
    decreases |ms|
  {
    if |ms| > 0 {
      var d1 := d;
      if env(ms[0].variable).Some? {
        var keys := Keys(PathOf(ms[0]));
        d1 := SetFromEnv(d, keys, env(ms[0].variable).value).value;
        var existing := Walk(Obj(d), keys).GetOr(Null);
        SetInKeepsOthers(d, keys, ConvertType(env(ms[0].variable).value, existing).value, keys2);
      }
      assert ApplyEnv(d, ms, env) == ApplyEnv(d1, ms[1..], env);
      forall i | 0 <= i < |ms| - 1 && env(ms[1..][i].variable).Some?
        ensures Diverge(Keys(PathOf(ms[1..][i])), keys2)
      {
        assert ms[1..][i] == ms[i + 1];
      }
      ApplyEnvKeeps(d1, ms[1..], env, keys2);
    }
  }

  /** A variable that is set decides its path: the result holds the variable's
      text converted to the type of the value the path held before. */
  lemma {:induction false} ApplyEnvSets(d: Object, ms: seq<EnvMapping>, env: Environment, j: int)
    requires WellFormed(ms) && 0 <= j < |ms| && env(ms[j].variable).Some?
    requires ApplyEnv(d, ms, env).Ok?
    ensures var keys := Keys(PathOf(ms[j]));
      var conv := ConvertType(env(ms[j].variable).value, Walk(Obj(d), keys).GetOr(Null));
      conv.Ok? && Walk(Obj(ApplyEnv(d, ms, env).value), keys) == Some(conv.value)
    decreases |ms|
  {
    var keys := Keys(PathOf(ms[j]));
    var d1 := d;
    if env(ms[0].variable).Some? {
      var keys0 := Keys(PathOf(ms[0]));
      d1 := SetFromEnv(d, keys0, env(ms[0].variable).value).value;
      var existing := Walk(Obj(d), keys0).GetOr(Null);
      var v := ConvertType(env(ms[0].variable).value, existing).value;
      if j == 0 {
        SetInThenWalk(d, keys0, v);
      } else {
        PathsDiverge(ms, 0, j);
        SetInKeepsOthers(d, keys0, v, keys);
      }
    }
    assert ApplyEnv(d, ms, env) == ApplyEnv(d1, ms[1..], env);
    WellFormedTail(ms);
    if j == 0 {
      forall i | 0 <= i < |ms| - 1 && env(ms[1..][i].variable).Some?
        ensures Diverge(Keys(PathOf(ms[1..][i])), keys)
      {
        assert ms[1..][i] == ms[i + 1];
        PathsDiverge(ms, i + 1, 0);
        DivergeSymmetric(keys, Keys(PathOf(ms[i + 1])));
      }
      ApplyEnvKeeps(d1, ms[1..], env, keys);
    } else {
      assert ms[1..][j - 1] == ms[j];
      ApplyEnvSets(d1, ms[1..], env, j - 1);
    }
  }

  lemma DivergeSymmetric(a: seq<string>, b: seq<string>)
    requires Diverge(a, b)
    ensures Diverge(b, a)
  {
    var i :| 0 <= i < |a| && i < |b| && a[i] != b[i];
    assert b[i] != a[i];
  }

  /** The shipped mappings are well formed, and each path is the two keys
      it names. */
  lemma EnvMappingsWellFormed()
    ensures WellFormed(EnvMappings)
  {
    forall i | 0 <= i < |EnvMappings|
      ensures '.' !in EnvMappings[i].section && '.' !in EnvMappings[i].key
    {
    }
    forall i, j | 0 <= i < j < |EnvMappings|
      ensures (EnvMappings[i].section, EnvMappings[i].key) != (EnvMappings[j].section, EnvMappings[j].key)
    {
      if i < 5 <= j {
        assert |EnvMappings[i].section| != |EnvMappings[j].section|;
      } else {
        assert EnvMappings[i].key != EnvMappings[j].key;
      }
    }
  }

  // ---------------------------------------------------------------------
  // Loading
  // ---------------------------------------------------------------------

  /** The configuration file as `_load_config` finds it: absent, unreadable
      or not JSON (with the reason), or parsed. */
  datatype ConfigFile = Absent | Broken(reason: string) | Parsed(content: Value)

  /** The object the file layer leaves: the defaults, merged with the file
      when there is one. A file that parses to something other than a dict
      fails in the merge (it has no `.items()`). */
  function FileLayer(path: string, file: ConfigFile): (r: Result<Object, Error>)
    ensures file.Absent? ==> r == Ok(Defaults())
    ensures file.Broken? ==> r == Err(Config("Invalid configuration file " + path + ": " + file.reason))
    ensures file.Parsed? && file.content.Obj? ==> r == Ok(Merge(Defaults(), file.content.fields))
    ensures file.Parsed? && !file.content.Obj? ==> r == Err(Builtin(AttributeError))
  {
    match file
    case Absent => Ok(Defaults())
    case Broken(reason) => Err(Config("Invalid configuration file " + path + ": " + reason))
    case Parsed(content) =>
      if content.Obj? then Ok(Merge(Defaults(), content.fields)) else Err(Builtin(AttributeError))
  }

  /** `Config(config_file)`: defaults, then the file, then the environment. */
  function Load(path: string, file: ConfigFile, env: Environment): (r: Result<Object, Error>)
    ensures FileLayer(path, file).Err? ==> r == Err(FileLayer(path, file).error)
    ensures FileLayer(path, file).Ok? ==> r == ApplyEnv(FileLayer(path, file).value, EnvMappings, env)
  {
    match FileLayer(path, file)
    case Err(e) => Err(e)
    case Ok(d) => ApplyEnv(d, EnvMappings, env)
  }

  /** The file beats the defaults: a non-dict value the file holds at a
      path is what the file layer reads there. */
  lemma FileBeatsDefaults(path: string, fields: Object, keys: seq<string>, v: Value)
    requires Walk(Obj(fields), keys) == Some(v) && !v.Obj?
    ensures FileLayer(path, Parsed(Obj(fields))) == Ok(Merge(Defaults(), fields))
    ensures Walk(Obj(FileLayer(path, Parsed(Obj(fields))).value), keys) == Some(v)
  {
    MergeOverrideWins(Defaults(), fields, keys, v);
  }

  /** The environment beats the file: a variable that is set decides its
      path, converted to the type of what the file layer held there. */
  lemma EnvBeatsFile(path: string, file: ConfigFile, env: Environment, j: int, default: Value)
    requires 0 <= j < |EnvMappings| && env(EnvMappings[j].variable).Some?
    requires Load(path, file, env).Ok?
    ensures FileLayer(path, file).Ok?
    ensures var before := Get(FileLayer(path, file).value, PathOf(EnvMappings[j]), Null);
      var conv := ConvertType(env(EnvMappings[j].variable).value, before);
      conv.Ok? && Get(Load(path, file, env).value, PathOf(EnvMappings[j]), default) == conv.value
  {
    EnvMappingsWellFormed();
    ApplyEnvSets(FileLayer(path, file).value, EnvMappings, env, j);
  }

  /** A variable that is not set leaves its path as the file layer had it. */
  lemma UnsetKeepsFile(path: string, file: ConfigFile, env: Environment, j: int, default: Value)
    requires 0 <= j < |EnvMappings| && env(EnvMappings[j].variable).None?
    requires Load(path, file, env).Ok?
    ensures FileLayer(path, file).Ok?
    ensures Get(Load(path, file, env).value, PathOf(EnvMappings[j]), default)
         == Get(FileLayer(path, file).value, PathOf(EnvMappings[j]), default)
  {
    EnvMappingsWellFormed();
    var keys := Keys(PathOf(EnvMappings[j]));
    forall i | 0 <= i < |EnvMappings| && env(EnvMappings[i].variable).Some?
      ensures Diverge(Keys(PathOf(EnvMappings[i])), keys)
    {
      PathsDiverge(EnvMappings, i, j);
    }
    ApplyEnvKeeps(FileLayer(path, file).value, EnvMappings, env, keys);
  }

  // ---------------------------------------------------------------------
  // Validation and display
  // ---------------------------------------------------------------------

  /** Reading a two-key path looks up the section, then the key in it. */
  lemma GetField(data: Object, section: string, key: string, default: Value)
    requires '.' !in section && '.' !in key
    ensures Get(data, Field(section, key), default) ==
      if section in data && data[section].Obj? && key in data[section].fields
      then data[section].fields[key] else default
  {
    FieldKeys(section, key);
    var keys := [section, key];
    assert keys[1..] == [key] && [key][1..] == [];
    if section in data {
      var v := data[section];
      assert Walk(Obj(data), keys) == Walk(v, [key]);
      if v.Obj? && key in v.fields {
        assert Walk(v, [key]) == Walk(v.fields[key], []);
      }
    }
  }

  /** The settings `validate` insists on. */
  const RequiredFields: seq<string> := [
    Field("agiloft", "base_url"), Field("agiloft", "username"),
    Field("agiloft", "password"), Field("agiloft", "kb")]

  /** The listed fields whose value is missing or falsy, in order. */
  function MissingFields(data: Object, fields: seq<string>): (r: seq<string>)
    ensures forall f :: f in r <==> f in fields && !Truthy(Get(data, f, Null))
  {
    if |fields| == 0 then []
    else (if Truthy(Get(data, fields[0], Null)) then [] else [fields[0]]) + MissingFields(data, fields[1..])
  }

  /** `validate()` */
  function Validate(data: Object): (r: bool)
    ensures r <==> forall i :: 0 <= i < |RequiredFields| ==> Truthy(Get(data, RequiredFields[i], Null))
  {
    var missing := MissingFields(data, RequiredFields);
    assert forall i :: 0 <= i < |RequiredFields| ==> (RequiredFields[i] in missing <==> !Truthy(Get(data, RequiredFields[i], Null)));
    if |missing| > 0 then
      assert missing[0] in missing;
      false
    else true
  }

  /** The built-in defaults do not validate: the password is empty. */
  lemma DefaultsNeedPassword()
    ensures !Validate(Defaults())
  {
    assert !Truthy(Get(Defaults(), RequiredFields[2], Null)) by {
      DefaultPassword();
      assert RequiredFields[2] == Field("agiloft", "password");
    }
  }

  /** The default password is the empty string. */
  lemma DefaultPassword()
    ensures Get(Defaults(), Field("agiloft", "password"), Null) == Str("")
  {
    GetField(Defaults(), "agiloft", "password", Null);
  }

  /** The text that replaces the password in `str(config)`. */
  const Masked: string := "***masked***"

  /** The key test on a non-dict `agiloft` raises, or says yes and the
      assignment then raises. */
  predicate MaskFails(data: Object) {
    && "agiloft" in data
    && (|| PyIn("password", data["agiloft"]).None?
        || (PyIn("password", data["agiloft"]) == Some(true) && !data["agiloft"].Obj?))
  }

  /** `__str__`: the configuration shown with the password masked, and the
      live configuration afterwards. `to_dict` copies only the top level, so
      the masking writes into the live `agiloft` dict as well: the live
      password is lost. A non-dict `agiloft` makes the key test or the
      assignment raise. */
  function Describe(data: Object): (r: (Result<Object, Error>, Object))
    ensures r.0.Ok? ==> r.0.value == r.1
    ensures r.0.Err? <==> MaskFails(data)
    ensures "agiloft" in data && data["agiloft"].Obj? && "password" in data["agiloft"].fields ==>
      r.0.Ok? && r.1 == data["agiloft" := Obj(data["agiloft"].fields["password" := Str(Masked)])]
    ensures "agiloft" !in data ==> r == (Ok(data), data)
    ensures r.0.Err? ==> r.1 == data
  {
    if "agiloft" !in data then (Ok(data), data)
    else
      var section := data["agiloft"];
      match PyIn("password", section)
      case None => (Err(Builtin(TypeError)), data)
      case Some(false) => (Ok(data), data)
      case Some(true) =>
        if !section.Obj? then (Err(Builtin(TypeError)), data)
        else
          var masked := data["agiloft" := Obj(section.fields["password" := Str(Masked)])];
          (Ok(masked), masked)
  }

  /** Printing a loaded configuration overwrites its live password, so a
      client built from it afterwards would log in with the mask. */
  lemma DescribeClobbersPassword(data: Object)
    requires "agiloft" in data && data["agiloft"].Obj? && "password" in data["agiloft"].fields
    ensures Get(Describe(data).1, Field("agiloft", "password"), Null) == Str(Masked)
  {
    GetField(Describe(data).1, "agiloft", "password", Null);
  }
}
