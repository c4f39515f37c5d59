/** Property maps and the lookups the container performs on them.

    A resource's properties are a `map<string, string>`. The container's
    configuration is kept as a sequence of entries with distinct keys, so that
    the order in which the configuration is iterated is part of the model. Java
    maps may hold null values; these maps do not. */
module PropertyUtil {
  import opened Results
  import Text

  /** Why a container operation failed. */
  datatype Error =
    | RequiredPropertyMissing(key: string)  // `getRequiredNotNull` found no value
    | PropertyNotFound(key: string)         // `checkAndGetProperty` found no key
    | ScaleOutFailed(reason: string)        // the backend could not create the worker

  predicate DistinctKeys(entries: seq<(string, string)>) {
    forall i, j :: 0 <= i < j < |entries| ==> entries[i].0 != entries[j].0
  }

  /** A configuration map together with its iteration order. */
  type Config = entries: seq<(string, string)> | DistinctKeys(entries) witness []

  predicate HasKey(cfg: seq<(string, string)>, key: string) {
    exists i :: 0 <= i < |cfg| && cfg[i].0 == key
  }

  /** `cfg.get(key)`: the value of the first entry with that key, or null. */
  function Lookup(cfg: seq<(string, string)>, key: string): (r: Option<string>)
    ensures r.Some? <==> HasKey(cfg, key)
    ensures r.Some? ==> exists i :: 0 <= i < |cfg| && cfg[i] == (key, r.value)
  {
    if |cfg| == 0 then None
    else if cfg[0].0 == key then Some(cfg[0].1)
    else
      var rest := Lookup(cfg[1..], key);
      assert HasKey(cfg, key) ==> HasKey(cfg[1..], key) by {
        if HasKey(cfg, key) {
          var i :| 0 <= i < |cfg| && cfg[i].0 == key;
          assert cfg[1..][i - 1].0 == key;
        }
      }
      assert rest.Some? ==> exists i :: 0 <= i < |cfg| && cfg[i] == (key, rest.value) by {
        if rest.Some? {
          var i :| 0 <= i < |cfg[1..]| && cfg[1..][i] == (key, rest.value);
          assert cfg[i + 1] == (key, rest.value);
        }
      }
      rest
  }

  /** In a configuration the key of an entry finds exactly that entry. */
  lemma LookupFindsEntry(cfg: Config, i: nat)
    requires i < |cfg|
    ensures Lookup(cfg, cfg[i].0) == Some(cfg[i].1)
  {
    var r := Lookup(cfg, cfg[i].0);
    var j :| 0 <= j < |cfg| && cfg[j] == (cfg[i].0, r.value);
    assert i == j;
  }

  /** `getRequiredNotNull(cfg, key)`: the value, or a failure naming the key. */
  function GetRequiredNotNull(cfg: seq<(string, string)>, key: string): (r: Result<string, Error>)
    ensures r.Success? <==> HasKey(cfg, key)
    ensures r.Success? ==> Lookup(cfg, key) == Some(r.value)
    ensures r.Failure? ==> r.error == RequiredPropertyMissing(key)
  {
    match Lookup(cfg, key)
    case Some(v) => Success(v)
    case None => Failure(RequiredPropertyMissing(key))
  }

  /** `checkAndGetProperty(props, key)`: the value, or a failure naming the
      key when the key is absent. */
  function CheckAndGetProperty(props: map<string, string>, key: string): (r: Result<string, Error>)
    ensures r.Success? <==> key in props
    ensures r.Success? ==> r.value == props[key]
    ensures r.Failure? ==> r.error == PropertyNotFound(key)
  {
    if key in props then Success(props[key]) else Failure(PropertyNotFound(key))
  }

  /** `propertyAsBoolean(props, key, default)`: the parsed value when the key
      is present, whatever it holds, and `default` only when it is absent. */
  predicate PropertyAsBoolean(props: map<string, string>, key: string, default: bool) {
    if key in props then Text.ParseBoolean(props[key]) else default
  }
}
