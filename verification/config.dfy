/** internal/config/config.go: the environment-variable names derived from the
    YAML settings keys, and the relationship vocabulary read from the loaded
    configuration. */
module Config {
  import opened Wrappers
  import opened ConfigLookup

  /** At most this many relationship definitions are read. */
  const MaxRelationships: nat := 10

  /** Definitions live under "relationships.definitions.<i>.name" and ".type". */
  const DefinitionsPrefix := "relationships.definitions."

  /** Upper-casing of one character (ASCII letters only). */
  function Upper(c: char): char {
    if 'a' <= c <= 'z' then (c as int - 'a' as int + 'A' as int) as char else c
  }

  function ToUpper(s: string): (u: string)
    ensures |u| == |s|
    ensures forall i :: 0 <= i < |s| ==> u[i] == Upper(s[i])
  {
    if s == [] then [] else [Upper(s[0])] + ToUpper(s[1..])
  }

  /** Every occurrence of `from` replaced by `to`. */
  function ReplaceAll(s: string, from: char, to: char): (r: string)
    ensures |r| == |s|
    ensures forall i :: 0 <= i < |s| ==> r[i] == (if s[i] == from then to else s[i])
  {
    if s == [] then [] else [if s[0] == from then to else s[0]] + ReplaceAll(s[1..], from, to)
  }

  /** The environment variable that overrides a settings key: "PORT" for
      "http.port" (the container runtime's contract), otherwise the key
      upper-cased with every "." turned into "_". The name never holds a "."
      or a lower-case ASCII letter. */
  function EnvVarName(key: string): (name: string)
    ensures key == "http.port" ==> name == "PORT"
    ensures key != "http.port" ==> |name| == |key|
    ensures key != "http.port" ==>
      forall i :: 0 <= i < |key| ==> name[i] == (if key[i] == '.' then '_' else Upper(key[i]))
    ensures forall i :: 0 <= i < |name| ==> name[i] != '.' && !('a' <= name[i] <= 'z')
  {
    if key == "http.port" then "PORT" else ReplaceAll(ToUpper(key), '.', '_')
  }

  /** Every key of `keys` is reachable under its name, every entry is a key
      stored under its own name, and a key not followed by one of the same
      name is the one stored. */
  predicate MapsLastKeys(keys: seq<string>, name: string -> string, m: map<string, string>) {
    && (forall e :: e in m ==> m[e] in keys && name(m[e]) == e)
    && (forall k :: k in keys ==> name(k) in m)
    && forall j :: 0 <= j < |keys| && (forall l :: j < l < |keys| ==> name(keys[l]) != name(keys[j]))
         ==> m[name(keys[j])] == keys[j]
  }

  /** The mapping from environment variable name to settings key built by
      visiting `keys` in order; a later key whose name collides with an earlier
      one replaces it. */
  function MappingsOf(keys: seq<string>): (m: map<string, string>)
    ensures MapsLastKeys(keys, EnvVarName, m)
  {
    if keys == [] then map[]
    else
      var m0 := MappingsOf(keys[..|keys| - 1]);
      MappingsStep(keys, EnvVarName, m0);
      m0[EnvVarName(keys[|keys| - 1]) := keys[|keys| - 1]]
  }

  /** Adding the last key to the mapping built from the others. */
  lemma MappingsStep(keys: seq<string>, name: string -> string, m0: map<string, string>)
    requires keys != [] && MapsLastKeys(keys[..|keys| - 1], name, m0)
    ensures MapsLastKeys(keys, name, m0[name(keys[|keys| - 1]) := keys[|keys| - 1]])
  {
    var init := keys[..|keys| - 1];
    var last := keys[|keys| - 1];
    assert keys == init + [last];
    var m := m0[name(last) := last];
    forall j | 0 <= j < |keys| - 1 && (forall l :: j < l < |keys| ==> name(keys[l]) != name(keys[j]))
      ensures m[name(keys[j])] == keys[j]
    {
      assert keys[j] == init[j] && name(keys[j]) != name(last);
      forall l | j < l < |init| ensures name(init[l]) != name(init[j]) {
        assert init[l] == keys[l];
      }
    }
  }

  /** `getMappings`: the settings keys in the order Go's map iteration
      visits them, or the error from loading them, which is passed on. */
  function GetMappings(loaded: Result<seq<string>, string>): (r: Result<map<string, string>, string>)
    ensures loaded.Failure? ==> r == Failure(loaded.error)
    ensures loaded.Success? ==> r.Success?
    ensures loaded.Success? ==> MapsLastKeys(loaded.value, EnvVarName, r.value)
  {
    match loaded
    case Failure(e) => Failure(e)
    case Success(keys) => Success(MappingsOf(keys))
  }

  /** "http.port" is overridden from "PORT" unless another settings key also
      names that variable. */
  lemma PortOverridesHttpPort(keys: seq<string>)
    requires "http.port" in keys
    requires forall k :: k in keys && EnvVarName(k) == "PORT" ==> k == "http.port"
    ensures MappingsOf(keys)["PORT"] == "http.port"
  {
  }

  /** Every name of `defs` is a key, and a definition not followed by one of
      the same name decides its key's kind. */
  predicate MapsLastKinds(defs: seq<Definition>, m: map<string, string>) {
    && m.Keys == (set d | d in defs :: d.name)
    && forall j :: 0 <= j < |defs| && (forall l :: j < l < |defs| ==> defs[l].name != defs[j].name)
         ==> m[defs[j].name] == defs[j].kind
  }

  /** The relationship map built from definitions in scan order: a later
      definition with the same name replaces the earlier kind. */
  function DefinitionsMap(defs: seq<Definition>): (m: map<string, string>)
    ensures MapsLastKinds(defs, m)
  {
    if defs == [] then map[]
    else
      var init := defs[..|defs| - 1];
      var last := defs[|defs| - 1];
      var m0 := DefinitionsMap(init);
      DefinitionsMapStep(defs, m0);
      m0[last.name := last.kind]
  }

  /** Adding the last definition to the map of the others. */
  lemma DefinitionsMapStep(defs: seq<Definition>, m0: map<string, string>)
    requires defs != [] && MapsLastKinds(defs[..|defs| - 1], m0)
    ensures MapsLastKinds(defs, m0[defs[|defs| - 1].name := defs[|defs| - 1].kind])
  {
    NamesStep(defs);
    var init := defs[..|defs| - 1];
    var last := defs[|defs| - 1];
    var m := m0[last.name := last.kind];
    forall j | 0 <= j < |defs| - 1 && (forall l :: j < l < |defs| ==> defs[l].name != defs[j].name)
      ensures m[defs[j].name] == defs[j].kind
    {
      assert defs[j] == init[j] && defs[j].name != last.name;
      forall l | j < l < |init| ensures init[l].name != init[j].name {
        assert init[l] == defs[l];
      }
    }
  }

  /** The names of a non-empty sequence are those of all but its last element,
      plus the last one's. */
  lemma NamesStep(defs: seq<Definition>)
    requires defs != []
    ensures (set d | d in defs :: d.name)
      == (set d | d in defs[..|defs| - 1] :: d.name) + {defs[|defs| - 1].name}
  {
    assert defs == defs[..|defs| - 1] + [defs[|defs| - 1]];
  }

  /** Each definition adds at most one key. */
  lemma {:induction false} DefinitionsMapSize(defs: seq<Definition>)
    ensures |DefinitionsMap(defs)| <= |defs|
  {
    if defs != [] {
      var init := defs[..|defs| - 1];
      var last := defs[|defs| - 1];
      DefinitionsMapSize(init);
      var m0 := DefinitionsMap(init);
      var m := m0[last.name := last.kind];
      assert DefinitionsMap(defs) == m;
      if last.name in m0 {
        assert m.Keys == m0.Keys;
      } else {
        assert m.Keys == m0.Keys + {last.name};
      }
    }
  }

  /** The relationships map after `populateRelationships`, and the lookup
      error it returns, if any. */
  datatype Populated = Populated(relationships: map<string, string>, err: Option<string>)

  /** `populateRelationships`: the map is started afresh, filled from the
      definitions the scan found, and a lookup error other than "not set" is
      returned with whatever was added before it. */
  function PopulateRelationships(lookup: Lookup): (p: Populated)
    ensures |p.relationships| <= MaxRelationships
    ensures var s := ScanDefinitions(lookup, DefinitionsPrefix, MaxRelationships);
      && p.err == s.err
      && p.relationships.Keys == (set d | d in s.definitions :: d.name)
      && MapsLastKinds(s.definitions, p.relationships)
  {
    var s := ScanDefinitions(lookup, DefinitionsPrefix, MaxRelationships);
    DefinitionsMapSize(s.definitions);
    Populated(DefinitionsMap(s.definitions), s.err)
  }
}
