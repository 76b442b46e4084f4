// The list logic of the simulator's configuration server
// (3Ddesk/server_setting/config_server.py): saved desk configurations are
// numbered, looked up, deleted and listed by number. The HTTP handling and
// the YAML file are outside the model; reading the file is the `configs`
// field, and whether writing it back succeeds is a parameter.
module ConfigStore {
  import opened Text

  /** A saved configuration: its number (absent in a hand-edited file), name, timestamp and desk layout. */
  datatype Config = Config(number: Option<int>, name: Option<string>, created: string, layout: string)

  /** `config.get('number', 0)`. */
  function NumberOr0(c: Config): int
  {
    if c.number.Some? then c.number.value else 0
  }

  /** `max(existing_numbers, default=0)`. */
  function MaxNumber(configs: seq<Config>): (m: int)
    ensures configs == [] ==> m == 0
    ensures forall i :: 0 <= i < |configs| ==> NumberOr0(configs[i]) <= m
    ensures configs != [] ==> exists i :: 0 <= i < |configs| && NumberOr0(configs[i]) == m
  {
    if configs == [] then 0
    else if |configs| == 1 then NumberOr0(configs[0])
    else
      var rest := MaxNumber(configs[1..]);
      assert forall i :: 1 <= i < |configs| ==> configs[i] == configs[1..][i - 1];
      if NumberOr0(configs[0]) >= rest then NumberOr0(configs[0]) else rest
  }

  /** The number a new configuration receives. */
  function NextNumber(configs: seq<Config>): int
  {
    MaxNumber(configs) + 1
  }

  const NamePrefix := "配置_"

  /** The name kept for a new configuration numbered `n`. */
  function NameFor(requested: Option<string>, n: int): (r: string)
    ensures (requested.None? || requested.value == [] || StartsWith(requested.value, NamePrefix)) ==>
              r == NamePrefix + IntToString(n)
    ensures requested.Some? && requested.value != [] && !StartsWith(requested.value, NamePrefix) ==>
              r == requested.value
  {
    if requested.None? || requested.value == [] || StartsWith(requested.value, NamePrefix)
    then NamePrefix + IntToString(n)
    else requested.value
  }

  /** The new number exceeds every number in use (so differs from each), and an empty list starts at 1. */
  lemma NextNumberIsFresh(configs: seq<Config>)
    ensures forall i :: 0 <= i < |configs| ==> NumberOr0(configs[i]) < NextNumber(configs)
    ensures forall i :: 0 <= i < |configs| ==> configs[i].number != Some(NextNumber(configs))
    ensures configs == [] ==> NextNumber(configs) == 1
  {
  }

  /** The first configuration carrying number `n`. */
  function Find(configs: seq<Config>, n: int): (r: Option<nat>)
    ensures r.Some? ==> r.value < |configs| && configs[r.value].number == Some(n)
    ensures r.Some? ==> forall j :: 0 <= j < r.value ==> configs[j].number != Some(n)
    ensures r.None? <==> forall j :: 0 <= j < |configs| ==> configs[j].number != Some(n)
  {
    if configs == [] then None
    else if configs[0].number == Some(n) then Some(0)
    else
      match Find(configs[1..], n)
      case None =>
        assert forall j :: 1 <= j < |configs| ==> configs[j] == configs[1..][j - 1];
        None
      case Some(k) =>
        assert forall j :: 1 <= j < k + 1 ==> configs[j] == configs[1..][j - 1];
        Some(k + 1)
  }

  /** The configurations whose number is not `n`, in their order. */
  function Without(configs: seq<Config>, n: int): (r: seq<Config>)
    ensures |r| <= |configs|
    ensures forall i :: 0 <= i < |r| ==> r[i] in configs && r[i].number != Some(n)
    ensures forall c :: c in configs && c.number != Some(n) ==> c in r
    ensures |r| == |configs| <==> forall j :: 0 <= j < |configs| ==> configs[j].number != Some(n)
  {
    if configs == [] then []
    else
      var rest := Without(configs[1..], n);
      assert forall j :: 1 <= j < |configs| ==> configs[j] == configs[1..][j - 1];
      if configs[0].number != Some(n) then [configs[0]] + rest else rest
  }

  /** Inserts `c` after every configuration whose number is not larger (keeping `sort` stable). */
  function InsertByNumber(sorted: seq<Config>, c: Config): (r: seq<Config>)
    ensures multiset(r) == multiset(sorted) + multiset{c}
  {
    if sorted == [] then [c]
    else if NumberOr0(c) < NumberOr0(sorted[0]) then
      [c] + sorted
    else
      assert sorted == [sorted[0]] + sorted[1..];
      [sorted[0]] + InsertByNumber(sorted[1..], c)
  }

  lemma {:induction false} InsertKeepsSorted(sorted: seq<Config>, c: Config)
    requires SortedByNumber(sorted)
    ensures SortedByNumber(InsertByNumber(sorted, c))
  {
    if sorted != [] && NumberOr0(c) >= NumberOr0(sorted[0]) {
      var tail := sorted[1..];
      InsertKeepsSorted(tail, c);
      forall x | x in tail ensures NumberOr0(sorted[0]) <= NumberOr0(x) {
        var k :| 0 <= k < |tail| && tail[k] == x;
        assert sorted[k + 1] == x;
      }
      InsertBounded(tail, c, NumberOr0(sorted[0]));
      SortedCons(sorted[0], InsertByNumber(tail, c));
    }
  }

  /** Inserting into configurations all numbered at least `lo` something numbered at least `lo` keeps that bound. */
  lemma InsertBounded(s: seq<Config>, c: Config, lo: int)
    requires forall x :: x in s ==> lo <= NumberOr0(x)
    requires lo <= NumberOr0(c)
    ensures forall x :: x in InsertByNumber(s, c) ==> lo <= NumberOr0(x)
  {
    var r := InsertByNumber(s, c);
    forall x | x in r ensures lo <= NumberOr0(x) {
      assert x in multiset(r);
      assert x == c || x in multiset(s);
    }
  }

  /** A sorted list stays sorted with a head numbered no higher than any of it. */
  lemma SortedCons(h: Config, rest: seq<Config>)
    requires SortedByNumber(rest)
    requires forall x :: x in rest ==> NumberOr0(h) <= NumberOr0(x)
    ensures SortedByNumber([h] + rest)
  {
    var r := [h] + rest;
    forall i, j | 0 <= i < j < |r| ensures NumberOr0(r[i]) <= NumberOr0(r[j]) {
      if i == 0 {
        assert r[j] == rest[j - 1] && rest[j - 1] in rest;
      } else {
        assert r[i] == rest[i - 1] && r[j] == rest[j - 1];
      }
    }
  }

  predicate SortedByNumber(s: seq<Config>)
  {
    forall i, j :: 0 <= i < j < |s| ==> NumberOr0(s[i]) <= NumberOr0(s[j])
  }

  /** `configs.sort(key=lambda x: x.get('number', 0))`. */
  function SortByNumber(configs: seq<Config>): (r: seq<Config>)
    ensures SortedByNumber(r)
    ensures multiset(r) == multiset(configs)
  {
    if configs == [] then []
    else
      assert configs == configs[..|configs| - 1] + [configs[|configs| - 1]];
      var init := SortByNumber(configs[..|configs| - 1]);
      InsertKeepsSorted(init, configs[|configs| - 1]);
      InsertByNumber(init, configs[|configs| - 1])
  }

  datatype SaveResponse = Saved(number: int) | SaveWriteFailed
  datatype LoadResponse = Loaded(config: Config) | LoadNotFound(number: int) | LoadInvalidNumber
  datatype DeleteResponse = Deleted(number: int) | DeleteWriteFailed | DeleteNotFound(number: int) | DeleteInvalidNumber

  class ConfigServer {
    /** The configurations in the file, in file order. */
    var configs: seq<Config>

    constructor (configs: seq<Config>)
      ensures this.configs == configs
    {
      this.configs := configs;
    }

    /**
     * `handle_save_config`: number the new configuration one past the largest
     * number in use, name it, stamp it and append it. When the file cannot be
     * written the list stays as it was.
     */
    method Save(requestedName: Option<string>, layout: string, now: string, writeOk: bool) returns (resp: SaveResponse)
      modifies this
      ensures var n := NextNumber(old(configs));
              if writeOk then
                resp == Saved(n) &&
                configs == old(configs) + [Config(Some(n), Some(NameFor(requestedName, n)), now, layout)]
              else
                resp == SaveWriteFailed && configs == old(configs)
    {
      var existing: seq<int> := [];
      var i := 0;
      while i < |configs|
        invariant 0 <= i <= |configs|
        invariant |existing| == i
        invariant forall k :: 0 <= k < i ==> existing[k] == NumberOr0(configs[k])
      {
        existing := existing + [NumberOr0(configs[i])];
        i := i + 1;
      }
      var next := MaxOrZero(existing) + 1;
      MaxOfNumbers(configs, existing);
      var name := if requestedName.None? || requestedName.value == [] || StartsWith(requestedName.value, NamePrefix)
                  then NamePrefix + IntToString(next) else requestedName.value;
      var newConfig := Config(Some(next), Some(name), now, layout);
      if writeOk {
        configs := configs + [newConfig];
        resp := Saved(next);
      } else {
        resp := SaveWriteFailed;
      }
    }

    /** `handle_load_config`: the first configuration with the requested number. */
    method Load(segment: string) returns (resp: LoadResponse)
      ensures ParseInt(segment).None? ==> resp == LoadInvalidNumber
      ensures ParseInt(segment).Some? ==>
                var n := ParseInt(segment).value;
                match Find(configs, n)
                case Some(k) => resp == Loaded(configs[k])
                case None => resp == LoadNotFound(n)
    {
      var parsed := ParseInt(segment);
      if parsed.None? {
        return LoadInvalidNumber;
      }
      var n := parsed.value;
      var i := 0;
      while i < |configs|
        invariant 0 <= i <= |configs|
        invariant forall j :: 0 <= j < i ==> configs[j].number != Some(n)
      {
        if configs[i].number == Some(n) {
          return Loaded(configs[i]);
        }
        i := i + 1;
      }
      resp := LoadNotFound(n);
    }

    /** `handle_list_configs`: the configurations ordered by number, and how many there are. */
    method List() returns (sorted: seq<Config>, count: nat)
      ensures sorted == SortByNumber(configs)
      ensures count == |configs|
    {
      sorted := SortByNumber(configs);
      count := |sorted|;
      assert |multiset(sorted)| == |multiset(configs)|;
    }

    /**
     * `handle_delete_config`: drop every configuration with the requested
     * number; when none has it, report it missing and leave the file alone.
     */
    method Delete(segment: string, writeOk: bool) returns (resp: DeleteResponse)
      modifies this
      ensures ParseInt(segment).None? ==> resp == DeleteInvalidNumber && configs == old(configs)
      ensures ParseInt(segment).Some? ==>
                var n := ParseInt(segment).value;
                if Find(old(configs), n).None? then
                  resp == DeleteNotFound(n) && configs == old(configs)
                else if writeOk then
                  resp == Deleted(n) && configs == Without(old(configs), n)
                else
                  resp == DeleteWriteFailed && configs == old(configs)
    {
      var parsed := ParseInt(segment);
      if parsed.None? {
        return DeleteInvalidNumber;
      }
      var n := parsed.value;
      var kept := Without(configs, n);
      if |kept| < |configs| {
        if writeOk {
          configs := kept;
          resp := Deleted(n);
        } else {
          resp := DeleteWriteFailed;
        }
      } else {
        resp := DeleteNotFound(n);
      }
    }
  }

  /** `max(xs, default=0)`. */
  function MaxOrZero(xs: seq<int>): (m: int)
    ensures xs == [] ==> m == 0
    ensures forall i :: 0 <= i < |xs| ==> xs[i] <= m
  {
    if xs == [] then 0
    else if |xs| == 1 then xs[0]
    else
      var rest := MaxOrZero(xs[1..]);
      assert forall i :: 1 <= i < |xs| ==> xs[i] == xs[1..][i - 1];
      if xs[0] >= rest then xs[0] else rest
  }

  lemma {:induction false} MaxOfNumbers(configs: seq<Config>, xs: seq<int>)
    requires |xs| == |configs| && forall k :: 0 <= k < |xs| ==> xs[k] == NumberOr0(configs[k])
    ensures MaxOrZero(xs) == MaxNumber(configs)
  {
    if |xs| > 1 {
      MaxOfNumbers(configs[1..], xs[1..]);
    }
  }

  /** Saving never reuses a number, and the saved configuration is the one found under it. */
  lemma SavedIsFound(configs: seq<Config>, c: Config)
    requires c.number == Some(NextNumber(configs))
    ensures Find(configs + [c], NextNumber(configs)) == Some(|configs|)
  {
    NextNumberIsFresh(configs);
    FindAfterAbsent(configs, c, NextNumber(configs));
  }

  /** A number absent from `configs` is found at the end once a configuration carrying it is appended. */
  lemma FindAfterAbsent(configs: seq<Config>, c: Config, n: int)
    requires forall j :: 0 <= j < |configs| ==> configs[j].number != Some(n)
    requires c.number == Some(n)
    ensures Find(configs + [c], n) == Some(|configs|)
  {
    var all := configs + [c];
    assert forall j :: 0 <= j < |configs| ==> all[j] == configs[j];
    assert all[|configs|] == c;
  }

  /** Deleting a number leaves nothing to find under it and keeps every other configuration. */
  lemma DeletedIsGone(configs: seq<Config>, n: int, m: int)
    requires m != n
    ensures Find(Without(configs, n), n).None?
    ensures Find(Without(configs, n), m).Some? <==> Find(configs, m).Some?
  {
    var r := Without(configs, n);
    if Find(configs, m).Some? {
      var k := Find(configs, m).value;
      assert configs[k] in configs;
      assert configs[k] in r;
    }
    if Find(r, m).Some? {
      var k := Find(r, m).value;
      assert r[k] in configs;
      var j :| 0 <= j < |configs| && configs[j] == r[k];
    }
  }
}
