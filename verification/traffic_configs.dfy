// The cache of traffic configs and the handler events that write it.
module TrafficConfigs {
  import opened Wrappers
  import opened Text

  datatype TrafficConfig = TrafficConfig(identity: string, env: string, name: string, revision: string,
                                         disabled: bool, ignored: bool)

  // By lower-cased identity, then by lower-cased environment.
  type Entries = map<string, map<string, TrafficConfig>>

  function Lookup(m: Entries, identity: string, env: string): Option<TrafficConfig> {
    if identity in m && env in m[identity] then Some(m[identity][env]) else None
  }

  function ConfigsOf(m: Entries, identity: string): map<string, TrafficConfig> {
    if identity in m then m[identity] else map[]
  }

  function CacheAdd(m: Entries, tc: TrafficConfig): Entries {
    var id := ToLower(tc.identity);
    if tc.env == "" then m else m[id := ConfigsOf(m, id)[ToLower(tc.env) := tc]]
  }

  // Only a config of the same name is deleted; the identity's entry stays.
  function CacheDelete(m: Entries, tc: TrafficConfig): Entries {
    var id, env := ToLower(tc.identity), ToLower(tc.env);
    match Lookup(m, id, env)
    case Some(was) => if tc.env != "" && was.name == tc.name then m[id := m[id] - {env}] else m
    case None => m
  }

  class TrafficConfigCache {
    var cache: Entries

    constructor ()
      ensures cache == map[]
    {
      cache := map[];
    }

    method Add(tc: TrafficConfig)
      modifies this
      ensures cache == CacheAdd(old(cache), tc)
    {
      var identity, env := ToLower(tc.identity), ToLower(tc.env);
      if |env| > 0 {
        var entry: map<string, TrafficConfig> := map[];
        if identity in cache { entry := cache[identity]; }
        entry := entry[env := tc];
        cache := cache[identity := entry];
      }
    }

    method Delete(tc: TrafficConfig)
      modifies this
      ensures cache == CacheDelete(old(cache), tc)
    {
      var identity, env := ToLower(tc.identity), ToLower(tc.env);
      if |env| > 0 && identity in cache {
        var entry := cache[identity];
        if env in entry && tc.name == entry[env].name {
          entry := entry - {env};
          cache := cache[identity := entry];
        }
      }
    }

    method Get(identity: string, env: string) returns (tc: Option<TrafficConfig>)
      ensures tc == Lookup(cache, ToLower(identity), ToLower(env))
    {
      var i, e := ToLower(identity), ToLower(env);
      if i in cache {
        if e in cache[i] { return Some(cache[i][e]); }
      }
      return None;
    }
  }

  // ---------- what a history of events leaves in the cache ----------

  datatype Event = Added(tc: TrafficConfig) | Updated(tc: TrafficConfig) | Deleted(tc: TrafficConfig)

  // An update is never written to the cache, for all its handler's comment says.
  function Handled(m: Entries, e: Event): Entries {
    match e
    case Added(tc) => if tc.disabled || tc.ignored then m else CacheAdd(m, tc)
    case Updated(_) => m
    case Deleted(tc) => CacheDelete(m, tc)
  }

  function After(history: seq<Event>): Entries {
    if history == [] then map[] else Handled(After(history[..|history| - 1]), history[|history| - 1])
  }

  predicate Concerns(tc: TrafficConfig, identity: string, env: string) {
    tc.env != "" && ToLower(tc.identity) == identity && ToLower(tc.env) == env
  }

  // The last add for the identity and environment, unless a delete of that very
  // config's name came after it.
  function LastWord(history: seq<Event>, identity: string, env: string): Option<TrafficConfig> {
    if history == [] then None
    else
      var before := LastWord(history[..|history| - 1], identity, env);
      match history[|history| - 1]
      case Added(tc) => if Concerns(tc, identity, env) && !tc.disabled && !tc.ignored then Some(tc) else before
      case Updated(_) => before
      case Deleted(tc) =>
        if Concerns(tc, identity, env) && before.Some? && before.value.name == tc.name then None else before
  }

  lemma {:induction false} LastWordIsCached(history: seq<Event>, identity: string, env: string)
    ensures Lookup(After(history), identity, env) == LastWord(history, identity, env)
    decreases |history|
  {
    if history != [] {
      LastWordIsCached(history[..|history| - 1], identity, env);
      var m, e := After(history[..|history| - 1]), history[|history| - 1];
      if e.Deleted? {
        var id, ev := ToLower(e.tc.identity), ToLower(e.tc.env);
        if Lookup(m, id, ev).Some? && id == identity && env in m[id] && env != ev {
          assert env in m[id] - {ev};
        }
      }
    }
  }

  function NoUpdates(history: seq<Event>): seq<Event> {
    if history == [] then []
    else NoUpdates(history[..|history| - 1])
         + if history[|history| - 1].Updated? then [] else [history[|history| - 1]]
  }

  // Fan-out works on configs as they were when added: updates leave no trace.
  lemma {:induction false} UpdatesAreNotCached(history: seq<Event>)
    ensures After(history) == After(NoUpdates(history))
    decreases |history|
  {
    if history != [] {
      var before, last := history[..|history| - 1], history[|history| - 1];
      UpdatesAreNotCached(before);
      var kept := NoUpdates(before);
      if last.Updated? {
        assert kept + [] == kept;
      } else {
        assert (kept + [last])[..|kept + [last]| - 1] == kept;
      }
    }
  }
}
