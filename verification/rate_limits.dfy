// Local rate limiting: the two parallel lists that one Envoy route patch holds,
// one of actions (which requests count) and one of descriptors (which bucket pays).
module RateLimits {
  import opened Wrappers
  import opened DescriptorKeys
  import opened PathRegex
  import opened Text

  datatype Header = Header(name: string, value: string, condition: string)

  datatype Quota = Quota(name: Bytes, timePeriod: string, maxAmount: int,
                         path: string, methods: seq<string>, headers: seq<Header>)

  datatype TotalGroup = TotalGroup(name: Bytes, workloadEnvSelectors: seq<string>, quotas: seq<Quota>)

  datatype AppGroup = AppGroup(name: Bytes, workloadEnvSelectors: seq<string>,
                               associatedApps: seq<Bytes>, quotas: seq<Quota>)

  datatype QuotaGroup = QuotaGroup(totalQuotaGroup: seq<TotalGroup>, appQuotaGroups: seq<AppGroup>)

  // ---------- Envoy's side ----------

  datatype Pattern =
    | IsExactly(value: string) | StartsWith(value: string) | EndsWith(value: string) | Includes(value: string)
    | MatchesRegex(value: string)
    | Unset

  datatype HeaderMatcher = HeaderMatcher(name: string, pattern: Pattern)

  datatype Entry = Entry(key: string, value: string)

  datatype TokenBucket = TokenBucket(maxTokens: int, tokensPerFill: int, fillInterval: int)

  datatype Descriptor = Descriptor(bucket: TokenBucket, entries: seq<Entry>)

  // A header_value_match action: yields its entry when every matcher accepts.
  datatype Action = Action(entry: Entry, headers: seq<HeaderMatcher>)

  datatype RateLimit = RateLimit(actions: seq<Action>)

  type Request = HeaderMatcher -> bool

  predicate Accepts(request: Request, headers: seq<HeaderMatcher>) {
    forall h <- headers :: request(h)
  }

  // The descriptor a request generates for a rate limit; none if an action yields none.
  function Generated(limit: RateLimit, request: Request): Option<seq<Entry>> {
    if forall a <- limit.actions :: Accepts(request, a.headers)
    then Some(Entries(limit.actions))
    else None
  }

  function Entries(actions: seq<Action>): seq<Entry> {
    seq(|actions|, i requires 0 <= i < |actions| => actions[i].entry)
  }

  // ---------- values ----------

  function UInt32(n: int): int { n % 0x1_0000_0000 }

  function GetTokenBucket(maxTokens: int, tokensPerFill: int, fillInterval: int): TokenBucket {
    TokenBucket(UInt32(maxTokens), UInt32(tokensPerFill), fillInterval)
  }

  const EXACT := "exact"
  const PREFIX := "prefix"
  const SUFFIX := "suffix"
  const CONTAINS := "contains"
  const REGEX := "regex"

  // A condition that is none of these leaves the matcher without a pattern.
  function GetHeaderMatcher(name: string, value: string, condition: string): HeaderMatcher {
    HeaderMatcher(name,
                  if condition == EXACT then IsExactly(value)
                  else if condition == PREFIX then StartsWith(value)
                  else if condition == SUFFIX then EndsWith(value)
                  else if condition == CONTAINS then Includes(value)
                  else if condition == REGEX then MatchesRegex(value)
                  else Unset)
  }

  // Each method in both cases.
  function Spellings(methods: seq<string>): seq<string> {
    if methods == [] then []
    else
      var m := methods[|methods| - 1];
      Spellings(methods[..|methods| - 1]) + [ToLower(m)] + [ToUpper(m)]
  }

  function MethodRegex(methods: seq<string>): string {
    if |methods| == 0 then ".*" else Joined(Spellings(methods), "|")
  }

  function GetDescriptorConfig(group: Bytes, app: Bytes, quota: Quota, period: int): Descriptor {
    var key := GetDescriptorKey([group, quota.name]);
    var appKey := GetDescriptorKey([group, quota.name, app]);
    Descriptor(GetTokenBucket(quota.maxAmount, quota.maxAmount, period),
               if app == "" then [Entry(key, key)] else [Entry(key, key), Entry(appKey, appKey)])
  }

  function GetQuotaAction(group: Bytes, quota: Quota): Action {
    var key := GetDescriptorKey([group, quota.name]);
    Action(Entry(key, key),
           [GetHeaderMatcher(":path", GetPathRegex(quota.path), REGEX),
            GetHeaderMatcher(":method", MethodRegex(quota.methods), REGEX)]
           + seq(|quota.headers|, i requires 0 <= i < |quota.headers| =>
                 GetHeaderMatcher(quota.headers[i].name, quota.headers[i].value, quota.headers[i].condition)))
  }

  function GetAssociatedAppAction(group: Bytes, quotaName: Bytes, app: Bytes, identityKey: string): Option<Action> {
    if app == "" then None
    else
      var key := GetDescriptorKey([group, quotaName, app]);
      Some(Action(Entry(key, key), [GetHeaderMatcher(identityKey, app, EXACT)]))
  }

  function GetRateLimitConfig(group: Bytes, app: Bytes, quota: Quota, identityKey: string): RateLimit {
    match GetAssociatedAppAction(group, quota.name, app, identityKey)
    case None => RateLimit([GetQuotaAction(group, quota)])
    case Some(appAction) => RateLimit([GetQuotaAction(group, quota), appAction])
  }

  // ---------- what the configuration asks for, list-free ----------

  // One bucket the configuration asks for.
  datatype Source = Source(group: Bytes, app: Bytes, quota: Quota, period: int)

  type Parser = string -> Option<int>

  function QuotaSources(group: Bytes, app: Bytes, quotas: seq<Quota>, parse: Parser): seq<Source> {
    if quotas == [] then []
    else
      var last := quotas[|quotas| - 1];
      QuotaSources(group, app, quotas[..|quotas| - 1], parse)
      + match parse(last.timePeriod)
        case None => []
        case Some(period) => [Source(group, app, last, period)]
  }

  function AppSources(group: Bytes, apps: seq<Bytes>, quotas: seq<Quota>, parse: Parser): seq<Source> {
    if apps == [] then []
    else AppSources(group, apps[..|apps| - 1], quotas, parse)
         + QuotaSources(group, apps[|apps| - 1], quotas, parse)
  }

  function TotalGroupSources(groups: seq<TotalGroup>, env: string, parse: Parser): seq<Source> {
    if groups == [] then []
    else
      var last := groups[|groups| - 1];
      TotalGroupSources(groups[..|groups| - 1], env, parse)
      + if env in last.workloadEnvSelectors then QuotaSources(last.name, "", last.quotas, parse) else []
  }

  function AppGroupSources(groups: seq<AppGroup>, env: string, parse: Parser): seq<Source> {
    if groups == [] then []
    else
      var last := groups[|groups| - 1];
      AppGroupSources(groups[..|groups| - 1], env, parse)
      + if env in last.workloadEnvSelectors
        then AppSources(last.name, last.associatedApps, last.quotas, parse) else []
  }

  function Sources(config: QuotaGroup, env: string, parse: Parser): seq<Source> {
    TotalGroupSources(config.totalQuotaGroup, env, parse) + AppGroupSources(config.appQuotaGroups, env, parse)
  }

  // ---------- lockstep ----------

  predicate Realizes(d: Descriptor, l: RateLimit, s: Source, identityKey: string) {
    d == GetDescriptorConfig(s.group, s.app, s.quota, s.period)
    && l == GetRateLimitConfig(s.group, s.app, s.quota, identityKey)
  }

  predicate InStep(descriptors: seq<Descriptor>, limits: seq<RateLimit>, sources: seq<Source>, identityKey: string) {
    |descriptors| == |sources| && |limits| == |sources|
    && forall i :: 0 <= i < |sources| ==> Realizes(descriptors[i], limits[i], sources[i], identityKey)
  }

  method Contains(keys: seq<string>, key: string) returns (found: bool)
    ensures found <==> key in keys
  {
    for i := 0 to |keys|
      invariant key !in keys[..i]
    {
      if keys[i] == key { return true; }
    }
    return false;
  }

  // Alternatives 2i and 2i + 1 are method i in lower and in upper case.
  predicate SpelledAt(alternatives: seq<string>, methods: seq<string>, i: nat) {
    && i < |methods| && 2 * i + 1 < |alternatives|
    && alternatives[2 * i] == ToLower(methods[i]) && alternatives[2 * i + 1] == ToUpper(methods[i])
  }

  predicate Spelled(alternatives: seq<string>, methods: seq<string>) {
    |alternatives| == 2 * |methods| && forall i: nat :: i < |methods| ==> SpelledAt(alternatives, methods, i)
  }

  // The alternation of every method in both cases; any method if there are none.
  ghost predicate MethodsFit(regex: string, methods: seq<string>) {
    if methods == [] then regex == ".*"
    else exists alternatives: seq<string> :: Spelled(alternatives, methods) && regex == Joined(alternatives, "|")
  }

  lemma {:induction false} SpellingsAre(methods: seq<string>)
    ensures Spelled(Spellings(methods), methods)
    decreases |methods|
  {
    if methods != [] {
      var n := |methods| - 1;
      SpellingsAre(methods[..n]);
      forall i: nat | i < n ensures SpelledAt(Spellings(methods), methods, i) {
        assert SpelledAt(Spellings(methods[..n]), methods[..n], i);
      }
      assert SpelledAt(Spellings(methods), methods, n);
    }
  }

  lemma SpelledOnce(a: seq<string>, b: seq<string>, methods: seq<string>)
    requires Spelled(a, methods) && Spelled(b, methods)
    ensures a == b
  {
    forall k | 0 <= k < |a| ensures a[k] == b[k] {
      var i := k / 2;
      assert k == 2 * i || k == 2 * i + 1;
      assert SpelledAt(a, methods, i) && SpelledAt(b, methods, i);
    }
  }

  lemma OneRegexFits(regex: string, methods: seq<string>)
    ensures MethodsFit(regex, methods) <==> regex == MethodRegex(methods)
  {
    SpellingsAre(methods);
    hide Spelled, Spellings, Joined;
    if methods != [] && MethodsFit(regex, methods) {
      var alternatives :| Spelled(alternatives, methods) && regex == Joined(alternatives, "|");
      SpelledOnce(alternatives, Spellings(methods), methods);
    }
  }

  method GetMethodRegex(methods: seq<string>) returns (regex: string)
    ensures regex == MethodRegex(methods) && MethodsFit(regex, methods)
  {
    OneRegexFits(MethodRegex(methods), methods);
    if |methods| == 0 { return ".*"; }
    var m := [];
    for i := 0 to |methods|
      invariant m == Spellings(methods[..i])
    {
      assert methods[..i + 1][..i] == methods[..i];
      m := m + [ToLower(methods[i])];
      m := m + [ToUpper(methods[i])];
    }
    assert methods[..|methods|] == methods;
    regex := Joined(m, "|");
  }

  // One group's quotas, appended to both lists.
  method AppendQuotas(group: Bytes, app: Bytes, quotas: seq<Quota>, parse: Parser, identityKey: string,
                      ds: seq<Descriptor>, ls: seq<RateLimit>, ghost before: seq<Source>)
    returns (descriptors: seq<Descriptor>, limits: seq<RateLimit>)
    requires InStep(ds, ls, before, identityKey)
    ensures InStep(descriptors, limits, before + QuotaSources(group, app, quotas, parse), identityKey)
  {
    descriptors, limits := ds, ls;
    for i := 0 to |quotas|
      invariant InStep(descriptors, limits, before + QuotaSources(group, app, quotas[..i], parse), identityKey)
    {
      assert quotas[..i + 1][..i] == quotas[..i];
      match parse(quotas[i].timePeriod) {
        case None =>
        case Some(period) =>
          descriptors := descriptors + [GetDescriptorConfig(group, app, quotas[i], period)];
          limits := limits + [GetRateLimitConfig(group, app, quotas[i], identityKey)];
      }
    }
    assert quotas[..|quotas|] == quotas;
  }

  lemma AppSourcesNext(before: seq<Source>, group: Bytes, apps: seq<Bytes>, quotas: seq<Quota>, parse: Parser)
    ensures before + AppSources(group, apps[..0], quotas, parse) == before
    ensures forall i :: 0 <= i < |apps| ==>
              before + AppSources(group, apps[..i], quotas, parse) + QuotaSources(group, apps[i], quotas, parse)
              == before + AppSources(group, apps[..i + 1], quotas, parse)
  {
    forall i | 0 <= i < |apps|
      ensures AppSources(group, apps[..i + 1], quotas, parse)
           == AppSources(group, apps[..i], quotas, parse) + QuotaSources(group, apps[i], quotas, parse)
    {
      assert apps[..i + 1][..i] == apps[..i];
    }
  }

  method AppendApps(group: AppGroup, parse: Parser, identityKey: string,
                    ds: seq<Descriptor>, ls: seq<RateLimit>, ghost before: seq<Source>)
    returns (descriptors: seq<Descriptor>, limits: seq<RateLimit>)
    requires InStep(ds, ls, before, identityKey)
    ensures InStep(descriptors, limits,
                   before + AppSources(group.name, group.associatedApps, group.quotas, parse), identityKey)
  {
    hide InStep, QuotaSources, AppSources;
    descriptors, limits := ds, ls;
    var apps := group.associatedApps;
    AppSourcesNext(before, group.name, apps, group.quotas, parse);
    for i := 0 to |apps|
      invariant InStep(descriptors, limits, before + AppSources(group.name, apps[..i], group.quotas, parse), identityKey)
    {
      descriptors, limits := AppendQuotas(group.name, apps[i], group.quotas, parse, identityKey, descriptors, limits,
                                          before + AppSources(group.name, apps[..i], group.quotas, parse));
    }
    assert apps[..|apps|] == apps;
  }

  method AppendTotalGroups(groups: seq<TotalGroup>, env: string, parse: Parser, identityKey: string)
    returns (descriptors: seq<Descriptor>, limits: seq<RateLimit>)
    ensures InStep(descriptors, limits, TotalGroupSources(groups, env, parse), identityKey)
  {
    descriptors, limits := [], [];
    for i := 0 to |groups|
      invariant InStep(descriptors, limits, TotalGroupSources(groups[..i], env, parse), identityKey)
    {
      assert groups[..i + 1][..i] == groups[..i];
      ghost var before := TotalGroupSources(groups[..i], env, parse);
      var selected := Contains(groups[i].workloadEnvSelectors, env);
      if selected {
        descriptors, limits := AppendQuotas(groups[i].name, "", groups[i].quotas, parse, identityKey,
                                            descriptors, limits, before);
      } else {
        assert before + [] == before;
      }
    }
    assert groups[..|groups|] == groups;
  }

  lemma AppGroupSourcesNext(before: seq<Source>, groups: seq<AppGroup>, env: string, parse: Parser)
    ensures before + AppGroupSources(groups[..0], env, parse) == before
    ensures forall i :: 0 <= i < |groups| ==>
              before + AppGroupSources(groups[..i + 1], env, parse)
              == before + AppGroupSources(groups[..i], env, parse)
                 + if env in groups[i].workloadEnvSelectors
                   then AppSources(groups[i].name, groups[i].associatedApps, groups[i].quotas, parse) else []
  {
    hide AppSources;
    forall i | 0 <= i < |groups|
      ensures AppGroupSources(groups[..i + 1], env, parse)
           == AppGroupSources(groups[..i], env, parse)
              + if env in groups[i].workloadEnvSelectors
                then AppSources(groups[i].name, groups[i].associatedApps, groups[i].quotas, parse) else []
    {
      assert groups[..i + 1][..i] == groups[..i];
    }
  }

  method AppendAppGroups(groups: seq<AppGroup>, env: string, parse: Parser, identityKey: string,
                         ds: seq<Descriptor>, ls: seq<RateLimit>, ghost before: seq<Source>)
    returns (descriptors: seq<Descriptor>, limits: seq<RateLimit>)
    requires InStep(ds, ls, before, identityKey)
    ensures InStep(descriptors, limits, before + AppGroupSources(groups, env, parse), identityKey)
  {
    hide InStep, AppSources, AppGroupSources;
    descriptors, limits := ds, ls;
    AppGroupSourcesNext(before, groups, env, parse);
    for i := 0 to |groups|
      invariant InStep(descriptors, limits, before + AppGroupSources(groups[..i], env, parse), identityKey)
    {
      var selected := Contains(groups[i].workloadEnvSelectors, env);
      if selected {
        descriptors, limits := AppendApps(groups[i], parse, identityKey, descriptors, limits,
                                          before + AppGroupSources(groups[..i], env, parse));
      } else {
        assert before + AppGroupSources(groups[..i], env, parse) + [] == before + AppGroupSources(groups[..i], env, parse);
      }
    }
    assert groups[..|groups|] == groups;
  }

  method CreateRoutePatchLists(config: QuotaGroup, env: string, parse: Parser, identityKey: string)
    returns (descriptors: seq<Descriptor>, limits: seq<RateLimit>)
    ensures InStep(descriptors, limits, Sources(config, env, parse), identityKey)
  {
    descriptors, limits := AppendTotalGroups(config.totalQuotaGroup, env, parse, identityKey);
    descriptors, limits := AppendAppGroups(config.appQuotaGroups, env, parse, identityKey, descriptors, limits,
                                           TotalGroupSources(config.totalQuotaGroup, env, parse));
  }

  // ---------- how long the lists are ----------

  function Parseable(quotas: seq<Quota>, parse: Parser): nat {
    if quotas == [] then 0
    else Parseable(quotas[1..], parse) + if parse(quotas[0].timePeriod).Some? then 1 else 0
  }

  function TotalSize(groups: seq<TotalGroup>, env: string, parse: Parser): nat {
    if groups == [] then 0
    else TotalSize(groups[1..], env, parse)
         + if env in groups[0].workloadEnvSelectors then Parseable(groups[0].quotas, parse) else 0
  }

  function AppSize(groups: seq<AppGroup>, env: string, parse: Parser): nat {
    if groups == [] then 0
    else AppSize(groups[1..], env, parse)
         + if env in groups[0].workloadEnvSelectors
           then |groups[0].associatedApps| * Parseable(groups[0].quotas, parse) else 0
  }

  lemma {:induction false} ParseableSnoc(quotas: seq<Quota>, q: Quota, parse: Parser)
    ensures Parseable(quotas + [q], parse)
         == Parseable(quotas, parse) + if parse(q.timePeriod).Some? then 1 else 0
    decreases |quotas|
  {
    if quotas == [] {
      assert ([q])[1..] == [];
    } else {
      assert (quotas + [q])[1..] == quotas[1..] + [q];
      ParseableSnoc(quotas[1..], q, parse);
    }
  }

  lemma {:induction false} QuotaSourcesSize(group: Bytes, app: Bytes, quotas: seq<Quota>, parse: Parser)
    ensures |QuotaSources(group, app, quotas, parse)| == Parseable(quotas, parse)
    decreases |quotas|
  {
    if quotas != [] {
      var k := |quotas| - 1;
      QuotaSourcesSize(group, app, quotas[..k], parse);
      ParseableSnoc(quotas[..k], quotas[k], parse);
      assert quotas == quotas[..k] + [quotas[k]];
    }
  }

  lemma {:induction false} AppSourcesSize(group: Bytes, apps: seq<Bytes>, quotas: seq<Quota>, parse: Parser)
    ensures |AppSources(group, apps, quotas, parse)| == |apps| * Parseable(quotas, parse)
    decreases |apps|
  {
    if apps != [] {
      var k := |apps| - 1;
      AppSourcesSize(group, apps[..k], quotas, parse);
      QuotaSourcesSize(group, apps[k], quotas, parse);
      hide AppSources, QuotaSources, Parseable;
      assert (k + 1) * Parseable(quotas, parse) == k * Parseable(quotas, parse) + Parseable(quotas, parse);
    }
  }

  lemma {:induction false} TotalSizeSnoc(groups: seq<TotalGroup>, g: TotalGroup, env: string, parse: Parser)
    ensures TotalSize(groups + [g], env, parse) == TotalSize(groups, env, parse) + TotalSize([g], env, parse)
    decreases |groups|
  {
    if groups == [] {
      assert groups + [g] == [g];
    } else {
      assert (groups + [g])[1..] == groups[1..] + [g];
      TotalSizeSnoc(groups[1..], g, env, parse);
    }
  }

  lemma {:induction false} AppSizeSnoc(groups: seq<AppGroup>, g: AppGroup, env: string, parse: Parser)
    ensures AppSize(groups + [g], env, parse) == AppSize(groups, env, parse) + AppSize([g], env, parse)
    decreases |groups|
  {
    if groups == [] {
      assert groups + [g] == [g];
    } else {
      assert (groups + [g])[1..] == groups[1..] + [g];
      AppSizeSnoc(groups[1..], g, env, parse);
    }
  }

  lemma {:induction false} TotalSourcesSize(groups: seq<TotalGroup>, env: string, parse: Parser)
    ensures |TotalGroupSources(groups, env, parse)| == TotalSize(groups, env, parse)
    decreases |groups|
  {
    if groups != [] {
      var k := |groups| - 1;
      TotalSourcesSize(groups[..k], env, parse);
      TotalSizeSnoc(groups[..k], groups[k], env, parse);
      assert groups == groups[..k] + [groups[k]];
      QuotaSourcesSize(groups[k].name, "", groups[k].quotas, parse);
    }
  }

  lemma {:induction false} AppGroupSourcesSize(groups: seq<AppGroup>, env: string, parse: Parser)
    ensures |AppGroupSources(groups, env, parse)| == AppSize(groups, env, parse)
    decreases |groups|
  {
    if groups != [] {
      var k := |groups| - 1;
      AppGroupSourcesSize(groups[..k], env, parse);
      AppSizeSnoc(groups[..k], groups[k], env, parse);
      assert groups == groups[..k] + [groups[k]];
      AppSourcesSize(groups[k].name, groups[k].associatedApps, groups[k].quotas, parse);
    }
  }

  // ---------- the two lists as Envoy reads them ----------

  // Equal lengths, one pair per parseable quota (per app in app groups), and
  // whatever a request generates from limit i is exactly descriptor i.
  lemma ListsInLockstep(config: QuotaGroup, env: string, parse: Parser, identityKey: string,
                        descriptors: seq<Descriptor>, limits: seq<RateLimit>)
    requires InStep(descriptors, limits, Sources(config, env, parse), identityKey)
    ensures |descriptors| == |limits|
         == TotalSize(config.totalQuotaGroup, env, parse) + AppSize(config.appQuotaGroups, env, parse)
    ensures forall i, request: Request :: 0 <= i < |limits| ==>
              Generated(limits[i], request) in {None, Some(descriptors[i].entries)}
  {
    TotalSourcesSize(config.totalQuotaGroup, env, parse);
    AppGroupSourcesSize(config.appQuotaGroups, env, parse);
    var sources := Sources(config, env, parse);
    forall i, request: Request | 0 <= i < |limits|
      ensures Generated(limits[i], request) in {None, Some(descriptors[i].entries)}
    {
      assert Realizes(descriptors[i], limits[i], sources[i], identityKey);
      assert Entries(limits[i].actions) == descriptors[i].entries;
    }
  }

  // ---------- no two quotas share a bucket ----------

  predicate SameNames(s: Source, t: Source) {
    s.group == t.group && s.quota.name == t.quota.name && s.app == t.app
  }

  predicate SameBucket(s: Source, t: Source) {
    GetDescriptorConfig(s.group, s.app, s.quota, s.period).entries
    == GetDescriptorConfig(t.group, t.app, t.quota, t.period).entries
  }

  lemma EntriesIdentifySource(s: Source, t: Source)
    requires ColonFree(s.group) && ColonFree(t.group)
    ensures SameBucket(s, t) <==> SameNames(s, t)
  {
    var d, e := GetDescriptorConfig(s.group, s.app, s.quota, s.period),
                GetDescriptorConfig(t.group, t.app, t.quota, t.period);
    if d.entries == e.entries {
      assert d.entries[0] == e.entries[0];
      Base64Injective(Join([s.group, s.quota.name]), Join([t.group, t.quota.name]));
      JoinPair(s.group, s.quota.name);
      JoinPair(t.group, t.quota.name);
      SplitAtColon(s.group, s.quota.name, t.group, t.quota.name);
      if s.app != "" {
        assert d.entries[1] == e.entries[1];
        Base64Injective(Join([s.group, s.quota.name, s.app]), Join([t.group, t.quota.name, t.app]));
        JoinTriple(s.group, s.quota.name, s.app);
        JoinTriple(t.group, t.quota.name, t.app);
        var head := s.group + [COLON] + s.quota.name + [COLON];
        assert s.app == (head + s.app)[|head|..] == (head + t.app)[|head|..] == t.app;
      }
    }
  }

  ghost predicate DistinctNames(sources: seq<Source>) {
    forall i, j :: 0 <= i < j < |sources| ==> !SameNames(sources[i], sources[j])
  }

  // The request passes a configured header, whose condition says how to compare.
  predicate Passes(request: Request, h: Header) {
    && (h.condition == "exact" ==> request(HeaderMatcher(h.name, IsExactly(h.value))))
    && (h.condition == "prefix" ==> request(HeaderMatcher(h.name, StartsWith(h.value))))
    && (h.condition == "suffix" ==> request(HeaderMatcher(h.name, EndsWith(h.value))))
    && (h.condition == "contains" ==> request(HeaderMatcher(h.name, Includes(h.value))))
    && (h.condition == "regex" ==> request(HeaderMatcher(h.name, MatchesRegex(h.value))))
    && (h.condition !in {"exact", "prefix", "suffix", "contains", "regex"} ==> request(HeaderMatcher(h.name, Unset)))
  }

  // What a quota asks for, read off its fields: the path, the methods, every header
  // and, in an app group, the app.
  ghost predicate Wants(s: Source, identityKey: string, request: Request) {
    && request(HeaderMatcher(":path", MatchesRegex(GetPathRegex(s.quota.path))))
    && (exists regex: string :: MethodsFit(regex, s.quota.methods) && request(HeaderMatcher(":method", MatchesRegex(regex))))
    && (forall h <- s.quota.headers :: Passes(request, h))
    && (s.app != "" ==> request(HeaderMatcher(identityKey, IsExactly(s.app))))
  }

  lemma PassesByMatcher(request: Request, h: Header)
    ensures Passes(request, h) <==> request(GetHeaderMatcher(h.name, h.value, h.condition))
  {
    assert "exact" != "prefix" && "exact" != "suffix" && "exact" != "contains" && "exact" != "regex";
    assert "prefix"[0] == 'p' && "suffix"[0] == 's' && "contains"[0] == 'c' && "regex"[0] == 'r';
  }

  lemma AcceptsByFields(request: Request, group: Bytes, quota: Quota)
    ensures Accepts(request, GetQuotaAction(group, quota).headers) <==>
      && request(HeaderMatcher(":path", MatchesRegex(GetPathRegex(quota.path))))
      && request(HeaderMatcher(":method", MatchesRegex(MethodRegex(quota.methods))))
      && forall h <- quota.headers :: Passes(request, h)
  {
    var matchers := GetQuotaAction(group, quota).headers;
    var onPath, onMethod := GetHeaderMatcher(":path", GetPathRegex(quota.path), REGEX),
                              GetHeaderMatcher(":method", MethodRegex(quota.methods), REGEX);
    hide GetHeaderMatcher, Passes, GetPathRegex, MethodRegex;
    assert matchers[0] == onPath && matchers[1] == onMethod;
    RegexMatcher(":path", GetPathRegex(quota.path));
    RegexMatcher(":method", MethodRegex(quota.methods));
    if Accepts(request, matchers) {
      forall h | h in quota.headers ensures Passes(request, h) {
        var i :| 0 <= i < |quota.headers| && quota.headers[i] == h;
        assert matchers[i + 2] == GetHeaderMatcher(h.name, h.value, h.condition);
        PassesByMatcher(request, h);
      }
    }
    if request(onPath) && request(onMethod) && forall h <- quota.headers :: Passes(request, h) {
      forall k | 0 <= k < |matchers| ensures request(matchers[k]) {
        if k >= 2 { PassesByMatcher(request, quota.headers[k - 2]); }
      }
    }
  }

  lemma RegexMatcher(name: string, value: string)
    ensures GetHeaderMatcher(name, value, REGEX) == HeaderMatcher(name, MatchesRegex(value))
    ensures GetHeaderMatcher(name, value, EXACT) == HeaderMatcher(name, IsExactly(value))
  {
    assert REGEX[0] != EXACT[0] && REGEX[0] != PREFIX[0] && REGEX[0] != SUFFIX[0] && REGEX[0] != CONTAINS[0];
  }

  // The buckets a request draws on: descriptor j pays for limit i when the
  // entries limit i generates are the entries of descriptor j.
  predicate Pays(descriptors: seq<Descriptor>, limits: seq<RateLimit>, request: Request, i: int, j: int)
    requires 0 <= i < |limits| && 0 <= j < |descriptors|
  {
    Generated(limits[i], request) == Some(descriptors[j].entries)
  }

  lemma GeneratesIffWanted(d: Descriptor, l: RateLimit, s: Source, identityKey: string, request: Request)
    requires Realizes(d, l, s, identityKey)
    ensures d.entries == GetDescriptorConfig(s.group, s.app, s.quota, s.period).entries
    ensures Generated(l, request) == if Wants(s, identityKey, request) then Some(d.entries) else None
  {
    var quotaAction := GetQuotaAction(s.group, s.quota);
    AcceptsByFields(request, s.group, s.quota);
    WantsByRegex(s, identityKey, request);
    if s.app == "" {
      assert l.actions == [quotaAction];
    } else {
      var appAction := GetAssociatedAppAction(s.group, s.quota.name, s.app, identityKey).value;
      assert l.actions == [quotaAction, appAction];
      RegexMatcher(identityKey, s.app);
      assert Accepts(request, appAction.headers) <==> request(GetHeaderMatcher(identityKey, s.app, EXACT));
    }
    assert Entries(l.actions) == d.entries;
  }

  lemma WantsByRegex(s: Source, identityKey: string, request: Request)
    ensures Wants(s, identityKey, request) <==>
      && request(HeaderMatcher(":path", MatchesRegex(GetPathRegex(s.quota.path))))
      && request(HeaderMatcher(":method", MatchesRegex(MethodRegex(s.quota.methods))))
      && (forall h <- s.quota.headers :: Passes(request, h))
      && (s.app != "" ==> request(HeaderMatcher(identityKey, IsExactly(s.app))))
  {
    hide MethodsFit, MethodRegex, Passes;
    OneRegexFits(MethodRegex(s.quota.methods), s.quota.methods);
    forall regex: string ensures MethodsFit(regex, s.quota.methods) <==> regex == MethodRegex(s.quota.methods) {
      OneRegexFits(regex, s.quota.methods);
    }
  }

  // With colon-free group names and no two quotas of the same name, limit i
  // draws on bucket i and on no other, and does so exactly for the requests
  // that quota i describes.
  lemma EachQuotaItsOwnBucket(descriptors: seq<Descriptor>, limits: seq<RateLimit>, sources: seq<Source>,
                              identityKey: string, request: Request, i: int, j: int)
    requires InStep(descriptors, limits, sources, identityKey)
    requires DistinctNames(sources)
    requires forall s <- sources :: ColonFree(s.group)
    requires 0 <= i < |limits| && 0 <= j < |descriptors|
    ensures Pays(descriptors, limits, request, i, j) <==> i == j && Wants(sources[i], identityKey, request)
  {
    var s, t := sources[i], sources[j];
    assert Realizes(descriptors[i], limits[i], s, identityKey) && Realizes(descriptors[j], limits[j], t, identityKey);
    EntriesIdentifySource(s, t);
    GeneratesIffWanted(descriptors[i], limits[i], s, identityKey, request);
    hide Realizes, Generated, GetDescriptorConfig, Wants, ColonFree;
    if i != j { assert !SameNames(s, t); }
  }

  // v is n cut down to 32 bits.
  predicate CutDown(n: int, v: int) { 0 <= v < 0x1_0000_0000 && (n - v) % 0x1_0000_0000 == 0 }

  // What bucket i holds: the quota's amount, at once and again in every period, under
  // the keys of group and quota and, in an app group, of the app as well.
  predicate Holds(d: Descriptor, s: Source) {
    && CutDown(s.quota.maxAmount, d.bucket.maxTokens) && CutDown(s.quota.maxAmount, d.bucket.tokensPerFill)
    && d.bucket.fillInterval == s.period
    && |d.entries| == (if s.app == "" then 1 else 2)
    && d.entries[0].key == d.entries[0].value == EncodeToString(s.group + [COLON] + s.quota.name)
    && (s.app != "" ==>
          d.entries[1].key == d.entries[1].value == EncodeToString(s.group + [COLON] + s.quota.name + [COLON] + s.app))
  }

  lemma UInt32CutsDown(n: int)
    ensures CutDown(n, UInt32(n))
  {
    assert n - UInt32(n) == 0x1_0000_0000 * (n / 0x1_0000_0000);
  }

  lemma EachBucketHoldsItsQuota(descriptors: seq<Descriptor>, limits: seq<RateLimit>, sources: seq<Source>,
                                identityKey: string, i: nat)
    requires InStep(descriptors, limits, sources, identityKey) && i < |descriptors|
    ensures Holds(descriptors[i], sources[i])
  {
    var s := sources[i];
    assert Realizes(descriptors[i], limits[i], s, identityKey);
    JoinPair(s.group, s.quota.name);
    JoinTriple(s.group, s.quota.name, s.app);
    UInt32CutsDown(s.quota.maxAmount);
    hide UInt32, CutDown, Join;
  }

  // A quota of a group selected for the environment, with a period that parses; of an
  // app group once for each app.
  predicate Configured(s: Source, config: QuotaGroup, env: string, parse: Parser) {
    && parse(s.quota.timePeriod) == Some(s.period)
    && ((s.app == "" && exists g <- config.totalQuotaGroup :: env in g.workloadEnvSelectors && g.name == s.group && s.quota in g.quotas)
        || exists g <- config.appQuotaGroups ::
             env in g.workloadEnvSelectors && g.name == s.group && s.app in g.associatedApps && s.quota in g.quotas)
  }

  lemma {:induction false} QuotaSourcesAre(group: Bytes, app: Bytes, quotas: seq<Quota>, parse: Parser, s: Source)
    ensures s in QuotaSources(group, app, quotas, parse) <==>
      s.group == group && s.app == app && s.quota in quotas && parse(s.quota.timePeriod) == Some(s.period)
    decreases |quotas|
  {
    if quotas != [] {
      QuotaSourcesAre(group, app, quotas[..|quotas| - 1], parse, s);
      assert quotas == quotas[..|quotas| - 1] + [quotas[|quotas| - 1]];
    }
  }

  lemma {:induction false} AppSourcesAre(group: Bytes, apps: seq<Bytes>, quotas: seq<Quota>, parse: Parser, s: Source)
    ensures s in AppSources(group, apps, quotas, parse) <==>
      s.group == group && s.app in apps && s.quota in quotas && parse(s.quota.timePeriod) == Some(s.period)
    decreases |apps|
  {
    if apps != [] {
      AppSourcesAre(group, apps[..|apps| - 1], quotas, parse, s);
      QuotaSourcesAre(group, apps[|apps| - 1], quotas, parse, s);
      assert apps == apps[..|apps| - 1] + [apps[|apps| - 1]];
    }
  }

  lemma {:induction false} TotalSourcesAre(groups: seq<TotalGroup>, env: string, parse: Parser, s: Source)
    ensures s in TotalGroupSources(groups, env, parse) <==>
      s.app == "" && parse(s.quota.timePeriod) == Some(s.period)
      && exists g <- groups :: env in g.workloadEnvSelectors && g.name == s.group && s.quota in g.quotas
    decreases |groups|
  {
    if groups != [] {
      var n := |groups| - 1;
      TotalSourcesAre(groups[..n], env, parse, s);
      QuotaSourcesAre(groups[n].name, "", groups[n].quotas, parse, s);
      assert groups == groups[..n] + [groups[n]];
    }
  }

  lemma {:induction false} AppGroupSourcesAre(groups: seq<AppGroup>, env: string, parse: Parser, s: Source)
    ensures s in AppGroupSources(groups, env, parse) <==>
      parse(s.quota.timePeriod) == Some(s.period)
      && exists g <- groups :: env in g.workloadEnvSelectors && g.name == s.group && s.app in g.associatedApps && s.quota in g.quotas
    decreases |groups|
  {
    if groups != [] {
      var n := |groups| - 1;
      AppGroupSourcesAre(groups[..n], env, parse, s);
      AppSourcesAre(groups[n].name, groups[n].associatedApps, groups[n].quotas, parse, s);
      assert groups == groups[..n] + [groups[n]];
    }
  }

  // The lists are for exactly the configured quotas.
  lemma SourcesAreConfigured(config: QuotaGroup, env: string, parse: Parser, s: Source)
    ensures s in Sources(config, env, parse) <==> Configured(s, config, env, parse)
  {
    TotalSourcesAre(config.totalQuotaGroup, env, parse, s);
    AppGroupSourcesAre(config.appQuotaGroups, env, parse, s);
  }

  // With a colon in a group name two different quotas can land in one bucket.
  lemma ColonLetsQuotasCollide()
    ensures exists s: Source, t: Source :: !SameNames(s, t) && SameBucket(s, t)
  {
    var q := Quota("c", "1s", 1, "/", [], []);
    var s, t := Source("a:b", "", q, 1), Source("a", "", q.(name := "b:c"), 1);
    JoinPair("a:b", "c");
    JoinPair("a", "b:c");
    assert "a:b" + [COLON] + "c" == "a" + [COLON] + "b:c";
    assert s.group != t.group;
    assert SameBucket(s, t);
  }
}
