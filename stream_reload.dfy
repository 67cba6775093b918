/** Properties of the stream module's parameter routing and of its reload
    guard over whole configuration passes. */
module StreamReload {
  import opened Ints
  import opened CString
  import opened Stream
  import opened Wrappers

  /** The reload guard after end() has run for each table path in turn,
      with the configuration `c` already final. */
  function EndAll(c: StreamModuleConfig, g: ReloadGuard, fqns: seq<string>): ReloadGuard
    decreases |fqns|
  {
    if fqns == [] then g else EndAll(c, EndStep(c, g, fqns[0]), fqns[1..])
  }

  /** The record end() compares with the saved record of family `f`: the
      family's own, except for user and file, which are compared with the
      new ip record. */
  function ComparedRecord(c: StreamModuleConfig, f: Family): FlowConfig
  {
    if f == User || f == File then c.ipCfg else Cache(c, f)
  }

  /** The three structural limits agree (cap_weight may differ). */
  predicate SameStructure(a: FlowConfig, b: FlowConfig)
  {
    a.maxSessions == b.maxSessions && a.pruningTimeout == b.pruningTimeout &&
    a.nominalTimeout == b.nominalTimeout
  }

  /** The end of the top-level table runs none of the six cache checks:
      every table name has a '_' and `stream` does not. */
  lemma TopLevelRunsNoCacheCheck(c: StreamModuleConfig, saved: StreamModuleConfig)
    ensures TableIssues(ModName, c, saved) == 0
  {
  }

  /** A difference in cap_weight alone is never reported. */
  lemma CapWeightIsNotStructural(fqn: string, name: string, a: FlowConfig, b: FlowConfig)
    requires SameStructure(a, b)
    ensures CheckCacheChange(fqn, name, a, b) == 0
  {
  }

  /** Each cache check of end() reads the new configuration only through
      ComparedRecord: the new user and file records are never looked at. */
  lemma CheckedRecords(fqn: string, c: StreamModuleConfig, saved: StreamModuleConfig)
    ensures TableIssues(fqn, c, saved) ==
      CheckCacheChange(fqn, "ip_cache", ComparedRecord(c, Ip), saved.ipCfg)
      + CheckCacheChange(fqn, "icmp_cache", ComparedRecord(c, Icmp), saved.icmpCfg)
      + CheckCacheChange(fqn, "tcp_cache", ComparedRecord(c, Tcp), saved.tcpCfg)
      + CheckCacheChange(fqn, "udp_cache", ComparedRecord(c, Udp), saved.udpCfg)
      + CheckCacheChange(fqn, "user_cache", ComparedRecord(c, User), saved.userCfg)
      + CheckCacheChange(fqn, "file_cache", ComparedRecord(c, File), saved.fileCfg)
    ensures forall u, fl :: TableIssues(fqn, c.(userCfg := u, fileCfg := fl), saved) == TableIssues(fqn, c, saved)
  {
  }

  /** The first configuration pass (nothing committed yet) always commits:
      whatever tables are ended first, ending `stream` saves `c`. */
  lemma {:induction false} FirstLoadCommits(c: StreamModuleConfig, fqns: seq<string>)
    requires ModName !in fqns
    ensures EndAll(c, ReloadGuard(EmptyConfig, 0), fqns + [ModName]) == ReloadGuard(c, 0)
  {
    if fqns == [] {
      TopLevelRunsNoCacheCheck(c, EmptyConfig);
    } else {
      assert EndStep(c, ReloadGuard(EmptyConfig, 0), fqns[0]) == ReloadGuard(EmptyConfig, 0);
      assert (fqns + [ModName])[1..] == fqns[1..] + [ModName];
      FirstLoadCommits(c, fqns[1..]);
    }
  }

  /** Issues counted by earlier ends keep the commit from happening. */
  lemma {:induction false} IssuesBlockCommit(c: StreamModuleConfig, g: ReloadGuard, fqns: seq<string>)
    requires g.issues > 0
    requires ModName !in fqns
    ensures EndAll(c, g, fqns + [ModName]) == ReloadGuard(g.saved, 0)
    decreases |fqns|
  {
    if fqns == [] {
    } else {
      assert (fqns + [ModName])[1..] == fqns[1..] + [ModName];
      IssuesBlockCommit(c, EndStep(c, g, fqns[0]), fqns[1..]);
    }
  }

  /** Ending the tables of `a` and then those of `b` is ending `a + b`. */
  lemma {:induction false} EndAllAppend(c: StreamModuleConfig, g: ReloadGuard, a: seq<string>, b: seq<string>)
    ensures EndAll(c, g, a + b) == EndAll(c, EndAll(c, g, a), b)
    decreases |a|
  {
    if a == [] {
      assert a + b == b;
    } else {
      assert (a + b)[1..] == a[1..] + b;
      EndAllAppend(c, EndStep(c, g, a[0]), a[1..], b);
    }
  }

  /** Ending sub-tables never commits and never lowers the issue count. */
  lemma {:induction false} SubTablesKeepSaved(c: StreamModuleConfig, g: ReloadGuard, fqns: seq<string>)
    requires ModName !in fqns
    ensures EndAll(c, g, fqns).saved == g.saved && EndAll(c, g, fqns).issues >= g.issues
    decreases |fqns|
  {
    if fqns != [] {
      SubTablesKeepSaved(c, EndStep(c, g, fqns[0]), fqns[1..]);
    }
  }

  /** The end of a loaded cache's table, with a structural change of the
      record compared with it, counts an issue. */
  lemma StructuralChangeCounted(c: StreamModuleConfig, saved: StreamModuleConfig, f: Family)
    requires Cache(saved, f).maxSessions != 0
    requires !SameStructure(ComparedRecord(c, f), Cache(saved, f))
    ensures TableIssues(ModName + "." + TableName(f), c, saved) > 0
  {
    var path := ModName + "." + TableName(f);
    assert path == (ModName + ".") + TableName(f) + "";
    ContainsMiddle(ModName + ".", TableName(f), "");
    CheckedRecords(path, c, saved);
  }

  /** Reloading with a structural change of a loaded cache is refused: in a
      pass that ends that cache's table anywhere before `stream`, the saved
      configuration stays as it was. */
  lemma StructuralChangeRefused(c: StreamModuleConfig, saved: StreamModuleConfig, f: Family,
                                pre: seq<string>, rest: seq<string>)
    requires Cache(saved, f).maxSessions != 0
    requires !SameStructure(ComparedRecord(c, f), Cache(saved, f))
    requires ModName !in pre && ModName !in rest
    ensures EndAll(c, ReloadGuard(saved, 0), pre + [ModName + "." + TableName(f)] + rest + [ModName]) ==
      ReloadGuard(saved, 0)
  {
    var path := ModName + "." + TableName(f);
    var g0 := ReloadGuard(saved, 0);
    var g1 := EndAll(c, g0, pre);
    SubTablesKeepSaved(c, g0, pre);
    StructuralChangeCounted(c, saved, f);
    assert path != ModName;
    var g2 := EndStep(c, g1, path);
    assert g2.issues > 0 && g2.saved == saved;
    assert EndAll(c, g1, [path]) == g2;
    assert pre + [path] + rest + [ModName] == pre + ([path] + (rest + [ModName]));
    EndAllAppend(c, g0, pre, [path] + (rest + [ModName]));
    EndAllAppend(c, g1, [path], rest + [ModName]);
    IssuesBlockCommit(c, g2, rest);
  }

  /** A reload whose every compared record keeps its structure (cap_weight
      may change) and whose footprint is unchanged commits the new
      configuration, whatever tables are ended before `stream`. */
  lemma {:induction false} CapWeightChangeReloads(c: StreamModuleConfig, saved: StreamModuleConfig, fqns: seq<string>)
    requires forall f :: SameStructure(ComparedRecord(c, f), Cache(saved, f))
    requires c.footprint == saved.footprint
    requires ModName !in fqns
    ensures EndAll(c, ReloadGuard(saved, 0), fqns + [ModName]) == ReloadGuard(c, 0)
  {
    CheckedRecords(if fqns == [] then ModName else fqns[0], c, saved);
    if fqns == [] {
      TopLevelRunsNoCacheCheck(c, saved);
    } else {
      assert EndStep(c, ReloadGuard(saved, 0), fqns[0]) == ReloadGuard(saved, 0);
      assert (fqns + [ModName])[1..] == fqns[1..] + [ModName];
      CapWeightChangeReloads(c, saved, fqns[1..]);
    }
  }

  /** A footprint change after a committed load with nonzero ip
      max_sessions is refused at the end of `stream`. */
  lemma FootprintChangeRefused(c: StreamModuleConfig, g: ReloadGuard)
    requires g.saved.ipCfg.maxSessions != 0 && c.footprint != g.saved.footprint
    ensures EndStep(c, g, ModName) == ReloadGuard(g.saved, 0)
  {
  }

  /** The defaults of every cache table. */
  const DefaultConfig := StreamModuleConfig(
    DefaultLimits(Ip), DefaultLimits(Icmp), DefaultLimits(Tcp),
    DefaultLimits(Udp), DefaultLimits(User), DefaultLimits(File), 0)

  /** A path names exactly one cache table. */
  predicate NamesOnly(path: string, f: Family)
  {
    Contains(path, TableName(f)) && forall g :: g != f ==> !Contains(path, TableName(g))
  }

  /** The path of the user cache table. */
  const UserCachePath: string := "stream.user_cache"

  // The path lacks a character of each of the other five table names.
  lemma UserPathLacksIp() ensures !Contains(UserCachePath, "ip_cache")
  { NotContainsMissingChar(UserCachePath, "ip_cache", 'i'); }
  lemma UserPathLacksIcmp() ensures !Contains(UserCachePath, "icmp_cache")
  { NotContainsMissingChar(UserCachePath, "icmp_cache", 'i'); }
  lemma UserPathLacksTcp() ensures !Contains(UserCachePath, "tcp_cache")
  { NotContainsMissingChar(UserCachePath, "tcp_cache", 'p'); }
  lemma UserPathLacksUdp() ensures !Contains(UserCachePath, "udp_cache")
  { NotContainsMissingChar(UserCachePath, "udp_cache", 'd'); }
  lemma UserPathLacksFile() ensures !Contains(UserCachePath, "file_cache")
  { NotContainsMissingChar(UserCachePath, "file_cache", 'f'); }

  lemma UserPathNamesOnlyUser()
    ensures NamesOnly(UserCachePath, User)
  {
    assert UserCachePath == "stream." + "user_cache" + "";
    ContainsMiddle("stream.", "user_cache", "");
    UserPathLacksIp();
    UserPathLacksIcmp();
    UserPathLacksTcp();
    UserPathLacksUdp();
    UserPathLacksFile();
  }

  /** A path naming only one table is routed to that table by set(). */
  lemma RouteOnly(path: string, f: Family)
    requires NamesOnly(path, f)
    ensures Route(path) == Some(f)
  {
  }

  /** A path naming only one table runs only that table's reload check. */
  lemma TableIssuesOnly(path: string, f: Family, c: StreamModuleConfig, saved: StreamModuleConfig)
    requires NamesOnly(path, f)
    ensures TableIssues(path, c, saved) ==
      CheckCacheChange(path, TableName(f), ComparedRecord(c, f), Cache(saved, f))
  {
    CheckedRecords(path, c, saved);
    assert f != Ip ==> !Contains(path, TableName(Ip));
    assert f != Icmp ==> !Contains(path, TableName(Icmp));
    assert f != Tcp ==> !Contains(path, TableName(Tcp));
    assert f != Udp ==> !Contains(path, TableName(Udp));
    assert f != User ==> !Contains(path, TableName(User));
    assert f != File ==> !Contains(path, TableName(File));
  }

  /** Because the user check compares the new ip record, reloading the
      default configuration unchanged reports an issue when user_cache ends. */
  lemma UnchangedDefaultsReportUserCache()
    ensures EndStep(DefaultConfig, ReloadGuard(DefaultConfig, 0), UserCachePath).issues == 1
  {
    UserPathNamesOnlyUser();
    TableIssuesOnly(UserCachePath, User, DefaultConfig, DefaultConfig);
  }

  /** ... and a change of the user cache's max_sessions goes unnoticed when
      the saved user record happens to match the new ip record. */
  lemma UserCacheChangeCommitted(saved: StreamModuleConfig, n: u32)
    requires saved.userCfg == saved.ipCfg && saved.userCfg.maxSessions != 0
    requires n != saved.userCfg.maxSessions
    ensures var c := saved.(userCfg := saved.userCfg.(maxSessions := n));
      EndAll(c, ReloadGuard(saved, 0), [UserCachePath, ModName]) == ReloadGuard(c, 0)
  {
    var c := saved.(userCfg := saved.userCfg.(maxSessions := n));
    UserPathNamesOnlyUser();
    TableIssuesOnly(UserCachePath, User, c, saved);
    TopLevelRunsNoCacheCheck(c, saved);
    var g1 := EndStep(c, ReloadGuard(saved, 0), UserCachePath);
    assert g1 == ReloadGuard(saved, 0);
    var g2 := EndStep(c, g1, ModName);
    assert g2 == ReloadGuard(c, 0);
    assert [UserCachePath, ModName][1..] == [ModName];
    assert EndAll(c, g1, [ModName]) == EndAll(c, g2, []);
  }

  /** set() routes the user cache table's parameters to the user record. */
  lemma UserPathRoutesToUser()
    ensures Route(UserCachePath) == Some(User)
  {
    UserPathNamesOnlyUser();
    RouteOnly(UserCachePath, User);
  }

  /** Setting the four parameters of a cache table to the table's defaults,
      starting from begin()'s empty configuration, yields that family's
      default limits and leaves every other family empty. */
  lemma DefaultsThroughSet(fqn: string, f: Family)
    requires Route(fqn) == Some(f)
    ensures
      var d := DefaultLimits(f);
      var e1 := ApplySet(EmptyConfig, false, fqn, Value("max_sessions", d.maxSessions, false));
      var e2 := ApplySet(e1.config, e1.ipFragsOnly, fqn, Value("pruning_timeout", d.pruningTimeout, false));
      var e3 := ApplySet(e2.config, e2.ipFragsOnly, fqn, Value("idle_timeout", d.nominalTimeout, false));
      var e4 := ApplySet(e3.config, e3.ipFragsOnly, fqn, Value("cap_weight", d.capWeight, false));
      Cache(e4.config, f) == d && e4.config == WithCache(EmptyConfig, f, d) &&
      e1.status == e2.status == e3.status == e4.status == Handled(true)
  {
  }
}
