/** The `stream` configuration module: per-family session-cache limits set
    parameter by parameter, and the reload guard that refuses structural
    changes of those limits (src/stream/base/stream_module.cc). */
module Stream {
  import opened Ints
  import opened CString
  import opened Wrappers

  /** The module's name (MOD_NAME), also the fqn of the top-level table. */
  const ModName: string := "stream"

  /** One cache's limits (FlowConfig). */
  datatype FlowConfig = FlowConfig(
    maxSessions: u32,
    pruningTimeout: u32,
    nominalTimeout: u32,
    capWeight: u16)

  /** The whole module configuration (StreamModuleConfig). */
  datatype StreamModuleConfig = StreamModuleConfig(
    ipCfg: FlowConfig,
    icmpCfg: FlowConfig,
    tcpCfg: FlowConfig,
    udpCfg: FlowConfig,
    userCfg: FlowConfig,
    fileCfg: FlowConfig,
    footprint: u32)

  /** The six cache families, in the order set() tests their table names. */
  datatype Family = Ip | Icmp | Tcp | Udp | User | File

  function Rank(f: Family): nat
  {
    match f
    case Ip => 0 case Icmp => 1 case Tcp => 2 case Udp => 3 case User => 4 case File => 5
  }

  /** The parameter-table name of each family's cache. */
  function TableName(f: Family): string
  {
    match f
    case Ip => "ip_cache"
    case Icmp => "icmp_cache"
    case Tcp => "tcp_cache"
    case Udp => "udp_cache"
    case User => "user_cache"
    case File => "file_cache"
  }

  function Cache(c: StreamModuleConfig, f: Family): FlowConfig
  {
    match f
    case Ip => c.ipCfg
    case Icmp => c.icmpCfg
    case Tcp => c.tcpCfg
    case Udp => c.udpCfg
    case User => c.userCfg
    case File => c.fileCfg
  }

  /** Replaces one family's record; nothing else of the configuration changes. */
  function WithCache(c: StreamModuleConfig, f: Family, fc: FlowConfig): (r: StreamModuleConfig)
    ensures Cache(r, f) == fc
    ensures forall g :: g != f ==> Cache(r, g) == Cache(c, g)
    ensures r.footprint == c.footprint
  {
    match f
    case Ip => c.(ipCfg := fc)
    case Icmp => c.(icmpCfg := fc)
    case Tcp => c.(tcpCfg := fc)
    case Udp => c.(udpCfg := fc)
    case User => c.(userCfg := fc)
    case File => c.(fileCfg := fc)
  }

  const ZeroFlowConfig := FlowConfig(0, 0, 0, 0)

  /** What `config = {}` produces: every limit and the footprint zero. */
  const EmptyConfig := StreamModuleConfig(
    ZeroFlowConfig, ZeroFlowConfig, ZeroFlowConfig,
    ZeroFlowConfig, ZeroFlowConfig, ZeroFlowConfig, 0)

  /** The ranges the parameter tables declare for one cache:
      max_sessions 2:max32, both timeouts 1:max32, cap_weight 0:65535
      (the last is implied by the 16-bit field). */
  predicate InDeclaredRange(fc: FlowConfig)
  {
    2 <= fc.maxSessions && 1 <= fc.pruningTimeout && 1 <= fc.nominalTimeout
  }

  /** The per-family defaults of the parameter tables
      (max_sessions, pruning_timeout, idle_timeout, cap_weight). */
  function DefaultLimits(f: Family): (r: FlowConfig)
    ensures InDeclaredRange(r)
    ensures r.pruningTimeout == 30
    ensures f != Tcp ==> r.nominalTimeout == 180
  {
    match f
    case Ip => FlowConfig(16384, 30, 180, 64)
    case Icmp => FlowConfig(65536, 30, 180, 8)
    case Tcp => FlowConfig(262144, 30, 3600, 11500)
    case Udp => FlowConfig(131072, 30, 180, 128)
    case User => FlowConfig(1024, 30, 180, 256)
    case File => FlowConfig(128, 30, 180, 32)
  }

  /** A parameter value handed to set(): its name, its numeric value and its
      boolean value. */
  datatype Value = Value(name: string, num: nat, flag: bool)

  /** What set() reports: a result of its own, or that it passed the
      parameter on to the generic Module::set. */
  datatype SetStatus = Handled(ok: bool) | Delegated

  /** The state set() leaves behind: the configuration and the
      IP-frags-only run flag of the snort configuration. */
  datatype SetEffect = SetEffect(config: StreamModuleConfig, ipFragsOnly: bool, status: SetStatus)

  /** The cache table a parameter path belongs to: the first family, in
      set()'s order, whose table name occurs in `fqn`. */
  function Route(fqn: string): (r: Option<Family>)
    ensures r.Some? ==> Contains(fqn, TableName(r.value))
    ensures r.Some? ==> forall g :: Rank(g) < Rank(r.value) ==> !Contains(fqn, TableName(g))
    ensures r.None? <==> forall g :: !Contains(fqn, TableName(g))
  {
    if Contains(fqn, "ip_cache") then Some(Ip)
    else if Contains(fqn, "icmp_cache") then Some(Icmp)
    else if Contains(fqn, "tcp_cache") then Some(Tcp)
    else if Contains(fqn, "udp_cache") then Some(Udp)
    else if Contains(fqn, "user_cache") then Some(User)
    else if Contains(fqn, "file_cache") then Some(File)
    else None
  }

  /** The names a cache table accepts. */
  predicate IsCacheKey(name: string)
  {
    name == "max_sessions" || name == "pruning_timeout" || name == "idle_timeout" || name == "cap_weight"
  }

  /** Stores one cache-table parameter into a record; None for a name the
      table does not have. */
  function SetCacheField(fc: FlowConfig, v: Value): (r: Option<FlowConfig>)
    ensures r.Some? <==> IsCacheKey(v.name)
    ensures v.name == "max_sessions" ==> r == Some(fc.(maxSessions := Wrap32(v.num)))
    ensures v.name == "pruning_timeout" ==> r == Some(fc.(pruningTimeout := Wrap32(v.num)))
    ensures v.name == "idle_timeout" ==> r == Some(fc.(nominalTimeout := Wrap32(v.num)))
    ensures v.name == "cap_weight" ==> r == Some(fc.(capWeight := Wrap16(v.num)))
  {
    if v.name == "max_sessions" then Some(fc.(maxSessions := Wrap32(v.num)))
    else if v.name == "pruning_timeout" then Some(fc.(pruningTimeout := Wrap32(v.num)))
    else if v.name == "idle_timeout" then Some(fc.(nominalTimeout := Wrap32(v.num)))
    else if v.name == "cap_weight" then Some(fc.(capWeight := Wrap16(v.num)))
    else None
  }

  /** set() as a function of the state before it. */
  function ApplySet(c: StreamModuleConfig, ipFragsOnly: bool, fqn: string, v: Value): (r: SetEffect)
    // footprint: stored as 32 bits, every cache untouched
    ensures v.name == "footprint" ==>
      r.status == Handled(true) && r.config.footprint == Wrap32(v.num) &&
      (forall f :: Cache(r.config, f) == Cache(c, f)) && r.ipFragsOnly == ipFragsOnly
    // ip_frags_only: sets the run flag when true, never clears it
    ensures v.name == "ip_frags_only" ==>
      r.status == Handled(true) && r.config == c && r.ipFragsOnly == (ipFragsOnly || v.flag)
    // any other name outside a cache table goes to Module::set
    ensures v.name != "footprint" && v.name != "ip_frags_only" && Route(fqn).None? ==>
      r == SetEffect(c, ipFragsOnly, Delegated)
    // inside a cache table: at most the routed family's record changes
    ensures v.name != "footprint" && v.name != "ip_frags_only" && Route(fqn).Some? ==>
      var f := Route(fqn).value;
      r.ipFragsOnly == ipFragsOnly && r.config.footprint == c.footprint &&
      (forall g :: g != f ==> Cache(r.config, g) == Cache(c, g)) &&
      (r.status == Handled(true) <==> IsCacheKey(v.name)) &&
      (r.status == Handled(false) <==> !IsCacheKey(v.name)) &&
      (!IsCacheKey(v.name) ==> r.config == c) &&
      (IsCacheKey(v.name) ==> Some(Cache(r.config, f)) == SetCacheField(Cache(c, f), v))
  {
    if v.name == "footprint" then
      SetEffect(c.(footprint := Wrap32(v.num)), ipFragsOnly, Handled(true))
    else if v.name == "ip_frags_only" then
      SetEffect(c, ipFragsOnly || v.flag, Handled(true))
    else
      match Route(fqn)
      case None => SetEffect(c, ipFragsOnly, Delegated)
      case Some(f) =>
        match SetCacheField(Cache(c, f), v)
        case None => SetEffect(c, ipFragsOnly, Handled(false))
        case Some(fc) => SetEffect(WithCache(c, f, fc), ipFragsOnly, Handled(true))
  }

  /** check_cache_change(fqn, name, new_cfg, saved_cfg): 1 when a loaded
      (nonzero max_sessions) cache named in `fqn` would change a structural
      limit, else 0. The cap_weight is not structural. */
  function CheckCacheChange(fqn: string, name: string, newCfg: FlowConfig, savedCfg: FlowConfig): (r: nat)
    ensures r <= 1
    ensures r == 1 <==>
      savedCfg.maxSessions != 0 && Contains(fqn, name) &&
      (savedCfg.maxSessions != newCfg.maxSessions ||
       savedCfg.pruningTimeout != newCfg.pruningTimeout ||
       savedCfg.nominalTimeout != newCfg.nominalTimeout)
  {
    if savedCfg.maxSessions != 0 && Contains(fqn, name) then
      if savedCfg.maxSessions != newCfg.maxSessions
        || savedCfg.pruningTimeout != newCfg.pruningTimeout
        || savedCfg.nominalTimeout != newCfg.nominalTimeout
      then 1 else 0
    else 0
  }

  /** The six reload checks end() adds up. As in the source, the user and
      file caches are checked against the NEW ip record, not their own. */
  function TableIssues(fqn: string, c: StreamModuleConfig, saved: StreamModuleConfig): (r: nat)
    ensures r <= 6
    // only a loaded cache whose table name occurs in fqn can report
    ensures (forall f :: !Contains(fqn, TableName(f)) || Cache(saved, f).maxSessions == 0) ==> r == 0
    // a loaded user cache is reported when its saved max_sessions differs
    // from the new IP record's, whatever the new user record holds
    ensures (saved.userCfg.maxSessions != 0 && Contains(fqn, "user_cache") &&
             saved.userCfg.maxSessions != c.ipCfg.maxSessions) ==> r > 0
  {
    // name each family's table and record, so that the quantifier of the
    // second postcondition can be instantiated
    assert Cache(saved, Ip).maxSessions == saved.ipCfg.maxSessions && TableName(Ip) == "ip_cache";
    assert Cache(saved, Icmp).maxSessions == saved.icmpCfg.maxSessions && TableName(Icmp) == "icmp_cache";
    assert Cache(saved, Tcp).maxSessions == saved.tcpCfg.maxSessions && TableName(Tcp) == "tcp_cache";
    assert Cache(saved, Udp).maxSessions == saved.udpCfg.maxSessions && TableName(Udp) == "udp_cache";
    assert Cache(saved, User).maxSessions == saved.userCfg.maxSessions && TableName(User) == "user_cache";
    assert Cache(saved, File).maxSessions == saved.fileCfg.maxSessions && TableName(File) == "file_cache";
    CheckCacheChange(fqn, "ip_cache", c.ipCfg, saved.ipCfg)
    + CheckCacheChange(fqn, "icmp_cache", c.icmpCfg, saved.icmpCfg)
    + CheckCacheChange(fqn, "tcp_cache", c.tcpCfg, saved.tcpCfg)
    + CheckCacheChange(fqn, "udp_cache", c.udpCfg, saved.udpCfg)
    + CheckCacheChange(fqn, "user_cache", c.ipCfg, saved.userCfg)
    + CheckCacheChange(fqn, "file_cache", c.ipCfg, saved.fileCfg)
  }

  /** A footprint change counts as an issue once a configuration with a
      nonzero ip max_sessions has been committed. */
  function FootprintIssue(c: StreamModuleConfig, saved: StreamModuleConfig): (r: nat)
    ensures r <= 1
    ensures r == 1 <==> saved.ipCfg.maxSessions != 0 && c.footprint != saved.footprint
  {
    if saved.ipCfg.maxSessions != 0 && c.footprint != saved.footprint then 1 else 0
  }

  /** end()'s persistent pair: the last committed configuration and the
      issues counted since the last end of the whole `stream` table. */
  datatype ReloadGuard = ReloadGuard(saved: StreamModuleConfig, issues: nat)

  /** end() as a function of the state before it. */
  function EndStep(c: StreamModuleConfig, g: ReloadGuard, fqn: string): (r: ReloadGuard)
    // ending a sub-table: nothing is committed, issues only accumulate
    ensures fqn != ModName ==>
      r.saved == g.saved && g.issues <= r.issues <= g.issues + 6
    // ending `stream`: commit exactly when no issue was found, then reset
    ensures fqn == ModName ==>
      r.issues == 0 &&
      var total := g.issues + TableIssues(fqn, c, g.saved) + FootprintIssue(c, g.saved);
      r.saved == (if total == 0 then c else g.saved)
  {
    var n := g.issues + TableIssues(fqn, c, g.saved);
    if fqn == ModName then
      ReloadGuard(if n + FootprintIssue(c, g.saved) == 0 then c else g.saved, 0)
    else
      ReloadGuard(g.saved, n)
  }

  /** The stream module's state: the configuration being built, the
      reload guard (function statics in end()), and the one run flag of the
      snort configuration that set() may raise. */
  class StreamModule {
    var config: StreamModuleConfig
    var savedConfig: StreamModuleConfig
    var issueFound: nat
    var ipFragsOnly: bool

    constructor ()
      ensures config == EmptyConfig && savedConfig == EmptyConfig
      ensures issueFound == 0 && !ipFragsOnly
    {
      config := EmptyConfig;
      savedConfig := EmptyConfig;
      issueFound := 0;
      ipFragsOnly := false;
    }

    /** get_data: the configuration built so far. */
    function GetData(): (r: StreamModuleConfig)
      reads this
      ensures r == config
    {
      config
    }

    /** begin(): entering the `stream` table starts from an empty configuration. */
    method Begin(fqn: string) returns (ok: bool)
      modifies this`config
      ensures ok
      ensures config == if fqn == ModName then EmptyConfig else old(config)
    {
      if fqn == ModName {
        config := EmptyConfig;
      }
      return true;
    }

    method Set(fqn: string, v: Value) returns (status: SetStatus)
      modifies this`config, this`ipFragsOnly
      ensures SetEffect(config, ipFragsOnly, status) == ApplySet(old(config), old(ipFragsOnly), fqn, v)
    {
      var f: Family;
      if v.name == "footprint" {
        config := config.(footprint := Wrap32(v.num));
        return Handled(true);
      } else if v.name == "ip_frags_only" {
        if v.flag {
          ipFragsOnly := true;
        }
        return Handled(true);
      } else if Contains(fqn, "ip_cache") {
        f := Ip;
      } else if Contains(fqn, "icmp_cache") {
        f := Icmp;
      } else if Contains(fqn, "tcp_cache") {
        f := Tcp;
      } else if Contains(fqn, "udp_cache") {
        f := Udp;
      } else if Contains(fqn, "user_cache") {
        f := User;
      } else if Contains(fqn, "file_cache") {
        f := File;
      } else {
        return Delegated;
      }

      var fc := Cache(config, f);
      if v.name == "max_sessions" {
        fc := fc.(maxSessions := Wrap32(v.num));
      } else if v.name == "pruning_timeout" {
        fc := fc.(pruningTimeout := Wrap32(v.num));
      } else if v.name == "idle_timeout" {
        fc := fc.(nominalTimeout := Wrap32(v.num));
      } else if v.name == "cap_weight" {
        fc := fc.(capWeight := Wrap16(v.num));
      } else {
        return Handled(false);
      }
      config := WithCache(config, f, fc);
      return Handled(true);
    }

    method End(fqn: string) returns (ok: bool)
      modifies this`savedConfig, this`issueFound
      ensures ok
      ensures ReloadGuard(savedConfig, issueFound) == EndStep(config, ReloadGuard(old(savedConfig), old(issueFound)), fqn)
    {
      issueFound := issueFound + CheckCacheChange(fqn, "ip_cache", config.ipCfg, savedConfig.ipCfg);
      issueFound := issueFound + CheckCacheChange(fqn, "icmp_cache", config.icmpCfg, savedConfig.icmpCfg);
      issueFound := issueFound + CheckCacheChange(fqn, "tcp_cache", config.tcpCfg, savedConfig.tcpCfg);
      issueFound := issueFound + CheckCacheChange(fqn, "udp_cache", config.udpCfg, savedConfig.udpCfg);
      issueFound := issueFound + CheckCacheChange(fqn, "user_cache", config.ipCfg, savedConfig.userCfg);
      issueFound := issueFound + CheckCacheChange(fqn, "file_cache", config.ipCfg, savedConfig.fileCfg);

      if fqn == ModName {
        if savedConfig.ipCfg.maxSessions != 0 && config.footprint != savedConfig.footprint {
          issueFound := issueFound + 1;
        }
        if issueFound == 0 {
          savedConfig := config;
        }
        issueFound := 0;
      }
      return true;
    }
  }
}
