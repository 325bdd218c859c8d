/** Kepler's configuration: merging documents over the defaults, overlaying the spec, validating. */
module KeplerConfig {
  import opened Common
  import Api
  import Levels = MetricLevels

  datatype Redfish = Redfish(enabled: Option<bool>, nodeName: string, configFile: string, httpTimeout: int)

  datatype Hwmon = Hwmon(forceEnabled: Option<bool>, zones: seq<string>, chipRules: seq<string>)

  datatype Gpu = Gpu(enabled: Option<bool>, idlePower: real)

  datatype Experimental = Experimental(redfish: Redfish, hwmon: Hwmon, gpu: Gpu)

  datatype Config = Config(
    logLevel: string,
    logFormat: string,
    sysfs: string,
    procfs: string,
    interval: int,
    staleness: int,
    maxTerminated: int,
    minTerminatedEnergy: int,
    raplZones: seq<string>,
    stdout: Option<bool>,
    prometheus: Option<bool>,
    debugCollectors: seq<string>,
    metricsLevel: Levels.Level,
    webConfig: string,
    listenAddresses: seq<string>,
    pprof: Option<bool>,
    fakeCpu: Option<bool>,
    fakeCpuZones: seq<string>,
    kube: Option<bool>,
    kubeConfig: string,
    kubeNode: string,
    podInformerMode: string,
    pollInterval: int,
    experimental: Option<Experimental>)

  /** YAML, the host's files and address syntax, as far as this component sees them. */
  datatype Host = Host(
    parse: string -> Option<Config>,
    render: Config -> string,
    readableDir: string -> bool,
    readableFile: string -> bool,
    listenPort: string -> Option<int>)

  const MILLISECOND: int := 1_000_000
  const SECOND: int := 1_000_000_000
  const METRICS_LEVEL_DEFAULT: Levels.Level := 25 // node, vm and pod

  const DEFAULT := Config(
    "info", "text", "/sys", "/proc",
    5 * SECOND, 500 * MILLISECOND, 500, 10,
    [], Some(false), Some(true), ["go"], Levels.ALL,
    "", [":28282"], Some(false), Some(false), [],
    Some(false), "", "", "kubelet", 15 * SECOND,
    None)

  // ---- merging --------------------------------------------------------------

  /** Override with a value unless it is the empty one. */
  function Over<T(==)>(dst: T, src: T, empty: T): T {
    if src == empty then dst else src
  }

  function OverExperimental(dst: Option<Experimental>, src: Option<Experimental>): Option<Experimental> {
    if src.None? then dst
    else if dst.None? then src
    else
      var d, s := dst.value, src.value;
      Some(Experimental(
        Redfish(Over(d.redfish.enabled, s.redfish.enabled, None), Over(d.redfish.nodeName, s.redfish.nodeName, ""),
                Over(d.redfish.configFile, s.redfish.configFile, ""),
                Over(d.redfish.httpTimeout, s.redfish.httpTimeout, 0)),
        Hwmon(Over(d.hwmon.forceEnabled, s.hwmon.forceEnabled, None), Over(d.hwmon.zones, s.hwmon.zones, []),
              Over(d.hwmon.chipRules, s.hwmon.chipRules, [])),
        Gpu(Over(d.gpu.enabled, s.gpu.enabled, None), Over(d.gpu.idlePower, s.gpu.idlePower, 0.0))))
  }

  /** Field-wise override: what a document sets wins, what it leaves empty stays. */
  function Override(dst: Config, src: Config): Config {
    Config(
      Over(dst.logLevel, src.logLevel, ""),
      Over(dst.logFormat, src.logFormat, ""),
      Over(dst.sysfs, src.sysfs, ""),
      Over(dst.procfs, src.procfs, ""),
      Over(dst.interval, src.interval, 0),
      Over(dst.staleness, src.staleness, 0),
      Over(dst.maxTerminated, src.maxTerminated, 0),
      Over(dst.minTerminatedEnergy, src.minTerminatedEnergy, 0),
      Over(dst.raplZones, src.raplZones, []),
      Over(dst.stdout, src.stdout, None),
      Over(dst.prometheus, src.prometheus, None),
      Over(dst.debugCollectors, src.debugCollectors, []),
      Over(dst.metricsLevel, src.metricsLevel, 0),
      Over(dst.webConfig, src.webConfig, ""),
      Over(dst.listenAddresses, src.listenAddresses, []),
      Over(dst.pprof, src.pprof, None),
      Over(dst.fakeCpu, src.fakeCpu, None),
      Over(dst.fakeCpuZones, src.fakeCpuZones, []),
      Over(dst.kube, src.kube, None),
      Over(dst.kubeConfig, src.kubeConfig, ""),
      Over(dst.kubeNode, src.kubeNode, ""),
      Over(dst.podInformerMode, src.podInformerMode, ""),
      Over(dst.pollInterval, src.pollInterval, 0),
      OverExperimental(dst.experimental, src.experimental))
  }

  function Merged(parse: string -> Option<Config>, base: Config, docs: seq<string>): Config {
    if |docs| == 0 then base
    else
      var before := Merged(parse, base, docs[..|docs| - 1]);
      match parse(docs[|docs| - 1])
      case None => before
      case Some(additional) => Override(before, additional)
  }

  predicate AllParse(parse: string -> Option<Config>, docs: seq<string>) {
    forall i :: 0 <= i < |docs| ==> parse(docs[i]).Some?
  }

  function Built(parse: string -> Option<Config>, base: Config, docs: seq<string>): Option<Config> {
    if AllParse(parse, docs) then Some(Merged(parse, base, docs)) else None
  }

  /** One more document. */
  lemma MergedNext(parse: string -> Option<Config>, base: Config, docs: seq<string>, i: nat)
    requires i < |docs|
    ensures AllParse(parse, docs[..i + 1]) <==> AllParse(parse, docs[..i]) && parse(docs[i]).Some?
    ensures var before := Merged(parse, base, docs[..i]);
            Merged(parse, base, docs[..i + 1])
              == if parse(docs[i]).Some? then Override(before, parse(docs[i]).value) else before
  {
    assert docs[..i + 1][..i] == docs[..i];
    assert forall j :: 0 <= j < i + 1 ==> docs[..i + 1][j] == docs[j];
    assert forall j :: 0 <= j < i ==> docs[..i][j] == docs[j];
  }

  class Builder {
    var yamls: seq<string>
    var config: Option<Config>

    constructor ()
      ensures yamls == [] && config == None
    {
      yamls, config := [], None;
    }

    method Merge(yaml: string)
      modifies this
      ensures yamls == old(yamls) + [yaml] && config == old(config)
    {
      yamls := yamls + [yaml];
    }

    /** Documents that do not parse are skipped, but fail the build as a whole. */
    method Build(parse: string -> Option<Config>) returns (built: Option<Config>)
      modifies this
      ensures yamls == old(yamls)
      ensures built == Built(parse, old(config).GetOr(DEFAULT), yamls)
      ensures config == Some(Merged(parse, old(config).GetOr(DEFAULT), yamls))
    {
      if config.None? {
        config := Some(DEFAULT);
      }
      ghost var base := config.value;
      var failures := 0;
      for i := 0 to |yamls|
        invariant yamls == old(yamls)
        invariant config == Some(Merged(parse, base, yamls[..i]))
        invariant failures == 0 <==> AllParse(parse, yamls[..i])
        invariant failures >= 0
      {
        MergedNext(parse, base, yamls, i);
        var additional := parse(yamls[i]);
        if additional.None? {
          failures := failures + 1;
        } else {
          config := Some(Override(config.value, additional.value));
        }
      }
      assert yamls[..|yamls|] == yamls;
      if failures > 0 {
        return None;
      }
      return config;
    }
  }

  // ---- the spec's overlay ---------------------------------------------------

  function SpecLevel(c: Api.ConfigSpec): Levels.Level {
    if |c.metricLevels| > 0 then Levels.Parse(c.metricLevels).GetOr(METRICS_LEVEL_DEFAULT) else METRICS_LEVEL_DEFAULT
  }

  function Overlaid(cfg: Config, c: Api.ConfigSpec): Config {
    cfg.(logLevel := c.logLevel, sysfs := Api.SYSFS_MOUNT, procfs := Api.PROCFS_MOUNT, metricsLevel := SpecLevel(c),
         staleness := c.staleness.GetOr(500 * MILLISECOND), interval := c.sampleRate.GetOr(5 * SECOND),
         maxTerminated := c.maxTerminated.GetOr(500))
  }

  // ---- validation -----------------------------------------------------------

  datatype Skip = SkipHost | SkipExperimental

  datatype Problem =
    | BadLogLevel | BadLogFormat | BadSysfs | BadProcfs | BadWebConfig
    | NoListenAddress | EmptyListenAddress | BadListenAddress(address: string)
    | NegativeInterval | NegativeStaleness | NegativeEnergy
    | BadKubeConfig | NoNodeName | BadPodInformerMode
    | NoRedfishConfig | BadRedfishConfig

  function If(c: bool, p: Problem): seq<Problem> {
    if c then [p] else []
  }

  predicate GoodAddress(h: Host, address: string) {
    h.listenPort(address).Some? && 1 <= h.listenPort(address).value <= 65535
  }

  function AddressProblem(h: Host, address: string): seq<Problem> {
    if address == "" then [EmptyListenAddress]
    else If(!GoodAddress(h, address), BadListenAddress(address))
  }

  function AddressProblems(h: Host, addresses: seq<string>): seq<Problem> {
    if |addresses| == 0 then []
    else AddressProblems(h, addresses[..|addresses| - 1]) + AddressProblem(h, addresses[|addresses| - 1])
  }

  predicate AnyExperimental(cfg: Config) {
    cfg.experimental.Some? &&
    (cfg.experimental.value.redfish.enabled == Some(true) || cfg.experimental.value.hwmon.forceEnabled == Some(true)
     || cfg.experimental.value.gpu.enabled == Some(true))
  }

  function ExperimentalProblems(h: Host, cfg: Config, skips: set<Skip>): seq<Problem> {
    if !AnyExperimental(cfg) || SkipExperimental in skips then []
    else if cfg.experimental.value.redfish.enabled != Some(true) then []
    else if cfg.experimental.value.redfish.configFile == "" then [NoRedfishConfig]
    else If(!h.readableFile(cfg.experimental.value.redfish.configFile), BadRedfishConfig)
  }

  function KubeProblems(h: Host, cfg: Config): seq<Problem> {
    if cfg.kube != Some(true) then []
    else If(cfg.kubeConfig != "" && !h.readableFile(cfg.kubeConfig), BadKubeConfig)
         + If(cfg.kubeNode == "", NoNodeName)
         + If(cfg.podInformerMode != "kubelet" && cfg.podInformerMode != "apiserver", BadPodInformerMode)
  }

  function LogProblems(cfg: Config): seq<Problem> {
    If(cfg.logLevel !in {"debug", "info", "warn", "error"}, BadLogLevel)
    + If(cfg.logFormat !in {"text", "json"}, BadLogFormat)
  }

  function WebProblems(h: Host, cfg: Config): seq<Problem> {
    If(cfg.webConfig != "" && !h.readableFile(cfg.webConfig), BadWebConfig)
    + If(|cfg.listenAddresses| == 0, NoListenAddress)
    + AddressProblems(h, cfg.listenAddresses)
  }

  function MonitorProblems(cfg: Config): seq<Problem> {
    If(cfg.interval < 0, NegativeInterval)
    + If(cfg.staleness < 0, NegativeStaleness)
    + If(cfg.minTerminatedEnergy < 0, NegativeEnergy)
  }

  function HostProblems(h: Host, cfg: Config, skips: set<Skip>): seq<Problem> {
    if SkipHost in skips then []
    else If(!h.readableDir(cfg.sysfs), BadSysfs) + If(!h.readableDir(cfg.procfs), BadProcfs)
  }

  function Problems(h: Host, cfg: Config, skips: set<Skip>): seq<Problem> {
    LogProblems(cfg) + HostProblems(h, cfg, skips) + WebProblems(h, cfg) + MonitorProblems(cfg)
    + KubeProblems(h, cfg) + ExperimentalProblems(h, cfg, skips)
  }

  method ValidateAddresses(h: Host, addresses: seq<string>) returns (errs: seq<Problem>)
    ensures errs == AddressProblems(h, addresses)
  {
    errs := [];
    for i := 0 to |addresses|
      invariant errs == AddressProblems(h, addresses[..i])
    {
      assert addresses[..i + 1][..i] == addresses[..i];
      if addresses[i] == "" {
        errs := errs + [EmptyListenAddress];
        continue;
      }
      if !GoodAddress(h, addresses[i]) {
        errs := errs + [BadListenAddress(addresses[i])];
      }
    }
    assert addresses[..|addresses|] == addresses;
  }

  method ValidateExperimentalConfig(h: Host, cfg: Config, skips: set<Skip>) returns (errs: seq<Problem>)
    ensures errs == ExperimentalProblems(h, cfg, skips)
  {
    errs := [];
    if !AnyExperimental(cfg) || SkipExperimental in skips {
      return;
    }
    var redfish := cfg.experimental.value.redfish;
    if redfish.enabled == Some(true) {
      if redfish.configFile == "" {
        errs := errs + [NoRedfishConfig];
      } else if !h.readableFile(redfish.configFile) {
        errs := errs + [BadRedfishConfig];
      }
    }
  }

  // The blocks of the validation, each appending to the problems found so far.

  method ValidateLog(cfg: Config) returns (errs: seq<Problem>)
    ensures errs == LogProblems(cfg)
  {
    errs := [];
    if cfg.logLevel !in {"debug", "info", "warn", "error"} {
      errs := errs + [BadLogLevel];
    }
    if cfg.logFormat !in {"text", "json"} {
      errs := errs + [BadLogFormat];
    }
  }

  method ValidateHost(h: Host, cfg: Config, skips: set<Skip>, sofar: seq<Problem>) returns (errs: seq<Problem>)
    ensures errs == sofar + HostProblems(h, cfg, skips)
  {
    errs := sofar;
    if SkipHost !in skips {
      if !h.readableDir(cfg.sysfs) {
        errs := errs + [BadSysfs];
      }
      if !h.readableDir(cfg.procfs) {
        errs := errs + [BadProcfs];
      }
    }
  }

  lemma Reassociate(sofar: seq<Problem>, a: seq<Problem>, b: seq<Problem>, c: seq<Problem>)
    ensures (sofar + a) + b == sofar + (a + b)
    ensures (sofar + (a + b)) + c == sofar + (a + b + c)
  {
  }

  method ValidateWeb(h: Host, cfg: Config, sofar: seq<Problem>) returns (errs: seq<Problem>)
    ensures errs == sofar + WebProblems(h, cfg)
  {
    errs := sofar;
    if cfg.webConfig != "" {
      if !h.readableFile(cfg.webConfig) {
        errs := errs + [BadWebConfig];
      }
    }
    ghost var file := If(cfg.webConfig != "" && !h.readableFile(cfg.webConfig), BadWebConfig);
    ghost var none := If(|cfg.listenAddresses| == 0, NoListenAddress);
    Reassociate(sofar, file, none, AddressProblems(h, cfg.listenAddresses));
    assert errs == sofar + file;
    if |cfg.listenAddresses| == 0 {
      errs := errs + [NoListenAddress];
    }
    assert errs == sofar + (file + none);
    var addressErrs := ValidateAddresses(h, cfg.listenAddresses);
    errs := errs + addressErrs;
  }

  method ValidateMonitor(cfg: Config, sofar: seq<Problem>) returns (errs: seq<Problem>)
    ensures errs == sofar + MonitorProblems(cfg)
  {
    errs := sofar;
    if cfg.interval < 0 {
      errs := errs + [NegativeInterval];
    }
    if cfg.staleness < 0 {
      errs := errs + [NegativeStaleness];
    }
    if cfg.minTerminatedEnergy < 0 {
      errs := errs + [NegativeEnergy];
    }
  }

  method ValidateKube(h: Host, cfg: Config, sofar: seq<Problem>) returns (errs: seq<Problem>)
    ensures errs == sofar + KubeProblems(h, cfg)
  {
    errs := sofar;
    if cfg.kube == Some(true) {
      if cfg.kubeConfig != "" {
        if !h.readableFile(cfg.kubeConfig) {
          errs := errs + [BadKubeConfig];
        }
      }
      if cfg.kubeNode == "" {
        errs := errs + [NoNodeName];
      }
      if cfg.podInformerMode != "kubelet" && cfg.podInformerMode != "apiserver" {
        errs := errs + [BadPodInformerMode];
      }
    }
  }

  method Validate(h: Host, cfg: Config, skips: set<Skip>) returns (errs: seq<Problem>)
    ensures errs == Problems(h, cfg, skips)
  {
    errs := ValidateLog(cfg);
    errs := ValidateHost(h, cfg, skips, errs);
    errs := ValidateWeb(h, cfg, errs);
    errs := ValidateMonitor(cfg, errs);
    errs := ValidateKube(h, cfg, errs);
    var experimentalErrs := ValidateExperimentalConfig(h, cfg, skips);
    if |experimentalErrs| > 0 {
      errs := errs + experimentalErrs;
    }
  }

  ghost predicate GoodAddresses(h: Host, addresses: seq<string>) {
    forall i :: 0 <= i < |addresses| ==> addresses[i] != "" && GoodAddress(h, addresses[i])
  }

  /** What a configuration must satisfy when host paths and experimental features are not checked. */
  ghost predicate Acceptable(h: Host, cfg: Config) {
    && cfg.logLevel in {"debug", "info", "warn", "error"}
    && cfg.logFormat in {"text", "json"}
    && (cfg.webConfig == "" || h.readableFile(cfg.webConfig))
    && |cfg.listenAddresses| > 0 && GoodAddresses(h, cfg.listenAddresses)
    && cfg.interval >= 0 && cfg.staleness >= 0 && cfg.minTerminatedEnergy >= 0
    && (cfg.kube == Some(true) ==>
          && (cfg.kubeConfig == "" || h.readableFile(cfg.kubeConfig))
          && cfg.kubeNode != ""
          && cfg.podInformerMode in {"kubelet", "apiserver"})
  }

  lemma {:induction false} NoAddressProblems(h: Host, addresses: seq<string>)
    ensures AddressProblems(h, addresses) == [] <==> GoodAddresses(h, addresses)
  {
    if |addresses| > 0 {
      var n := |addresses| - 1;
      NoAddressProblems(h, addresses[..n]);
      assert forall i :: 0 <= i < n ==> addresses[..n][i] == addresses[i];
      assert GoodAddresses(h, addresses) <==>
        GoodAddresses(h, addresses[..n]) && addresses[n] != "" && GoodAddress(h, addresses[n]);
    }
  }

  const SKIPS: set<Skip> := {SkipHost, SkipExperimental}

  lemma NoProblemsIffAcceptable(h: Host, cfg: Config)
    ensures Problems(h, cfg, SKIPS) == [] <==> Acceptable(h, cfg)
  {
    NoAddressProblems(h, cfg.listenAddresses);
  }

  /** The same for any choice of what to skip. */
  ghost predicate AcceptableUnder(h: Host, cfg: Config, skips: set<Skip>) {
    && Acceptable(h, cfg)
    && (SkipHost !in skips ==> h.readableDir(cfg.sysfs) && h.readableDir(cfg.procfs))
    && (SkipExperimental !in skips && cfg.experimental.Some? ==>
          var redfish := cfg.experimental.value.redfish;
          redfish.enabled == Some(true) ==> redfish.configFile != "" && h.readableFile(redfish.configFile))
  }

  lemma NoProblemsExactlyWhen(h: Host, cfg: Config, skips: set<Skip>)
    ensures Problems(h, cfg, skips) == [] <==> AcceptableUnder(h, cfg, skips)
  {
    NoAddressProblems(h, cfg.listenAddresses);
  }

  // ---- generation -----------------------------------------------------------

  datatype Generation = Generated(text: string) | Failed(reason: string)

  function Generate(h: Host, c: Api.ConfigSpec, docs: seq<string>): Generation {
    match Built(h.parse, DEFAULT, docs)
    case None => Failed("failed to build config")
    case Some(cfg) =>
      if Problems(h, Overlaid(cfg, c), SKIPS) != [] then Failed("invalid configuration")
      else Generated(h.render(Overlaid(cfg, c)))
  }

  method KeplerConfigFor(h: Host, c: Api.ConfigSpec, docs: seq<string>) returns (g: Generation)
    ensures g == Generate(h, c, docs)
  {
    var b := new Builder();
    for i := 0 to |docs|
      invariant b.yamls == docs[..i] && b.config == None
      invariant fresh(b)
    {
      b.Merge(docs[i]);
    }
    assert docs[..|docs|] == docs;
    var built := b.Build(h.parse);
    if built.None? {
      return Failed("failed to build config");
    }
    var cfg := built.value;
    cfg := cfg.(logLevel := c.logLevel);
    cfg := cfg.(sysfs := Api.SYSFS_MOUNT);
    cfg := cfg.(procfs := Api.PROCFS_MOUNT);
    if |c.metricLevels| > 0 {
      var level := Levels.ParseLevel(c.metricLevels);
      if level.None? {
        cfg := cfg.(metricsLevel := METRICS_LEVEL_DEFAULT);
      } else {
        cfg := cfg.(metricsLevel := level.value);
      }
    } else {
      cfg := cfg.(metricsLevel := METRICS_LEVEL_DEFAULT);
    }
    cfg := cfg.(staleness := if c.staleness.Some? then c.staleness.value else 500 * MILLISECOND);
    cfg := cfg.(interval := if c.sampleRate.Some? then c.sampleRate.value else 5 * SECOND);
    cfg := cfg.(maxTerminated := if c.maxTerminated.Some? then c.maxTerminated.value else 500);
    assert cfg == Overlaid(built.value, c);
    var errs := Validate(h, cfg, SKIPS);
    if errs != [] {
      return Failed("invalid configuration");
    }
    return Generated(h.render(cfg));
  }

  /** The seven settings that the resource's spec decides. */
  ghost predicate SpecDecides(cfg: Config, c: Api.ConfigSpec) {
    && cfg.logLevel == c.logLevel
    && cfg.sysfs == "/host/sys" && cfg.procfs == "/host/proc"
    && cfg.metricsLevel == SpecLevel(c)
    && cfg.staleness == c.staleness.GetOr(500_000_000)
    && cfg.interval == c.sampleRate.GetOr(5_000_000_000)
    && cfg.maxTerminated == c.maxTerminated.GetOr(500)
  }

  /** Whatever the additional documents say, a generated configuration is an acceptable one
      whose seven spec settings come from the spec alone. */
  lemma GeneratedIsValidAndFollowsSpec(h: Host, c: Api.ConfigSpec, docs: seq<string>)
    requires Generate(h, c, docs).Generated?
    ensures exists cfg: Config ::
              Generate(h, c, docs).text == h.render(cfg) && Acceptable(h, cfg) && SpecDecides(cfg, c)
  {
    var cfg := Overlaid(Merged(h.parse, DEFAULT, docs), c);
    NoProblemsIffAcceptable(h, cfg);
    assert Generate(h, c, docs).text == h.render(cfg) && SpecDecides(cfg, c);
  }

  /** Exactly when generation succeeds: every document parses, the spec's own values are
      legal, and what the documents may decide is legal after merging. */
  lemma GenerationSucceedsExactlyWhen(h: Host, c: Api.ConfigSpec, docs: seq<string>)
    ensures Generate(h, c, docs).Generated? <==>
              var m := Merged(h.parse, DEFAULT, docs);
              && AllParse(h.parse, docs)
              && c.logLevel in {"debug", "info", "warn", "error"}
              && c.staleness.GetOr(0) >= 0 && c.sampleRate.GetOr(0) >= 0
              && m.logFormat in {"text", "json"}
              && (m.webConfig == "" || h.readableFile(m.webConfig))
              && |m.listenAddresses| > 0 && GoodAddresses(h, m.listenAddresses)
              && m.minTerminatedEnergy >= 0
              && (m.kube == Some(true) ==>
                    && (m.kubeConfig == "" || h.readableFile(m.kubeConfig))
                    && m.kubeNode != "" && m.podInformerMode in {"kubelet", "apiserver"})
  {
    var cfg := Overlaid(Merged(h.parse, DEFAULT, docs), c);
    NoProblemsIffAcceptable(h, cfg);
  }

  ghost predicate IsField<T>(field: Config -> T, empty: T) {
    forall a, b {:trigger Override(a, b)} :: field(Override(a, b)) == Over(field(a), field(b), empty)
  }

  /** Documents are merged in order: a setting has the value of the last document that sets
      it, and the default if none does. */
  lemma {:induction false} LastDocumentWins<T>(parse: string -> Option<Config>, base: Config, docs: seq<string>,
                                              field: Config -> T, empty: T, k: int)
    requires AllParse(parse, docs) && IsField(field, empty)
    requires -1 <= k < |docs|
    requires forall j :: k < j < |docs| ==> field(parse(docs[j]).value) == empty
    requires k >= 0 ==> field(parse(docs[k]).value) != empty
    ensures field(Merged(parse, base, docs)) == if k >= 0 then field(parse(docs[k]).value) else field(base)
  {
    if |docs| > 0 && k < |docs| - 1 {
      var n := |docs| - 1;
      assert forall j :: 0 <= j < n ==> docs[..n][j] == docs[j];
      LastDocumentWins(parse, base, docs[..n], field, empty, k);
    }
  }

  /** The settings to which the rule applies, apart from the nested experimental ones. */
  lemma OrdinaryFields()
    ensures IsField((c: Config) => c.logFormat, "") && IsField((c: Config) => c.listenAddresses, [])
    ensures IsField((c: Config) => c.webConfig, "") && IsField((c: Config) => c.kube, None)
    ensures IsField((c: Config) => c.kubeNode, "") && IsField((c: Config) => c.minTerminatedEnergy, 0)
    ensures IsField((c: Config) => c.prometheus, None) && IsField((c: Config) => c.raplZones, [])
  {
  }

  /** So the log format of a generated configuration is that of the last document that sets one,
      whatever the spec says, and the default's if none does. */
  lemma LogFormatFollowsDocuments(h: Host, c: Api.ConfigSpec, docs: seq<string>, k: int)
    requires Generate(h, c, docs).Generated?
    requires -1 <= k < |docs| && AllParse(h.parse, docs)
    requires forall j :: k < j < |docs| ==> h.parse(docs[j]).value.logFormat == ""
    requires k >= 0 ==> h.parse(docs[k]).value.logFormat != ""
    ensures exists cfg: Config ::
              && Generate(h, c, docs).text == h.render(cfg)
              && cfg.logFormat == if k >= 0 then h.parse(docs[k]).value.logFormat else DEFAULT.logFormat
  {
    OrdinaryFields();
    LastDocumentWins(h.parse, DEFAULT, docs, (cfg: Config) => cfg.logFormat, "", k);
    assert Generate(h, c, docs).text == h.render(Overlaid(Merged(h.parse, DEFAULT, docs), c));
  }
}
