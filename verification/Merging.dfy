/** Which document decides which setting of the generated configuration. */
module Merging {
  import opened Common
  import Api
  import opened KeplerConfig
  import Levels = MetricLevels

  // ---- every setting is merged on its own -----------------------------------

  lemma TextFields()
    ensures IsField((c: Config) => c.logLevel, "") && IsField((c: Config) => c.logFormat, "")
    ensures IsField((c: Config) => c.sysfs, "") && IsField((c: Config) => c.procfs, "")
    ensures IsField((c: Config) => c.webConfig, "") && IsField((c: Config) => c.kubeConfig, "")
    ensures IsField((c: Config) => c.kubeNode, "") && IsField((c: Config) => c.podInformerMode, "")
  {
  }

  lemma NumberFields()
    ensures IsField((c: Config) => c.interval, 0) && IsField((c: Config) => c.staleness, 0)
    ensures IsField((c: Config) => c.maxTerminated, 0) && IsField((c: Config) => c.minTerminatedEnergy, 0)
    ensures IsField((c: Config) => c.metricsLevel, 0) && IsField((c: Config) => c.pollInterval, 0)
  {
  }

  lemma SwitchFields()
    ensures IsField((c: Config) => c.stdout, None) && IsField((c: Config) => c.prometheus, None)
    ensures IsField((c: Config) => c.pprof, None) && IsField((c: Config) => c.fakeCpu, None)
    ensures IsField((c: Config) => c.kube, None)
  {
  }

  lemma ListFields()
    ensures IsField((c: Config) => c.raplZones, []) && IsField((c: Config) => c.debugCollectors, [])
    ensures IsField((c: Config) => c.listenAddresses, []) && IsField((c: Config) => c.fakeCpuZones, [])
  {
  }

  // The experimental settings, where a missing section sets nothing.

  const NO_EXPERIMENTAL :=
    Experimental(Redfish(None, "", "", 0), Hwmon(None, [], []), Gpu(None, 0.0))

  function ExperimentalOf(c: Config): Experimental {
    c.experimental.GetOr(NO_EXPERIMENTAL)
  }

  lemma RedfishFields()
    ensures IsField((c: Config) => ExperimentalOf(c).redfish.enabled, None)
    ensures IsField((c: Config) => ExperimentalOf(c).redfish.nodeName, "")
    ensures IsField((c: Config) => ExperimentalOf(c).redfish.configFile, "")
    ensures IsField((c: Config) => ExperimentalOf(c).redfish.httpTimeout, 0)
  {
  }

  lemma HwmonAndGpuFields()
    ensures IsField((c: Config) => ExperimentalOf(c).hwmon.forceEnabled, None)
    ensures IsField((c: Config) => ExperimentalOf(c).hwmon.zones, [])
    ensures IsField((c: Config) => ExperimentalOf(c).hwmon.chipRules, [])
    ensures IsField((c: Config) => ExperimentalOf(c).gpu.enabled, None)
    ensures IsField((c: Config) => ExperimentalOf(c).gpu.idlePower, 0.0)
  {
  }

  /** The section itself appears as soon as one document has it. */
  lemma SectionField()
    ensures IsField((c: Config) => c.experimental.Some?, false)
  {
  }

  // ---- the spec's levels ----------------------------------------------------

  /** The metric levels of the configuration are those that the spec names; node, vm and pod when
      it names none or one that is not known. */
  lemma SpecLevelMeaning(c: Api.ConfigSpec, m: Levels.Metric)
    ensures Levels.Has(SpecLevel(c), m) <==>
              if c.metricLevels != [] && Levels.AllNamed(c.metricLevels) then Levels.Mentions(c.metricLevels, m)
              else m in {Levels.Node, Levels.Vm, Levels.Pod}
  {
    if c.metricLevels != [] {
      Levels.ParseMeaning(c.metricLevels);
    }
    DefaultLevels(m);
  }

  lemma DefaultLevels(m: Levels.Metric)
    ensures Levels.Has(METRICS_LEVEL_DEFAULT, m) <==> m in {Levels.Node, Levels.Vm, Levels.Pod}
  {
    match m
    case Node => assert METRICS_LEVEL_DEFAULT & 1 != 0;
    case Process => assert METRICS_LEVEL_DEFAULT & 2 == 0;
    case Container => assert METRICS_LEVEL_DEFAULT & 4 == 0;
    case Vm => assert METRICS_LEVEL_DEFAULT & 8 != 0;
    case Pod => assert METRICS_LEVEL_DEFAULT & 16 != 0;
  }

  // ---- the generated configuration ------------------------------------------

  /** The k-th document is the last to set the field; with k = -1 none does. */
  ghost predicate SetLast<T(!new)>(parse: string -> Option<Config>, docs: seq<string>, field: Config -> T, empty: T,
                                   k: int) {
    && -1 <= k < |docs|
    && (forall j :: 0 <= j < |docs| ==> parse(docs[j]).Some?)
    && (forall j :: k < j < |docs| ==> field(parse(docs[j]).value) == empty)
    && (k >= 0 ==> field(parse(docs[k]).value) != empty)
  }

  /** The overlay of the spec does not touch the field. */
  ghost predicate BeyondSpec<T(!new)>(field: Config -> T) {
    forall cfg: Config, c: Api.ConfigSpec {:trigger Overlaid(cfg, c)} :: field(Overlaid(cfg, c)) == field(cfg)
  }

  /** What generation renders; the same configuration for every setting. */
  function Rendered(h: Host, c: Api.ConfigSpec, docs: seq<string>): Config {
    Overlaid(Merged(h.parse, DEFAULT, docs), c)
  }

  /** In a configuration that was generated, a setting that the spec leaves alone has the value of
      the last document that sets it, and the default's if none does. */
  lemma GeneratedFollowsDocuments<T(!new)>(h: Host, c: Api.ConfigSpec, docs: seq<string>, field: Config -> T, empty: T,
                                           k: int)
    requires Generate(h, c, docs).Generated? && SetLast(h.parse, docs, field, empty, k)
    requires IsField(field, empty) && BeyondSpec(field)
    ensures Generate(h, c, docs).text == h.render(Rendered(h, c, docs))
    ensures field(Rendered(h, c, docs)) == if k >= 0 then field(h.parse(docs[k]).value) else field(DEFAULT)
  {
    LastDocumentWins(h.parse, DEFAULT, docs, field, empty, k);
  }

  /** And there is always such a document, or none at all. */
  lemma {:induction false} SomeSetLast<T(!new)>(parse: string -> Option<Config>, docs: seq<string>, field: Config -> T,
                                                empty: T) returns (k: int)
    requires forall j :: 0 <= j < |docs| ==> parse(docs[j]).Some?
    ensures SetLast(parse, docs, field, empty, k)
  {
    k := |docs| - 1;
    while k >= 0 && field(parse(docs[k]).value) == empty
      invariant -1 <= k < |docs|
      invariant forall j :: k < j < |docs| ==> field(parse(docs[j]).value) == empty
    {
      k := k - 1;
    }
  }

  /** `value` is what the last document to set the field says, or the default. */
  ghost predicate Decided<T(!new)>(h: Host, docs: seq<string>, field: Config -> T, empty: T, default: T, value: T) {
    forall k :: SetLast(h.parse, docs, field, empty, k) ==>
      value == if k >= 0 then field(h.parse(docs[k]).value) else default
  }

  lemma SettingIsDecided<T(!new)>(h: Host, c: Api.ConfigSpec, docs: seq<string>, field: Config -> T, empty: T)
    requires Generate(h, c, docs).Generated? && IsField(field, empty) && BeyondSpec(field)
    ensures Decided(h, docs, field, empty, field(DEFAULT), field(Rendered(h, c, docs)))
  {
    forall k | SetLast(h.parse, docs, field, empty, k)
      ensures field(Rendered(h, c, docs)) == if k >= 0 then field(h.parse(docs[k]).value) else field(DEFAULT)
    {
      GeneratedFollowsDocuments(h, c, docs, field, empty, k);
    }
  }

  ghost predicate ExporterFollows(h: Host, docs: seq<string>, cfg: Config) {
    && Decided(h, docs, (c: Config) => c.logFormat, "", "text", cfg.logFormat)
    && Decided(h, docs, (c: Config) => c.minTerminatedEnergy, 0, 10, cfg.minTerminatedEnergy)
    && Decided(h, docs, (c: Config) => c.raplZones, [], [], cfg.raplZones)
    && Decided(h, docs, (c: Config) => c.stdout, None, Some(false), cfg.stdout)
    && Decided(h, docs, (c: Config) => c.prometheus, None, Some(true), cfg.prometheus)
    && Decided(h, docs, (c: Config) => c.debugCollectors, [], ["go"], cfg.debugCollectors)
    && Decided(h, docs, (c: Config) => c.webConfig, "", "", cfg.webConfig)
    && Decided(h, docs, (c: Config) => c.listenAddresses, [], [":28282"], cfg.listenAddresses)
  }

  ghost predicate RuntimeFollows(h: Host, docs: seq<string>, cfg: Config) {
    && Decided(h, docs, (c: Config) => c.pprof, None, Some(false), cfg.pprof)
    && Decided(h, docs, (c: Config) => c.fakeCpu, None, Some(false), cfg.fakeCpu)
    && Decided(h, docs, (c: Config) => c.fakeCpuZones, [], [], cfg.fakeCpuZones)
    && Decided(h, docs, (c: Config) => c.kube, None, Some(false), cfg.kube)
    && Decided(h, docs, (c: Config) => c.kubeConfig, "", "", cfg.kubeConfig)
    && Decided(h, docs, (c: Config) => c.kubeNode, "", "", cfg.kubeNode)
    && Decided(h, docs, (c: Config) => c.podInformerMode, "", "kubelet", cfg.podInformerMode)
    && Decided(h, docs, (c: Config) => c.pollInterval, 0, 15_000_000_000, cfg.pollInterval)
  }

  ghost predicate ExperimentalFollows(h: Host, docs: seq<string>, cfg: Config) {
    var x := ExperimentalOf(cfg);
    && Decided(h, docs, (c: Config) => c.experimental.Some?, false, false, cfg.experimental.Some?)
    && Decided(h, docs, (c: Config) => ExperimentalOf(c).redfish.enabled, None, None, x.redfish.enabled)
    && Decided(h, docs, (c: Config) => ExperimentalOf(c).redfish.nodeName, "", "", x.redfish.nodeName)
    && Decided(h, docs, (c: Config) => ExperimentalOf(c).redfish.configFile, "", "", x.redfish.configFile)
    && Decided(h, docs, (c: Config) => ExperimentalOf(c).redfish.httpTimeout, 0, 0, x.redfish.httpTimeout)
    && Decided(h, docs, (c: Config) => ExperimentalOf(c).hwmon.forceEnabled, None, None, x.hwmon.forceEnabled)
    && Decided(h, docs, (c: Config) => ExperimentalOf(c).hwmon.zones, [], [], x.hwmon.zones)
    && Decided(h, docs, (c: Config) => ExperimentalOf(c).hwmon.chipRules, [], [], x.hwmon.chipRules)
    && Decided(h, docs, (c: Config) => ExperimentalOf(c).gpu.enabled, None, None, x.gpu.enabled)
    && Decided(h, docs, (c: Config) => ExperimentalOf(c).gpu.idlePower, 0.0, 0.0, x.gpu.idlePower)
  }

  lemma ExporterIsDecided(h: Host, c: Api.ConfigSpec, docs: seq<string>)
    requires Generate(h, c, docs).Generated?
    ensures ExporterFollows(h, docs, Rendered(h, c, docs))
  {
    TextFields();
    NumberFields();
    SwitchFields();
    ListFields();
    SettingIsDecided(h, c, docs, (cfg: Config) => cfg.logFormat, "");
    SettingIsDecided(h, c, docs, (cfg: Config) => cfg.minTerminatedEnergy, 0);
    SettingIsDecided(h, c, docs, (cfg: Config) => cfg.raplZones, []);
    SettingIsDecided(h, c, docs, (cfg: Config) => cfg.stdout, None);
    SettingIsDecided(h, c, docs, (cfg: Config) => cfg.prometheus, None);
    SettingIsDecided(h, c, docs, (cfg: Config) => cfg.debugCollectors, []);
    SettingIsDecided(h, c, docs, (cfg: Config) => cfg.webConfig, "");
    SettingIsDecided(h, c, docs, (cfg: Config) => cfg.listenAddresses, []);
  }

  lemma RuntimeIsDecided(h: Host, c: Api.ConfigSpec, docs: seq<string>)
    requires Generate(h, c, docs).Generated?
    ensures RuntimeFollows(h, docs, Rendered(h, c, docs))
  {
    TextFields();
    NumberFields();
    SwitchFields();
    ListFields();
    SettingIsDecided(h, c, docs, (cfg: Config) => cfg.pprof, None);
    SettingIsDecided(h, c, docs, (cfg: Config) => cfg.fakeCpu, None);
    SettingIsDecided(h, c, docs, (cfg: Config) => cfg.fakeCpuZones, []);
    SettingIsDecided(h, c, docs, (cfg: Config) => cfg.kube, None);
    SettingIsDecided(h, c, docs, (cfg: Config) => cfg.kubeConfig, "");
    SettingIsDecided(h, c, docs, (cfg: Config) => cfg.kubeNode, "");
    SettingIsDecided(h, c, docs, (cfg: Config) => cfg.podInformerMode, "");
    SettingIsDecided(h, c, docs, (cfg: Config) => cfg.pollInterval, 0);
  }

  lemma ExperimentalIsDecided(h: Host, c: Api.ConfigSpec, docs: seq<string>)
    requires Generate(h, c, docs).Generated?
    ensures ExperimentalFollows(h, docs, Rendered(h, c, docs))
  {
    RedfishFields();
    HwmonAndGpuFields();
    SectionField();
    SettingIsDecided(h, c, docs, (cfg: Config) => cfg.experimental.Some?, false);
    SettingIsDecided(h, c, docs, (cfg: Config) => ExperimentalOf(cfg).redfish.enabled, None);
    SettingIsDecided(h, c, docs, (cfg: Config) => ExperimentalOf(cfg).redfish.nodeName, "");
    SettingIsDecided(h, c, docs, (cfg: Config) => ExperimentalOf(cfg).redfish.configFile, "");
    SettingIsDecided(h, c, docs, (cfg: Config) => ExperimentalOf(cfg).redfish.httpTimeout, 0);
    SettingIsDecided(h, c, docs, (cfg: Config) => ExperimentalOf(cfg).hwmon.forceEnabled, None);
    SettingIsDecided(h, c, docs, (cfg: Config) => ExperimentalOf(cfg).hwmon.zones, []);
    SettingIsDecided(h, c, docs, (cfg: Config) => ExperimentalOf(cfg).hwmon.chipRules, []);
    SettingIsDecided(h, c, docs, (cfg: Config) => ExperimentalOf(cfg).gpu.enabled, None);
    SettingIsDecided(h, c, docs, (cfg: Config) => ExperimentalOf(cfg).gpu.idlePower, 0.0);
  }

  /** Every generated configuration is the rendering of one in which seven settings are the spec's
      and all the others, nested experimental ones included, are those of the last document that
      sets them, or the defaults. */
  lemma DocumentsDecideTheRest(h: Host, c: Api.ConfigSpec, docs: seq<string>)
    requires Generate(h, c, docs).Generated?
    ensures exists cfg: Config ::
              && Generate(h, c, docs).text == h.render(cfg) && Acceptable(h, cfg) && SpecDecides(cfg, c)
              && ExporterFollows(h, docs, cfg) && RuntimeFollows(h, docs, cfg) && ExperimentalFollows(h, docs, cfg)
  {
    var cfg := Rendered(h, c, docs);
    NoProblemsIffAcceptable(h, cfg);
    ExporterIsDecided(h, c, docs);
    RuntimeIsDecided(h, c, docs);
    ExperimentalIsDecided(h, c, docs);
    assert Generate(h, c, docs).text == h.render(cfg) && SpecDecides(cfg, c);
  }
}
