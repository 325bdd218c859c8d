/** The pod of the power-monitor DaemonSet: containers, volumes and mounts. */
module PodWiring {
  import opened Common
  import opened Api

  const BASE_VOLUMES: nat := 3

  function BaseVolumes(name: string): seq<Volume> {
    [Volume("sysfs", HostPath("/sys")), Volume("procfs", HostPath("/proc")), Volume("cfm", ConfigMapVolume(name))]
  }

  function SecretVolumes(refs: seq<SecretRef>): seq<Volume> {
    seq(|refs|, i requires 0 <= i < |refs| => Volume(refs[i].name, SecretVolume(refs[i].name)))
  }

  function ProxyVolumes(spec: Spec): seq<Volume> {
    if EnableRBAC(spec) then
      [Volume(TLS_CERT_SECRET, SecretVolume(TLS_CERT_SECRET)),
       Volume(PROXY_CONFIG_SECRET, SecretVolume(PROXY_CONFIG_SECRET))]
    else []
  }

  const BASE_MOUNTS: seq<Mount> :=
    [Mount("sysfs", SYSFS_MOUNT, true), Mount("procfs", PROCFS_MOUNT, true), Mount("cfm", "/etc/kepler", false)]

  function SecretMount(r: SecretRef): Mount {
    Mount(r.name, r.mountPath, r.readOnly.GetOr(true))
  }

  function KeplerMounts(refs: seq<SecretRef>): seq<Mount> {
    BASE_MOUNTS + seq(|refs|, i requires 0 <= i < |refs| => SecretMount(refs[i]))
  }

  const PROXY_MOUNTS: seq<Mount> :=
    [Mount(PROXY_CONFIG_SECRET, "/etc/kube-rbac-proxy", true), Mount(TLS_CERT_SECRET, "/etc/tls/private", true)]

  function ProxyContainers(spec: Spec): seq<Container> {
    if EnableRBAC(spec) then [Container("kube-rbac-proxy", spec.deployment.proxyImage, PROXY_MOUNTS)] else []
  }

  function PodFor(name: string, spec: Spec): PodSpec {
    var d := spec.deployment;
    PodSpec(map["kubernetes.io/os" := "linux"] + d.nodeSelector, d.tolerations, name,
            [Container(name, d.image, KeplerMounts(d.secrets))] + ProxyContainers(spec),
            BaseVolumes(name) + SecretVolumes(d.secrets) + ProxyVolumes(spec))
  }

  // ---- the code -------------------------------------------------------------

  method BuildVolumeMounts(refs: seq<SecretRef>) returns (mounts: seq<Mount>)
    ensures mounts == KeplerMounts(refs)
  {
    mounts := BASE_MOUNTS;
    for i := 0 to |refs|
      invariant mounts == KeplerMounts(refs[..i])
    {
      var readOnly := true;
      if refs[i].readOnly.Some? {
        readOnly := refs[i].readOnly.value;
      }
      mounts := mounts + [Mount(refs[i].name, refs[i].mountPath, readOnly)];
    }
    assert refs[..|refs|] == refs;
  }

  method NewPod(name: string, spec: Spec) returns (pod: PodSpec)
    ensures pod == PodFor(name, spec)
  {
    var d := spec.deployment;
    var mounts := BuildVolumeMounts(d.secrets);
    var containers := [Container(name, d.image, mounts)];
    var volumes := BaseVolumes(name);
    for i := 0 to |d.secrets|
      invariant volumes == BaseVolumes(name) + SecretVolumes(d.secrets[..i])
    {
      volumes := volumes + [Volume(d.secrets[i].name, SecretVolume(d.secrets[i].name))];
    }
    assert d.secrets[..|d.secrets|] == d.secrets;
    if EnableRBAC(spec) {
      containers := containers + [Container("kube-rbac-proxy", d.proxyImage, PROXY_MOUNTS)];
      volumes := volumes + [Volume(TLS_CERT_SECRET, SecretVolume(TLS_CERT_SECRET)),
                            Volume(PROXY_CONFIG_SECRET, SecretVolume(PROXY_CONFIG_SECRET))];
    }
    pod := PodSpec(map["kubernetes.io/os" := "linux"] + d.nodeSelector, d.tolerations, name, containers, volumes);
  }

  // ---- properties -----------------------------------------------------------

  ghost predicate Declared(pod: PodSpec, volume: string) {
    exists v :: 0 <= v < |pod.volumes| && pod.volumes[v].name == volume
  }

  /** Every mount of every container names a declared volume; the i-th secret is volume and
      Kepler mount number 3 + i, backed by the Secret of that name. */
  lemma MountsAreDeclared(name: string, spec: Spec)
    ensures var pod := PodFor(name, spec);
            && (forall c, m :: 0 <= c < |pod.containers| && 0 <= m < |pod.containers[c].mounts| ==>
                  Declared(pod, pod.containers[c].mounts[m].name))
            && (forall i :: 0 <= i < |spec.deployment.secrets| ==>
                  var r := spec.deployment.secrets[i];
                  && pod.volumes[BASE_VOLUMES + i] == Volume(r.name, SecretVolume(r.name))
                  && pod.containers[0].mounts[BASE_VOLUMES + i] == Mount(r.name, r.mountPath, r.readOnly.GetOr(true)))
  {
    var pod := PodFor(name, spec);
    var n := |spec.deployment.secrets|;
    forall c, m | 0 <= c < |pod.containers| && 0 <= m < |pod.containers[c].mounts|
      ensures Declared(pod, pod.containers[c].mounts[m].name)
    {
      if c == 0 {
        assert pod.volumes[m].name == pod.containers[0].mounts[m].name;
      } else {
        assert c == 1 && EnableRBAC(spec);
        assert pod.containers[c].mounts == PROXY_MOUNTS;
        assert pod.volumes[BASE_VOLUMES + n].name == PROXY_MOUNTS[1].name;
        assert pod.volumes[BASE_VOLUMES + n + 1].name == PROXY_MOUNTS[0].name;
      }
    }
  }

  /** The container finds this source at this path. */
  ghost predicate FindsAt(pod: PodSpec, c: Container, path: string, readOnly: bool, source: VolumeSource) {
    exists m, v :: 0 <= m < |c.mounts| && 0 <= v < |pod.volumes|
                   && c.mounts[m] == Mount(pod.volumes[v].name, path, readOnly) && pod.volumes[v].source == source
  }

  /** Kepler finds the host's files where its configuration looks for them, its configuration in the
      ConfigMap of the resource's name, and each referenced Secret at its path. */
  lemma KeplerFindsItsFiles(name: string, spec: Spec)
    ensures var pod := PodFor(name, spec);
            && |pod.containers| == (if spec.deployment.mode == "rbac" then 2 else 1)
            && pod.containers[0].name == name && pod.containers[0].image == spec.deployment.image
            && FindsAt(pod, pod.containers[0], "/host/sys", true, HostPath("/sys"))
            && FindsAt(pod, pod.containers[0], "/host/proc", true, HostPath("/proc"))
            && FindsAt(pod, pod.containers[0], "/etc/kepler", false, ConfigMapVolume(name))
            && forall i :: 0 <= i < |spec.deployment.secrets| ==>
                 var r := spec.deployment.secrets[i];
                 FindsAt(pod, pod.containers[0], r.mountPath, r.readOnly != Some(false), SecretVolume(r.name))
  {
    var pod := PodFor(name, spec);
    var c := pod.containers[0];
    assert c.mounts[0] == Mount(pod.volumes[0].name, "/host/sys", true);
    assert c.mounts[1] == Mount(pod.volumes[1].name, "/host/proc", true);
    assert c.mounts[2] == Mount(pod.volumes[2].name, "/etc/kepler", false);
    forall i | 0 <= i < |spec.deployment.secrets|
      ensures var r := spec.deployment.secrets[i];
              FindsAt(pod, c, r.mountPath, r.readOnly != Some(false), SecretVolume(r.name))
    {
      var r := spec.deployment.secrets[i];
      assert c.mounts[3 + i] == Mount(pod.volumes[3 + i].name, r.mountPath, r.readOnly != Some(false));
    }
  }

  /** With RBAC the proxy finds its rules and its certificate. */
  lemma ProxyFindsItsFiles(name: string, spec: Spec)
    requires spec.deployment.mode == "rbac"
    ensures var pod := PodFor(name, spec);
            && |pod.containers| == 2
            && pod.containers[1].name == "kube-rbac-proxy" && pod.containers[1].image == spec.deployment.proxyImage
            && FindsAt(pod, pod.containers[1], "/etc/kube-rbac-proxy", true,
                       SecretVolume("power-monitor-kube-rbac-proxy-config"))
            && FindsAt(pod, pod.containers[1], "/etc/tls/private", true, SecretVolume("power-monitor-tls"))
  {
    var pod, n := PodFor(name, spec), |spec.deployment.secrets|;
    assert pod.containers[1].mounts == PROXY_MOUNTS;
    assert pod.containers[1].mounts[0] == Mount(pod.volumes[4 + n].name, "/etc/kube-rbac-proxy", true);
    assert pod.containers[1].mounts[1] == Mount(pod.volumes[3 + n].name, "/etc/tls/private", true);
  }

  /** The pods go to Linux nodes that the spec selects, and run under the resource's own account. */
  lemma PodPlacement(name: string, spec: Spec)
    ensures var pod := PodFor(name, spec);
            && pod.serviceAccount == name && pod.tolerations == spec.deployment.tolerations
            && (forall k :: k in spec.deployment.nodeSelector ==>
                  Lookup(pod.nodeSelector, k) == Some(spec.deployment.nodeSelector[k]))
            && pod.nodeSelector.Keys == spec.deployment.nodeSelector.Keys + {"kubernetes.io/os"}
            && ("kubernetes.io/os" !in spec.deployment.nodeSelector ==>
                  pod.nodeSelector["kubernetes.io/os"] == "linux")
  {
  }

  function Reserved(spec: Spec): set<string> {
    {"sysfs", "procfs", "cfm"} + (if EnableRBAC(spec) then {TLS_CERT_SECRET, PROXY_CONFIG_SECRET} else {})
  }

  ghost predicate VolumesDiffer(volumes: seq<Volume>) {
    forall i, j :: 0 <= i < j < |volumes| ==> volumes[i].name != volumes[j].name
  }

  ghost predicate SecretNamesUsable(spec: Spec) {
    var refs := spec.deployment.secrets;
    && (forall i, j :: 0 <= i < j < |refs| ==> refs[i].name != refs[j].name)
    && (forall i :: 0 <= i < |refs| ==> refs[i].name !in Reserved(spec))
  }

  lemma ReservedVolume(name: string, spec: Spec, n: string) returns (v: nat)
    requires n in Reserved(spec)
    ensures v < |PodFor(name, spec).volumes| && PodFor(name, spec).volumes[v].name == n
    ensures v < BASE_VOLUMES || v >= BASE_VOLUMES + |spec.deployment.secrets|
  {
    var k := BASE_VOLUMES + |spec.deployment.secrets|;
    v := if n == "sysfs" then 0 else if n == "procfs" then 1 else if n == "cfm" then 2
         else if n == TLS_CERT_SECRET then k else k + 1;
  }

  lemma VolumeNamed(name: string, spec: Spec, v: nat)
    requires v < |PodFor(name, spec).volumes|
    ensures var n := PodFor(name, spec).volumes[v].name;
            if BASE_VOLUMES <= v < BASE_VOLUMES + |spec.deployment.secrets| then
              n == spec.deployment.secrets[v - BASE_VOLUMES].name
            else n in Reserved(spec)
  {
  }

  /** The API server requires volume names to differ: they do exactly when the secret names
      differ from each other and from the operator's own volumes. */
  lemma VolumeNamesDistinctExactlyWhen(name: string, spec: Spec)
    ensures VolumesDiffer(PodFor(name, spec).volumes) <==> SecretNamesUsable(spec)
  {
    var volumes := PodFor(name, spec).volumes;
    var refs := spec.deployment.secrets;
    assert forall i :: 0 <= i < |refs| ==> volumes[BASE_VOLUMES + i].name == refs[i].name;
    if VolumesDiffer(volumes) {
      forall i | 0 <= i < |refs| ensures refs[i].name !in Reserved(spec) {
        if refs[i].name in Reserved(spec) {
          var v := ReservedVolume(name, spec, refs[i].name);
          assert false;
        }
      }
      forall i, j | 0 <= i < j < |refs| ensures refs[i].name != refs[j].name {
        assert volumes[BASE_VOLUMES + i].name != volumes[BASE_VOLUMES + j].name;
      }
    }
    if SecretNamesUsable(spec) {
      forall i, j | 0 <= i < j < |volumes| ensures volumes[i].name != volumes[j].name {
        VolumeNamed(name, spec, i);
        VolumeNamed(name, spec, j);
        var k := BASE_VOLUMES + |refs|;
        if BASE_VOLUMES <= i < k && BASE_VOLUMES <= j < k {
          assert refs[i - BASE_VOLUMES].name != refs[j - BASE_VOLUMES].name;
        } else if (i < BASE_VOLUMES || i >= k) && (j < BASE_VOLUMES || j >= k) {
          ReservedNamesDiffer(name, spec, i, j);
        }
      }
    }
  }

  lemma ReservedNamesDiffer(name: string, spec: Spec, i: nat, j: nat)
    requires i < j < |PodFor(name, spec).volumes|
    requires i < BASE_VOLUMES || i >= BASE_VOLUMES + |spec.deployment.secrets|
    requires j < BASE_VOLUMES || j >= BASE_VOLUMES + |spec.deployment.secrets|
    ensures PodFor(name, spec).volumes[i].name != PodFor(name, spec).volumes[j].name
  {
    var fixed := ["sysfs", "procfs", "cfm", TLS_CERT_SECRET, PROXY_CONFIG_SECRET];
    var k := |spec.deployment.secrets|;
    var a, b := if i < 3 then i else i - k, if j < 3 then j else j - k;
    assert PodFor(name, spec).volumes[i].name == fixed[a] && PodFor(name, spec).volumes[j].name == fixed[b];
    assert |"sysfs"| == 5 && |"procfs"| == 6 && |"cfm"| == 3;
    assert |fixed[3]| != |fixed[4]|;
  }
}
