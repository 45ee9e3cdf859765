/** What every cache server writes (`Cache`): where to reach it, and its password. */
module CacheTemplate {
  import opened Wrappers
  import opened Text
  import opened Files
  import opened Resources

  /** The settings every cache server keeps; `Cache.__init__` stores them as given. */
  datatype Cache = Cache(password: string, hostName: string, port: string, create: bool)

  function ConfigMapPath(): string { TemplatePath("cache-configmap") }
  function SecretPath(): string { TemplatePath("cache-credentials-secret") }

  function ConfigMapName(): string { Named("cache-configmap") }
  function SecretName(): string { Named("cache-credentials") }

  /** The condition under which the cache server's own default hostname applies. */
  function Creates(cacheType: string): string
  {
    And(Eq(".Values.cache.type", cacheType), ".Values.cache.create")
  }

  /** The hostname: the server's default when this chart creates a cache of this type, the configured one otherwise. */
  function HostnameEntries(cacheType: string, defaultHostname: string): seq<DataLine>
  {
    IfElse(Creates(cacheType), [Entry("hostname", defaultHostname)], [Entry("hostname", ValuesRef("cache.hostname"))])
  }

  /** The ConfigMap `write_generic_cache_templates` writes first. */
  function ConfigMap(cacheType: string, defaultHostname: string): Manifest
  {
    Manifest(None, Kind.ConfigMap, ConfigMapName(), [Ln(I1 + "namespace: " + Namespace)],
             HostnameEntries(cacheType, defaultHostname) + [Entry("port", ValuesRef("cache.port"))], [])
  }

  /** The credentials Secret. */
  function Secret(): Manifest
  {
    Manifest(None, Kind.Secret, SecretName(), [Ln("type: Opaque")], [Entry("password", B64Ref("cache.password"))], [])
  }

  /**
   * The ConfigMap declares `hostname` (in both branches) and `port`, and nothing else;
   * it is never under a document-wide condition.
   */
  lemma ConfigMapKeys(cacheType: string, defaultHostname: string, r: Ref)
    ensures KeysOf(ConfigMap(cacheType, defaultHostname).data) == ["hostname", "hostname", "port"]
    ensures Declares(ConfigMap(cacheType, defaultHostname), r) <==>
              r.kind == Kind.ConfigMap && r.name == ConfigMapName() && r.key in {"hostname", "port"}
    ensures ConfigMap(cacheType, defaultHostname).gate.None?
  {
    var h := HostnameEntries(cacheType, defaultHostname);
    KeysOfAppend(h, [Entry("port", ValuesRef("cache.port"))]);
    IfElseKeys(Creates(cacheType), [Entry("hostname", defaultHostname)], [Entry("hostname", ValuesRef("cache.hostname"))]);
  }

  /**
   * Under `Creates(cacheType)` the hostname is the default the server passes in; otherwise
   * it reads `.Values.cache.hostname`. The port always reads `.Values.cache.port`.
   */
  lemma HostnameChoice(cacheType: string, defaultHostname: string)
    ensures var d := ConfigMap(cacheType, defaultHostname).data;
            |d| == 6 && d[0] == Directive("{{- if " + Creates(cacheType) + " }}")
            && d[1] == Entry("hostname", defaultHostname) && d[2] == Directive("{{- else }}")
            && d[3] == Entry("hostname", ValuesRef("cache.hostname")) && d[4] == Directive("{{- end }}")
            && d[5] == Entry("port", ValuesRef("cache.port"))
  {
  }

  /** The Secret holds exactly one key, `password`, base64-encoded from `.Values.cache.password`. */
  lemma SecretKeys(r: Ref)
    ensures Declares(Secret(), r) <==> r == Ref(Kind.Secret, SecretName(), "password")
    ensures Secret().data == [Entry("password", B64Ref("cache.password"))]
  {
  }

  /** `Cache.write_generic_cache_templates`: the ConfigMap, then the Secret. */
  method WriteGeneric(fs: FileStore, cacheType: string, defaultHostname: string)
    modifies fs
    ensures fs.files == old(fs.files)[ConfigMapPath() := Render(ConfigMap(cacheType, defaultHostname))]
                                     [SecretPath() := Render(Secret())]
    ensures fs.openOrder == old(fs.openOrder) + [ConfigMapPath(), SecretPath()]
  {
    fs.WriteFile(ConfigMapPath(), Render(ConfigMap(cacheType, defaultHostname)));
    fs.WriteFile(SecretPath(), Render(Secret()));
  }
}
