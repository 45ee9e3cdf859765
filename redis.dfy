/** A Redis cache server created with the chart (`Redis`). */
module RedisTemplate {
  import opened Text
  import opened Files
  import opened Resources
  import CacheTemplate

  /** The hostname of the Redis Service this chart creates. */
  function DefaultHostname(): string { Named("redis") }
  function CacheType(): string { "redis" }

  function ServicePath(): string { TemplatePath("redis-service") }
  function DeploymentPath(): string { TemplatePath("redis-deployment") }

  /** The condition around both Redis documents (it applies `.Values.cache.type` to `"redis"` without `eq`). */
  function Gate(): string { And(".Values.cache.type" + " \"redis\"", ".Values.cache.create") }

  function AppLabel(): string { "app: redis" }
  function PortRef(): string { ValuesRef("cache.port") }

  /** The Secret key the container's `REDIS_PASSWORD` reads. */
  function PasswordRef(): Ref { Ref(Secret, CacheTemplate.SecretName(), "password") }

  function TlsCond(): string { Ln(I6 + "{{- if " + ".Values.cache.tls.enabled" + " }}") }
  function TlsPortLine(): string { Ln(I6 + "- containerPort: " + ValuesRef("cache.tls.port")) }

  /**
   * A `Redis` template. The Python constructor's defaults are the field defaults here;
   * `image` lists the dictionary's items in insertion order.
   */
  datatype Redis = Redis(password: string, create: bool := true, hostName: string := DefaultHostname(),
                         replicaCount: int := 1, port: string := "6379", tlsEnabled: bool := false,
                         tlsPort: string := "6380", image: seq<(string, string)> := [])
  {
    /** The part `Cache.__init__` keeps. */
    function AsCache(): (c: CacheTemplate.Cache)
      ensures c.password == password && c.hostName == hostName && c.port == port && c.create == create
    {
      CacheTemplate.Cache(password, hostName, port, create)
    }

    function Service(): (doc: seq<string>)
      ensures |doc| == 15 && Gated(doc, Gate())
    {
      [ GateLine(Gate()),
        Ln("apiVersion: v1"),
        Ln("kind: Service"),
        Ln("metadata:"),
        NameLine(DefaultHostname()),
        Ln(I1 + "labels:"),
        Ln(I2 + AppLabel()),
        Ln("spec:"),
        Ln(I1 + "ports:"),
        Ln(I2 + "- port: " + PortRef()),
        Ln(I3 + "targetPort: " + PortRef()),
        Ln(I1 + "selector:"),
        Ln(I2 + AppLabel()),
        Ln(I1 + "type: ClusterIP"),
        EndPiece ]
    }

    /** The Deployment's metadata, replica count, selector and pod labels, up to `containers:`. */
    function DeploymentHead(): (h: seq<string>)
      ensures |h| == 18 && h[0] == GateLine(Gate()) && h[4] == NameLine(DefaultHostname())
      ensures h[14] == Ln(I3 + "labels:") && h[15] == Ln(I4 + AppLabel())
    {
      [ GateLine(Gate()),
        Ln("apiVersion: apps/v1"),
        Ln("kind: Deployment"),
        Ln("metadata:"),
        NameLine(DefaultHostname()),
        Ln(I1 + "labels:"),
        Ln(I2 + AppLabel()),
        Ln("spec:"),
        Ln(I1 + "replicas: " + ValuesRef("cache.replicaCount")),
        Ln(I1 + "selector:"),
        Ln(I2 + "matchLabels:"),
        Ln(I3 + AppLabel()),
        Ln(I1 + "template:"),
        Ln(I2 + "metadata:"),
        Ln(I3 + "labels:"),
        Ln(I4 + AppLabel()),
        Ln(I2 + "spec:"),
        Ln(I3 + "containers:") ]
    }

    /** The container, its image and its ports; the TLS port sits inside its own conditional. */
    function ContainerPorts(): (p: seq<string>)
      ensures |p| == 7 && p[3] == Ln(I6 + "- containerPort: " + PortRef())
      ensures p[4] == TlsCond() && p[5] == TlsPortLine() && p[6] == Ln(I6 + "{{- end }}")
    {
      [ Ln(I4 + "- name: redis"),
        Ln(I5 + "image: " + DefaultRef("cache.image.repository", "bitnami/redis") + ":" + DefaultRef("cache.image.tag", "7.0.5")),
        Ln(I5 + "ports:"),
        Ln(I6 + "- containerPort: " + PortRef()),
        TlsCond(),
        TlsPortLine(),
        Ln(I6 + "{{- end }}") ]
    }

    /** The environment binding that reads the password from the cache credentials Secret. */
    function PasswordBinding(): (b: seq<string>)
      ensures |b| == 5 && b[0] == Ln(I6 + "- name: REDIS_PASSWORD") && b[2] == Ln(I8 + "secretKeyRef:")
      ensures b[3] == Ln(I9 + "name: " + PasswordRef().name) && b[4] == Ln(I9 + "key: " + PasswordRef().key)
    {
      [ Ln(I6 + "- name: REDIS_PASSWORD"),
        Ln(I7 + "valueFrom:"),
        Ln(I8 + "secretKeyRef:"),
        Ln(I9 + "name: " + PasswordRef().name),
        Ln(I9 + "key: " + PasswordRef().key) ]
    }

    function DisableCommands(): seq<string>
    {
      [ Ln(I6 + "- name: REDIS_DISABLE_COMMANDS"), Ln(I7 + "value: \"FLUSHDB,FLUSHALL\"") ]
    }

    /** The container's environment: empty passwords refused, the password, disabled commands, TLS notes. */
    function Env(): (e: seq<string>)
      ensures |e| == 17 && e[3..8] == PasswordBinding() && e[8..10] == DisableCommands()
    {
      [ Ln(I5 + "env:"),
        Ln(I6 + "- name: ALLOW_EMPTY_PASSWORD"),
        Ln(I7 + "value: \"false\"") ]
      + PasswordBinding() + DisableCommands()
      + [ Ln(I6 + "# TLS configuration"),
          Ln(I6 + "#- name: REDIS_TLS_ENABLED"),
          Ln(I6 + "#  value: \"" + ValuesRef("cache.tls.enabled") + "\""),
          Ln(I6 + "#- name: REDIS_TLS_AUTH_CLIENTS"),
          Ln(I6 + "#  value: \"yes\""),
          Ln(I6 + "#- name: REDIS_TLS_PORT_NUMBER"),
          Ln(I6 + "#  value: \"" + ValuesRef("cache.tls.port") + "\"") ]
    }

    function Volumes(): seq<string>
    {
      [ Ln(I5 + "volumeMounts:"),
        Ln(I6 + "- name: redis-data"),
        Ln(I7 + "mountPath: /bitnami/redis"),
        Ln(I3 + "volumes:"),
        Ln(I4 + "- name: redis-data"),
        Ln(I5 + "emptyDir: {}"),
        EndPiece ]
    }

    function Deployment(): (doc: seq<string>)
      ensures |doc| == 49 && Gated(doc, Gate())
    {
      DeploymentHead() + ContainerPorts() + Env() + Volumes()
    }

    /**
     * The Service is named by the hostname the cache ConfigMap hands out when this chart
     * creates the Redis server, and it forwards the configured port to the same port.
     */
    lemma ServiceIsDefaultHost()
      ensures Service()[4] == NameLine(DefaultHostname()) && Redis("").hostName == DefaultHostname()
      ensures Entry("hostname", DefaultHostname()) in CacheTemplate.ConfigMap(CacheType(), DefaultHostname()).data
      ensures Service()[9] == Ln(I2 + "- port: " + PortRef()) && Service()[10] == Ln(I3 + "targetPort: " + PortRef())
    {
      CacheTemplate.HostnameChoice(CacheType(), DefaultHostname());
    }

    /** The Service selects the pods the Deployment labels `app: redis`. */
    lemma ServiceSelectsPods()
      ensures Service()[11] == Ln(I1 + "selector:") && Service()[12] == Ln(I2 + AppLabel())
      ensures Deployment()[14] == Ln(I3 + "labels:") && Deployment()[15] == Ln(I4 + AppLabel())
    {
    }

    /** `REDIS_PASSWORD` reads the `password` key of the Secret the generic cache templates write. */
    lemma PasswordResolves()
      ensures Declares(CacheTemplate.Secret(), PasswordRef())
      ensures Deployment()[28..33] == PasswordBinding()
    {
      CacheTemplate.SecretKeys(PasswordRef());
      var d := Deployment();
      assert d[25..42] == Env();
    }

    /** The TLS port is exposed only inside `{{- if .Values.cache.tls.enabled }}`. */
    lemma TlsPortConditional()
      ensures Deployment()[22] == TlsCond() && Deployment()[23] == TlsPortLine() && Deployment()[24] == Ln(I6 + "{{- end }}")
    {
    }

    /** The `FLUSHDB` and `FLUSHALL` commands are always disabled. */
    lemma FlushDisabled()
      ensures Deployment()[33..35] == DisableCommands()
    {
      var d := Deployment();
      assert d[25..42] == Env();
    }

    /** `Redis.write`: the generic cache templates for a Redis server, then its Service and Deployment. */
    method Write(fs: FileStore)
      modifies fs
      ensures fs.files == old(fs.files)[CacheTemplate.ConfigMapPath() := Render(CacheTemplate.ConfigMap(CacheType(), DefaultHostname()))]
                                       [CacheTemplate.SecretPath() := Render(CacheTemplate.Secret())]
                                       [ServicePath() := Service()][DeploymentPath() := Deployment()]
      ensures fs.openOrder == old(fs.openOrder) + [CacheTemplate.ConfigMapPath(), CacheTemplate.SecretPath(), ServicePath(), DeploymentPath()]
    {
      CacheTemplate.WriteGeneric(fs, CacheType(), DefaultHostname());
      fs.WriteFile(ServicePath(), Service());
      fs.WriteFile(DeploymentPath(), Deployment());
    }
  }
}
