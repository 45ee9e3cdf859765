/**
 * The app's own Deployment (`Deployment`): its container, the environment variables
 * it binds, each to a key of a ConfigMap or Secret that another component writes, and
 * the Secret files it writes itself for secret-typed extra variables.
 */
module DeploymentTemplate {
  import opened Wrappers
  import opened Text
  import opened Camel
  import opened Files
  import opened Resources
  import OAuthTemplate
  import DatabaseTemplate
  import CacheTemplate
  import RedisTemplate
  import NoSQLTemplate
  import ThirdPartyTemplate

  /**
   * A value of `extra_env_vars`: a string, a boolean (how `uses_secrets_vault` arrives),
   * or a dictionary naming the ConfigMap or Secret that holds the value.
   */
  datatype ExtraValue =
    | Plain(text: string)
    | Flag(flag: bool)
    | Bound(refType: string, name: string, key: string, value: string, description: Option<string>)

  /** A `Deployment` template. The Python constructor's defaults are the field defaults here. */
  datatype Deployment = Deployment(
    imageRepository: string, imageTag: string := "v1.0.0", imagePullPolicy: string := "IfNotPresent",
    replicaCount: int := 1, port: int := 8080, env: string := "production",
    usesOAuth: bool := true, usesDb: bool := false, nosql: Option<NoSQLTemplate.NoSQL> := None,
    usesCache: bool := false, thirdPartyServices: seq<ThirdPartyTemplate.ThirdPartyService> := [],
    extraEnvVars: seq<(string, ExtraValue)> := [])

  function DeploymentPath(): string { TemplatePath("deployment") }

  // ---------------------------------------------------------------------------
  // The Secret files for secret-typed extra variables
  // ---------------------------------------------------------------------------

  /** Only dictionaries of type `Secret` get a file of their own. */
  predicate IsSecretVar(v: ExtraValue)
  {
    v.Bound? && v.refType == "Secret"
  }

  /** The file name: the Secret's name without the release prefix, when it starts with it. */
  function SecretFileName(name: string): string
  {
    if StartsWith(name, Release) then ReplaceAll(name, Release + "-", "") else name
  }

  function SecretFilePath(v: ExtraValue): string
    requires v.Bound?
  {
    TemplatePath(SecretFileName(v.name) + "-secret")
  }

  /** The Secret: named as the dictionary says, holding its key, read from `.Values.<camelCase file name>`. */
  function ExtraSecret(v: ExtraValue): Manifest
    requires v.Bound?
  {
    Manifest(None, Secret, v.name, [Ln("type: Opaque")],
             [Entry(v.key, B64Ref(CamelCase(SecretFileName(v.name), '-')))], [])
  }

  /** The files the first loop of `Deployment.write` leaves; a later file on the same path replaces an earlier one. */
  function SecretFiles(xs: seq<(string, ExtraValue)>): map<string, seq<string>>
  {
    if xs == [] then map[]
    else
      var v := xs[|xs| - 1].1;
      SecretFiles(xs[..|xs| - 1]) + (if IsSecretVar(v) then map[SecretFilePath(v) := Render(ExtraSecret(v))] else map[])
  }

  /** The paths the first loop opens, in order. */
  function SecretPaths(xs: seq<(string, ExtraValue)>): seq<string>
  {
    if xs == [] then []
    else
      var v := xs[|xs| - 1].1;
      SecretPaths(xs[..|xs| - 1]) + (if IsSecretVar(v) then [SecretFilePath(v)] else [])
  }

  /** The first loop opens exactly the files it leaves, all under `templates/`. */
  lemma {:induction false} SecretFilesOpened(xs: seq<(string, ExtraValue)>)
    ensures forall p :: p in SecretFiles(xs) <==> p in SecretPaths(xs)
    ensures forall p :: p in SecretPaths(xs) ==> IsTemplateFile(p)
  {
    if xs != [] {
      var v := xs[|xs| - 1].1;
      SecretFilesOpened(xs[..|xs| - 1]);
      if IsSecretVar(v) {
        TemplatePathIsTemplateFile(SecretFileName(v.name) + "-secret");
      }
    }
  }

  /** The lines of an extra variable's Secret, given the camelCase name of its values key. */
  lemma ExtraSecretLines(v: ExtraValue, camel: string)
    requires v.Bound? && camel == CamelCase(SecretFileName(v.name), '-')
    ensures Render(ExtraSecret(v)) == [ Ln("apiVersion: v1"), Ln("kind: Secret"), Ln("metadata:"),
                                        Ln(I1 + "name: " + v.name), Ln("type: Opaque"), Ln("data:"),
                                        Ln(I1 + v.key + ": " + B64Ref(camel)) ]
  {
    var m := ExtraSecret(v);
    var data := RenderData(m.data);
    assert data == [Ln(I1 + v.key + ": " + B64Ref(camel))];
    var pre := Preamble(m);
    assert pre == [ Ln("apiVersion: v1"), KindLine(Secret), Ln("metadata:"), NameLine(v.name),
                    Ln("type: Opaque"), DataHeader ];
    assert pre + data + [] == pre + data;
    assert KindLine(Secret) == Ln("kind: Secret") by { assert KindName(Secret) == "Secret"; }
    assert DataHeader == Ln("data:");
    assert NameLine(v.name) == Ln(I1 + "name: " + v.name);
  }

  /** What one more extra variable adds to the Secret files and to the opened paths. */
  lemma SecretFilesStep(xs: seq<(string, ExtraValue)>, i: int)
    requires 0 <= i < |xs|
    ensures var v := xs[i].1;
            SecretFiles(xs[..i + 1]) == SecretFiles(xs[..i])
              + (if IsSecretVar(v) then map[SecretFilePath(v) := Render(ExtraSecret(v))] else map[])
    ensures var v := xs[i].1;
            SecretPaths(xs[..i + 1]) == SecretPaths(xs[..i]) + (if IsSecretVar(v) then [SecretFilePath(v)] else [])
  {
    assert xs[..i + 1][..i] == xs[..i];
  }

  lemma OverrideStep<K, V>(base: map<K, V>, acc: map<K, V>, k: K, v: V)
    ensures (base + acc)[k := v] == base + (acc + map[k := v])
  {
  }

  /** The first loop of `Deployment.write`: one Secret file per secret-typed extra variable. */
  method WriteSecretFiles(fs: FileStore, xs: seq<(string, ExtraValue)>)
    modifies fs
    ensures fs.files == old(fs.files) + SecretFiles(xs)
    ensures fs.openOrder == old(fs.openOrder) + SecretPaths(xs)
  {
    assert xs[..0] == [];
    for i := 0 to |xs|
      invariant fs.files == old(fs.files) + SecretFiles(xs[..i])
      invariant fs.openOrder == old(fs.openOrder) + SecretPaths(xs[..i])
    {
      SecretFilesStep(xs, i);
      var value := xs[i].1;
      if value.Bound? && value.refType == "Secret" {
        var filename := value.name;
        if StartsWith(filename, Release) {
          filename := ReplaceAll(filename, Release + "-", "");
        }
        var camel := CamelCaseName(filename, '-');
        ExtraSecretLines(value, camel);
        OverrideStep(old(fs.files), SecretFiles(xs[..i]), SecretFilePath(value), Render(ExtraSecret(value)));
        AppendAssoc(old(fs.openOrder), SecretPaths(xs[..i]), [SecretFilePath(value)]);
        fs.WriteFile(TemplatePath(filename + "-secret"),
                     [ Ln("apiVersion: v1"), Ln("kind: Secret"), Ln("metadata:"), Ln(I1 + "name: " + value.name),
                       Ln("type: Opaque"), Ln("data:"), Ln(I1 + value.key + ": " + B64Ref(camel)) ]);
      } else {
        assert SecretFiles(xs[..i]) + map[] == SecretFiles(xs[..i]);
        assert SecretPaths(xs[..i]) + [] == SecretPaths(xs[..i]);
      }
    }
    assert xs[..|xs|] == xs;
  }

  // ---------------------------------------------------------------------------
  // Environment bindings
  // ---------------------------------------------------------------------------

  /**
   * One entry of the container's `env:` list: a comment or template directive, a
   * variable with an inline value, or a variable read from a key of a ConfigMap or
   * Secret (`kind` is `None` when the dictionary's type is neither, and the writer
   * then leaves out the `…KeyRef:` line).
   */
  datatype EnvItem =
    | Note(text: string)
    | Inline(name: string, value: string)
    | FromRef(name: string, kind: Option<Kind>, source: string, key: string)

  function KeyRefLine(kind: Option<Kind>): seq<string>
  {
    match kind
    case Some(ConfigMap) => [Ln(I6 + "configMapKeyRef:")]
    case Some(Secret) => [Ln(I6 + "secretKeyRef:")]
    case None => []
  }

  function RenderItem(it: EnvItem): seq<string>
  {
    match it
    case Note(text) => [Ln(I4 + text)]
    case Inline(name, value) => [Ln(I4 + "- name: " + name), Ln(I5 + "value: " + value)]
    case FromRef(name, kind, source, key) =>
      [Ln(I4 + "- name: " + name), Ln(I5 + "valueFrom:")] + KeyRefLine(kind)
      + [Ln(I7 + "name: " + source), Ln(I7 + "key: " + key)]
  }

  /** The lines of an env list, item after item. */
  function RenderEnv(items: seq<EnvItem>): seq<string>
  {
    if items == [] then [] else RenderEnv(items[..|items| - 1]) + RenderItem(items[|items| - 1])
  }

  /** Rendering one more item appends its lines. */
  lemma RenderEnvSnoc(items: seq<EnvItem>, it: EnvItem)
    ensures RenderEnv(items + [it]) == RenderEnv(items) + RenderItem(it)
  {
    assert (items + [it])[..|items|] == items;
  }

  lemma {:induction false} RenderEnvAppend(a: seq<EnvItem>, b: seq<EnvItem>)
    ensures RenderEnv(a + b) == RenderEnv(a) + RenderEnv(b)
    decreases |b|
  {
    if b == [] {
      assert a + b == a;
    } else {
      var init, last := b[..|b| - 1], b[|b| - 1];
      assert b == init + [last];
      assert a + b == (a + init) + [last];
      RenderEnvSnoc(a + init, last);
      RenderEnvAppend(a, init);
      AppendAssoc(RenderEnv(a), RenderEnv(init), RenderItem(last));
      RenderEnvSnoc(init, last);
    }
  }

  /** The ConfigMap or Secret key a binding reads. */
  function RefOf(it: EnvItem): Ref
    requires it.FromRef? && it.kind.Some?
  {
    Ref(it.kind.value, it.source, it.key)
  }

  /** `value['type']` as the writer reads it. */
  function RefKind(refType: string): Option<Kind>
  {
    if refType == "Secret" then Some(Secret) else if refType == "ConfigMap" then Some(ConfigMap) else None
  }

  /** `{value}` in an f-string. */
  function InlineText(v: ExtraValue): string
    requires !v.Bound?
  {
    if v.Plain? then v.text else PyBool(v.flag)
  }

  /** The binding of one extra variable, named `key.upper()`. */
  function ExtraItem(key: string, v: ExtraValue): EnvItem
  {
    if v.Bound? then FromRef(Upper(key), RefKind(v.refType), v.name, v.key)
    else Inline(Upper(key), InlineText(v))
  }

  function ExtraItems(xs: seq<(string, ExtraValue)>): (items: seq<EnvItem>)
    ensures |items| == |xs| && forall i :: 0 <= i < |xs| ==> items[i] == ExtraItem(xs[i].0, xs[i].1)
  {
    seq(|xs|, i requires 0 <= i < |xs| => ExtraItem(xs[i].0, xs[i].1))
  }

  /** `NODE_ENV` and `PORT`, which every Deployment sets first. */
  function BaseItems(): seq<EnvItem>
  {
    [ Inline("NODE_ENV", ValuesRef("container.env")),
      Inline("PORT", "\"" + ValuesRef("container.port") + "\"") ]
  }

  function OAuthHeading(): string { "# OAuth " + "Implementation Stuff" }
  function DbHeading(): string { "# Database " + "credentials" }
  function NoSQLHeading(): string { "# NoSQL Credentials" }
  function TablesHeading(): string { "# NoSQL Table Names" }
  function CacheHeading(): string { "# Caching Server " + "Variables" }
  function ThirdPartyHeading(): string { "# Third-Party " + "Integrations" }

  /** The OAuth settings, each read from the ConfigMap `OAuth` writes. */
  function OAuthItems(): seq<EnvItem>
  {
    [ Note(OAuthHeading()),
      FromRef("BASE_APP_URL", Some(ConfigMap), OAuthTemplate.Name(), "base-app-url"),
      FromRef("APP_ABBRV", Some(ConfigMap), OAuthTemplate.Name(), "app-abbreviation"),
      FromRef("APP_NAME", Some(ConfigMap), OAuthTemplate.Name(), "app-name"),
      FromRef("SERVICE_NAME", Some(ConfigMap), OAuthTemplate.Name(), "service-name"),
      FromRef("DEV_PORT", Some(ConfigMap), OAuthTemplate.Name(), "dev-port") ]
  }

  /** The database connection, from the app-namespace ConfigMap and Secret `Database` writes. */
  function DbItems(): seq<EnvItem>
  {
    [ Note(DbHeading()),
      FromRef("DB_HOST", Some(ConfigMap), DatabaseTemplate.CredentialsName(), "db-host"),
      FromRef("DB_NAME", Some(ConfigMap), DatabaseTemplate.CredentialsName(), "db-name"),
      FromRef("DB_PASSWORD", Some(Secret), DatabaseTemplate.PasswordName(), "password"),
      FromRef("DB_PORT", Some(ConfigMap), DatabaseTemplate.CredentialsName(), "db-port"),
      FromRef("DB_USER", Some(ConfigMap), DatabaseTemplate.CredentialsName(), "db-user") ]
  }

  /** The Secret the (not modelled) `MongoDB` template is expected to write. */
  function MongoCredentials(): string { Named("mongo-credentials") }

  function MongoRef(): Ref { Ref(Secret, MongoCredentials(), "connection-string") }
  /** The storage account name, read from a key the Azure credentials Secret does not have. */
  function AzureNameRef(): Ref { Ref(Secret, NoSQLTemplate.AzureCredentialsName(), "name") }

  /** The storage account: a MongoDB connection string or the Azure account key and name. */
  function StorageAccountItems(): seq<EnvItem>
  {
    [ Note(NoSQLHeading()),
      Note("{{- if " + Eq(".Values.nosql.type", "mongodb") + " }}"),
      FromRef("STORAGE_ACCOUNT_" + "CONNECTION_STRING", Some(Secret), MongoCredentials(), "connection-string"),
      Note("{{- else if " + Eq(".Values.nosql.type", "azure") + " }}"),
      FromRef("STORAGE_ACCOUNT_KEY", Some(Secret), NoSQLTemplate.AzureCredentialsName(), "key"),
      FromRef("STORAGE_ACCOUNT_NAME", Some(Secret), NoSQLTemplate.AzureCredentialsName(), "name"),
      Note("{{- end }}"),
      Note(TablesHeading()) ]
  }

  /** One binding per table, named `key.upper()`, reading the table's name from the storage-tables ConfigMap. */
  function TableItems(tables: seq<(string, NoSQLTemplate.Table)>): (items: seq<EnvItem>)
    ensures |items| == |tables|
    ensures forall i :: 0 <= i < |tables| ==>
              items[i] == FromRef(Upper(tables[i].0), Some(ConfigMap), NoSQLTemplate.TablesName(), tables[i].1.name)
  {
    seq(|tables|, i requires 0 <= i < |tables| =>
          FromRef(Upper(tables[i].0), Some(ConfigMap), NoSQLTemplate.TablesName(), tables[i].1.name))
  }

  function NoSQLItems(tables: seq<(string, NoSQLTemplate.Table)>): seq<EnvItem>
  {
    StorageAccountItems() + TableItems(tables)
  }

  /** The release placeholder as the cache block misspells it. */
  function MisspelledRelease(): string { "{{ .Relese.name }}" }
  function CacheHostnameRef(): Ref
  {
    Ref(ConfigMap, MisspelledRelease() + "-cache-configmap", "hostname")
  }

  /** The cache server's address and password, from the documents `Cache` writes. */
  function CacheItems(): seq<EnvItem>
  {
    [ Note(CacheHeading()),
      FromRef("CACHE_HOSTNAME", Some(ConfigMap), MisspelledRelease() + "-cache-configmap", "hostname"),
      FromRef("CACHE_PORT", Some(ConfigMap), CacheTemplate.ConfigMapName(), "port"),
      FromRef("CACHE_PASSWORD", Some(Secret), CacheTemplate.SecretName(), "password") ]
  }

  /** A service's variables: `NAME_VAR`, read from the service's Secret under the dashed key. */
  function VarItems(s: ThirdPartyTemplate.ThirdPartyService): (items: seq<EnvItem>)
    ensures |items| == |s.vars|
    ensures forall i :: 0 <= i < |s.vars| ==>
              items[i] == FromRef(Upper(s.name) + "_" + Upper(s.vars[i].0), Some(Secret),
                                  ThirdPartyTemplate.SecretName(s.name), ThirdPartyTemplate.DataKey(s.vars[i].0))
  {
    seq(|s.vars|, i requires 0 <= i < |s.vars| =>
          FromRef(Upper(s.name) + "_" + Upper(s.vars[i].0), Some(Secret),
                  ThirdPartyTemplate.SecretName(s.name), ThirdPartyTemplate.DataKey(s.vars[i].0)))
  }

  /** A service's block, under the same condition as the service's Secret. */
  function ServiceBlock(s: ThirdPartyTemplate.ThirdPartyService): seq<EnvItem>
  {
    [Note("{{- if " + ThirdPartyTemplate.Enabled(s.name) + " }}")] + VarItems(s) + [Note("{{- end }}")]
  }

  function ServiceBlocks(ss: seq<ThirdPartyTemplate.ThirdPartyService>): seq<EnvItem>
  {
    if ss == [] then [] else ServiceBlocks(ss[..|ss| - 1]) + ServiceBlock(ss[|ss| - 1])
  }

  /** The whole `env:` list, block after block; each optional block only when its flag or object is set. */
  function Env(d: Deployment): seq<EnvItem>
  {
    BaseItems() + ExtraItems(d.extraEnvVars)
    + (if d.usesOAuth then OAuthItems() else [])
    + (if d.usesDb then DbItems() else [])
    + (if d.nosql.Some? then NoSQLItems(d.nosql.value.tables) else [])
    + (if d.usesCache then CacheItems() else [])
    + [Note(ThirdPartyHeading())] + ServiceBlocks(d.thirdPartyServices)
  }

  /** The env list built block by block, starting from nothing, is `Env(d)`. */
  lemma EnvParts(d: Deployment, acc: seq<EnvItem>)
    requires acc == [] + BaseItems() + ExtraItems(d.extraEnvVars)
                    + (if d.usesOAuth then OAuthItems() else [])
                    + (if d.usesDb then DbItems() else [])
                    + (if d.nosql.Some? then NoSQLItems(d.nosql.value.tables) else [])
                    + (if d.usesCache then CacheItems() else [])
                    + [Note(ThirdPartyHeading())] + ServiceBlocks(d.thirdPartyServices)
    ensures acc == Env(d)
  {
    var base := BaseItems();
    assert [] + base == base;
  }

  /**
   * The Deployment's metadata and selector, then the pod template's metadata: the Deployment,
   * its `matchLabels` and its pods each carry the one label `app: {{ .Release.Name }}`.
   */
  function HeaderTop(): (h: seq<string>)
    ensures |h| == 17 && h[3] == NameLine(Release)
    ensures h[4] == Ln(I1 + "labels:") && h[5] == Ln(I2 + ReleaseLabel()) && h[6] == Ln("spec:")
    ensures h[8] == Ln(I1 + "selector:") && h[9] == Ln(I2 + "matchLabels:") && h[10] == Ln(I3 + ReleaseLabel())
    ensures h[11] == Ln(I1 + "template:") && h[12] == Ln(I2 + "metadata:")
    ensures h[13] == Ln(I3 + "labels:") && h[14] == Ln(I4 + ReleaseLabel()) && h[15] == Ln(I2 + "spec:")
  {
    [ Ln("apiVersion: apps/v1"),
      Ln("kind: Deployment"),
      Ln("metadata:"),
      NameLine(Release),
      Ln(I1 + "labels:"),
      Ln(I2 + ReleaseLabel()),
      Ln("spec:"),
      Ln(I1 + "replicas: " + ValuesRef("replicaCount")),
      Ln(I1 + "selector:"),
      Ln(I2 + "matchLabels:"),
      Ln(I3 + ReleaseLabel()),
      Ln(I1 + "template:"),
      Ln(I2 + "metadata:"),
      Ln(I3 + "labels:"),
      Ln(I4 + ReleaseLabel()),
      Ln(I2 + "spec:"),
      Ln(I3 + "containers:") ]
  }

  /** The app container, up to `env:`. */
  function Container(): (c: seq<string>)
    ensures |c| == 6 && c[0] == Ln(I3 + "- name: " + Release) && c[3] == Ln(I4 + "ports:")
    ensures c[4] == Ln(I4 + "- containerPort: " + ValuesRef("container.port")) && c[5] == Ln(I4 + "env:")
  {
    [ Ln(I3 + "- name: " + Release),
      Ln(I4 + "image: " + ValuesRef("image.repository") + ":" + ValuesRef("image.tag")),
      Ln(I4 + "imagePullPolicy: " + ValuesRef("image.pullPolicy")),
      Ln(I4 + "ports:"),
      Ln(I4 + "- containerPort: " + ValuesRef("container.port")),
      Ln(I4 + "env:") ]
  }

  /** The header of `templates/deployment.yaml`: the pod label at 14, the container's port at 21. */
  function Header(): (h: seq<string>)
    ensures |h| == 23 && h[10] == Ln(I3 + ReleaseLabel()) && h[14] == Ln(I4 + ReleaseLabel())
    ensures h[21] == Ln(I4 + "- containerPort: " + ValuesRef("container.port"))
  {
    HeaderTop() + Container()
  }

  /** `templates/deployment.yaml`. */
  function Doc(d: Deployment): seq<string>
  {
    Header() + RenderEnv(Env(d))
  }

  // ---------------------------------------------------------------------------
  // The writer
  // ---------------------------------------------------------------------------

  /**
   * The body of the extra-variable loop: a dictionary value is read from the key it names
   * (with a `…KeyRef:` line only for the types `Secret` and `ConfigMap`); any other value
   * is written inline.
   */
  method ExtraBinding(key: string, value: ExtraValue) returns (binding: EnvItem)
    ensures binding == ExtraItem(key, value)
  {
    if value.Bound? {
      var kind := None;
      if value.refType == "Secret" {
        kind := Some(Secret);
      } else if value.refType == "ConfigMap" {
        kind := Some(ConfigMap);
      }
      binding := FromRef(Upper(key), kind, value.name, value.key);
    } else {
      var text := if value.Plain? then value.text else PyBool(value.flag);
      binding := Inline(Upper(key), text);
    }
  }

  /** One turn of a loop that writes the bindings `items` one by one after the lines `start`. */
  lemma EnvLoopStep(items: seq<EnvItem>, i: int, start: seq<string>, written: seq<string>)
    requires 0 <= i < |items| && written == RenderEnv(items[..i])
    ensures start + written + RenderItem(items[i]) == start + RenderEnv(items[..i + 1])
  {
    assert items[..i + 1] == items[..i] + [items[i]];
    RenderEnvSnoc(items[..i], items[i]);
    AppendAssoc(start, written, RenderItem(items[i]));
  }

  /** One turn of a loop that writes the bindings `items` one by one after the lines `start`. */
  method WriteNext(fs: FileStore, path: string, it: EnvItem, ghost base: map<string, seq<string>>,
                   ghost start: seq<string>, ghost items: seq<EnvItem>, ghost i: int)
    requires 0 <= i < |items| && items[i] == it
    requires fs.files == base[path := start + RenderEnv(items[..i])]
    modifies fs
    ensures fs.files == base[path := start + RenderEnv(items[..i + 1])]
    ensures fs.openOrder == old(fs.openOrder)
  {
    EnvLoopStep(items, i, start, RenderEnv(items[..i]));
    WriteItem(fs, path, it);
  }

  /** The extra-variable loop of the env list. */
  method WriteExtraBindings(fs: FileStore, path: string, xs: seq<(string, ExtraValue)>)
    requires path in fs.files
    modifies fs
    ensures fs.files == old(fs.files)[path := old(fs.files)[path] + RenderEnv(ExtraItems(xs))]
    ensures fs.openOrder == old(fs.openOrder)
  {
    ghost var items := ExtraItems(xs);
    ghost var start := fs.files[path];
    assert items[..0] == [] && start + RenderEnv([]) == start;
    for i := 0 to |xs|
      invariant fs.files == old(fs.files)[path := start + RenderEnv(items[..i])]
      invariant fs.openOrder == old(fs.openOrder)
    {
      var binding := ExtraBinding(xs[i].0, xs[i].1);
      WriteNext(fs, path, binding, old(fs.files), start, items, i);
    }
    assert items[..|xs|] == items;
  }

  /** Writes the lines of one binding. */
  method WriteItem(fs: FileStore, path: string, it: EnvItem)
    requires path in fs.files
    modifies fs
    ensures fs.files == old(fs.files)[path := old(fs.files)[path] + RenderItem(it)]
    ensures fs.openOrder == old(fs.openOrder)
  {
    fs.WriteAll(path, RenderItem(it));
  }

  /** The table loop of the NoSQL block. */
  method WriteTableBindings(fs: FileStore, path: string, tables: seq<(string, NoSQLTemplate.Table)>)
    requires path in fs.files
    modifies fs
    ensures fs.files == old(fs.files)[path := old(fs.files)[path] + RenderEnv(TableItems(tables))]
    ensures fs.openOrder == old(fs.openOrder)
  {
    ghost var items := TableItems(tables);
    ghost var start := fs.files[path];
    assert items[..0] == [] && start + RenderEnv([]) == start;
    for i := 0 to |tables|
      invariant fs.files == old(fs.files)[path := start + RenderEnv(items[..i])]
      invariant fs.openOrder == old(fs.openOrder)
    {
      var binding := FromRef(Upper(tables[i].0), Some(ConfigMap), NoSQLTemplate.TablesName(), tables[i].1.name);
      WriteNext(fs, path, binding, old(fs.files), start, items, i);
    }
    assert items[..|tables|] == items;
  }

  /** The variable loop of one service's block. */
  method WriteVarBindings(fs: FileStore, path: string, s: ThirdPartyTemplate.ThirdPartyService)
    requires path in fs.files
    modifies fs
    ensures fs.files == old(fs.files)[path := old(fs.files)[path] + RenderEnv(VarItems(s))]
    ensures fs.openOrder == old(fs.openOrder)
  {
    ghost var items := VarItems(s);
    ghost var start := fs.files[path];
    assert items[..0] == [] && start + RenderEnv([]) == start;
    for i := 0 to |s.vars|
      invariant fs.files == old(fs.files)[path := start + RenderEnv(items[..i])]
      invariant fs.openOrder == old(fs.openOrder)
    {
      var v := s.vars[i].0;
      var binding := FromRef(Upper(s.name) + "_" + Upper(v), Some(Secret),
                             Named(s.name + "-secret"), ReplaceChar(v, '_', '-'));
      WriteNext(fs, path, binding, old(fs.files), start, items, i);
    }
    assert items[..|s.vars|] == items;
  }

  /** One service's block: its condition, a binding per variable, the closing directive. */
  method WriteServiceBlock(fs: FileStore, path: string, s: ThirdPartyTemplate.ThirdPartyService)
    requires path in fs.files
    modifies fs
    ensures fs.files == old(fs.files)[path := old(fs.files)[path] + RenderEnv(ServiceBlock(s))]
    ensures fs.openOrder == old(fs.openOrder)
  {
    ghost var start := fs.files[path];
    var open := Note("{{- if " + ThirdPartyTemplate.Enabled(s.name) + " }}");
    var close := Note("{{- end }}");
    ghost var a, b, c := RenderItem(open), RenderEnv(VarItems(s)), RenderItem(close);
    WriteItem(fs, path, open);
    assert fs.files == old(fs.files)[path := start + a];
    WriteVarBindings(fs, path, s);
    assert fs.files == old(fs.files)[path := start + a + b];
    WriteItem(fs, path, close);
    assert fs.files == old(fs.files)[path := start + a + b + c];
    ServiceBlockLines(s);
    AppendAssoc(start, a, b);
    AppendAssoc(start, a + b, c);
  }

  /** A service block's lines: the opening directive, the bindings, the closing directive. */
  lemma ServiceBlockLines(s: ThirdPartyTemplate.ThirdPartyService)
    ensures RenderEnv(ServiceBlock(s)) == RenderItem(Note("{{- if " + ThirdPartyTemplate.Enabled(s.name) + " }}"))
                                          + RenderEnv(VarItems(s)) + RenderItem(Note("{{- end }}"))
  {
    var open, close := Note("{{- if " + ThirdPartyTemplate.Enabled(s.name) + " }}"), Note("{{- end }}");
    assert [] + [open] == [open] && [] + [close] == [close];
    RenderEnvSnoc([], open);
    RenderEnvSnoc([], close);
    RenderEnvAppend([open], VarItems(s));
    RenderEnvAppend([open] + VarItems(s), [close]);
  }

  lemma ServiceBlocksStep(ss: seq<ThirdPartyTemplate.ThirdPartyService>, j: nat)
    requires j < |ss|
    ensures RenderEnv(ServiceBlocks(ss[..j + 1])) == RenderEnv(ServiceBlocks(ss[..j])) + RenderEnv(ServiceBlock(ss[j]))
  {
    assert ss[..j + 1][..j] == ss[..j] && ss[..j + 1][j] == ss[j];
    RenderEnvAppend(ServiceBlocks(ss[..j]), ServiceBlock(ss[j]));
  }

  /** The service loop of the third-party block. */
  method WriteServiceBlocks(fs: FileStore, path: string, ss: seq<ThirdPartyTemplate.ThirdPartyService>)
    requires path in fs.files
    modifies fs
    ensures fs.files == old(fs.files)[path := old(fs.files)[path] + RenderEnv(ServiceBlocks(ss))]
    ensures fs.openOrder == old(fs.openOrder)
  {
    ghost var start := fs.files[path];
    ghost var written: seq<string> := [];
    assert ss[..0] == [] && start + [] == start;
    for j := 0 to |ss|
      invariant path in fs.files && fs.openOrder == old(fs.openOrder)
      invariant written == RenderEnv(ServiceBlocks(ss[..j]))
      invariant fs.files == old(fs.files)[path := start + written]
    {
      ghost var block := RenderEnv(ServiceBlock(ss[j]));
      WriteServiceBlock(fs, path, ss[j]);
      UpdateTwice(old(fs.files), path, start + written, start + written + block);
      ServiceBlocksStep(ss, j);
      AppendAssoc(start, written, block);
      written := written + block;
    }
    assert ss[..|ss|] == ss;
  }

  /**
   * Appending a block's lines to a Deployment file holding the header and the env list
   * `acc` leaves it holding the header and the env list `acc + block`.
   */
  lemma Extend(before: map<string, seq<string>>, path: string, files0: map<string, seq<string>>,
               files1: map<string, seq<string>>, h: seq<string>, acc: seq<EnvItem>, block: seq<EnvItem>)
    requires files0 == before[path := h + RenderEnv(acc)]
    requires files1 == files0[path := files0[path] + RenderEnv(block)]
    ensures files1 == before[path := h + RenderEnv(acc + block)]
  {
    RenderEnvAppend(acc, block);
    AppendAssoc(h, RenderEnv(acc), RenderEnv(block));
  }

  /** Appends the rendering of a fixed block of bindings to the Deployment file. */
  method WriteBlock(fs: FileStore, path: string, items: seq<EnvItem>,
                    ghost before: map<string, seq<string>>, ghost h: seq<string>, ghost acc: seq<EnvItem>)
    requires fs.files == before[path := h + RenderEnv(acc)]
    modifies fs
    ensures fs.files == before[path := h + RenderEnv(acc + items)]
    ensures fs.openOrder == old(fs.openOrder)
  {
    ghost var files0 := fs.files;
    fs.WriteAll(path, RenderEnv(items));
    Extend(before, path, files0, fs.files, h, acc, items);
  }

  /** The storage-account bindings and one binding per table. */
  method WriteNoSQLBlock(fs: FileStore, path: string, tables: seq<(string, NoSQLTemplate.Table)>,
                         ghost before: map<string, seq<string>>, ghost h: seq<string>, ghost acc: seq<EnvItem>)
    requires fs.files == before[path := h + RenderEnv(acc)]
    modifies fs
    ensures fs.files == before[path := h + RenderEnv(acc + NoSQLItems(tables))]
    ensures fs.openOrder == old(fs.openOrder)
  {
    WriteBlock(fs, path, StorageAccountItems(), before, h, acc);
    ghost var files0 := fs.files;
    WriteTableBindings(fs, path, tables);
    Extend(before, path, files0, fs.files, h, acc + StorageAccountItems(), TableItems(tables));
    AppendAssoc(acc, StorageAccountItems(), TableItems(tables));
  }

  /** The third-party heading, then one conditional block per service. */
  method WriteThirdPartyBlock(fs: FileStore, path: string, ss: seq<ThirdPartyTemplate.ThirdPartyService>,
                              ghost before: map<string, seq<string>>, ghost h: seq<string>, ghost acc: seq<EnvItem>)
    requires fs.files == before[path := h + RenderEnv(acc)]
    modifies fs
    ensures fs.files == before[path := h + RenderEnv(acc + ([Note(ThirdPartyHeading())] + ServiceBlocks(ss)))]
    ensures fs.openOrder == old(fs.openOrder)
  {
    WriteBlock(fs, path, [Note(ThirdPartyHeading())], before, h, acc);
    ghost var files0 := fs.files;
    WriteServiceBlocks(fs, path, ss);
    Extend(before, path, files0, fs.files, h, acc + [Note(ThirdPartyHeading())], ServiceBlocks(ss));
    AppendAssoc(acc, [Note(ThirdPartyHeading())], ServiceBlocks(ss));
  }

  /** A block of bindings written only when `cond` holds. */
  method WriteBlockIf(fs: FileStore, path: string, cond: bool, items: seq<EnvItem>,
                      ghost before: map<string, seq<string>>, ghost h: seq<string>, ghost acc: seq<EnvItem>)
    requires fs.files == before[path := h + RenderEnv(acc)]
    modifies fs
    ensures fs.files == before[path := h + RenderEnv(acc + (if cond then items else []))]
    ensures fs.openOrder == old(fs.openOrder)
  {
    if cond {
      WriteBlock(fs, path, items, before, h, acc);
    } else {
      assert acc + [] == acc;
    }
  }

  /** The blocks the settings switch on: OAuth, database, NoSQL, cache, in that order. */
  method WriteOptionalBlocks(fs: FileStore, path: string, d: Deployment,
                             ghost before: map<string, seq<string>>, ghost h: seq<string>, ghost acc: seq<EnvItem>)
    requires fs.files == before[path := h + RenderEnv(acc)]
    modifies fs
    ensures fs.files == before[path := h + RenderEnv(acc + (if d.usesOAuth then OAuthItems() else [])
                                                        + (if d.usesDb then DbItems() else [])
                                                        + (if d.nosql.Some? then NoSQLItems(d.nosql.value.tables) else [])
                                                        + (if d.usesCache then CacheItems() else []))]
    ensures fs.openOrder == old(fs.openOrder)
  {
    ghost var acc1 := acc + (if d.usesOAuth then OAuthItems() else []);
    WriteBlockIf(fs, path, d.usesOAuth, OAuthItems(), before, h, acc);
    ghost var acc2 := acc1 + (if d.usesDb then DbItems() else []);
    WriteBlockIf(fs, path, d.usesDb, DbItems(), before, h, acc1);
    ghost var acc3 := acc2 + (if d.nosql.Some? then NoSQLItems(d.nosql.value.tables) else []);
    if d.nosql.Some? {
      WriteNoSQLBlock(fs, path, d.nosql.value.tables, before, h, acc2);
    } else {
      assert acc3 == acc2;
    }
    WriteBlockIf(fs, path, d.usesCache, CacheItems(), before, h, acc3);
  }

  /**
   * `Deployment.write`: the Secret files for secret-typed extra variables, then the
   * Deployment with its env list; nothing else changes.
   */
  method Write(fs: FileStore, d: Deployment)
    modifies fs
    ensures fs.files == (old(fs.files) + SecretFiles(d.extraEnvVars))[DeploymentPath() := Doc(d)]
    ensures fs.openOrder == old(fs.openOrder) + SecretPaths(d.extraEnvVars) + [DeploymentPath()]
  {
    WriteSecretFiles(fs, d.extraEnvVars);
    ghost var before := fs.files;
    var path := DeploymentPath();
    var header := Header();
    fs.WriteFile(path, header);
    ghost var acc: seq<EnvItem> := [];
    assert header + RenderEnv(acc) == header;

    WriteBlock(fs, path, BaseItems(), before, header, acc);
    acc := acc + BaseItems();

    ghost var files0 := fs.files;
    WriteExtraBindings(fs, path, d.extraEnvVars);
    Extend(before, path, files0, fs.files, header, acc, ExtraItems(d.extraEnvVars));
    acc := acc + ExtraItems(d.extraEnvVars);

    WriteOptionalBlocks(fs, path, d, before, header, acc);
    acc := acc + (if d.usesOAuth then OAuthItems() else []) + (if d.usesDb then DbItems() else [])
           + (if d.nosql.Some? then NoSQLItems(d.nosql.value.tables) else [])
           + (if d.usesCache then CacheItems() else []);

    ghost var acc0 := acc;
    WriteThirdPartyBlock(fs, path, d.thirdPartyServices, before, header, acc);
    acc := acc + ([Note(ThirdPartyHeading())] + ServiceBlocks(d.thirdPartyServices));
    AppendAssoc(acc0, [Note(ThirdPartyHeading())], ServiceBlocks(d.thirdPartyServices));
    EnvParts(d, acc);
  }

  // ---------------------------------------------------------------------------
  // What the env list reads
  // ---------------------------------------------------------------------------

  /** A binding that reads a key of a ConfigMap or Secret. */
  predicate ReadsKey(it: EnvItem)
  {
    it.FromRef? && it.kind.Some?
  }

  /**
   * The OAuth bindings read exactly the keys the OAuth ConfigMap declares: each binding's
   * key is declared, and each declared key is read by a binding.
   */
  lemma OAuthRefsResolve(r: Ref)
    ensures forall it :: it in OAuthItems() && it.FromRef? ==> ReadsKey(it) && Declares(OAuthTemplate.Doc(), RefOf(it))
    ensures Declares(OAuthTemplate.Doc(), r) ==> exists it :: it in OAuthItems() && ReadsKey(it) && RefOf(it) == r
  {
    forall it | it in OAuthItems() && it.FromRef?
      ensures ReadsKey(it) && Declares(OAuthTemplate.Doc(), RefOf(it))
    {
      OAuthTemplate.DeclaresExactly(RefOf(it));
    }
    OAuthTemplate.DeclaresExactly(r);
    if Declares(OAuthTemplate.Doc(), r) {
      var i :| 0 <= i < 5 && r.key == OAuthTemplate.Keys()[i];
      assert ReadsKey(OAuthItems()[i + 1]) && RefOf(OAuthItems()[i + 1]) == r;
    }
  }

  /** Each database binding reads a key of the app-namespace credentials ConfigMap or password Secret. */
  lemma DbRefsResolve(db: DatabaseTemplate.Database)
    ensures forall it :: it in DbItems() && it.FromRef? ==>
              ReadsKey(it) && (Declares(db.Credentials(), RefOf(it)) ||
                               Declares(db.Password(), RefOf(it)))
  {
    forall i | 1 <= i < 6
      ensures ReadsKey(DbItems()[i]) && (Declares(db.Credentials(), RefOf(DbItems()[i])) ||
                                       Declares(db.Password(), RefOf(DbItems()[i])))
    {
      db.CredentialsKeys(RefOf(DbItems()[i]));
      db.PasswordKeys(RefOf(DbItems()[i]));
    }
  }

  /** Every key the two app-namespace database documents declare is read by a database binding. */
  lemma DbKeysRead(db: DatabaseTemplate.Database, r: Ref)
    requires Declares(db.Credentials(), r) || Declares(db.Password(), r)
    ensures exists it :: it in DbItems() && ReadsKey(it) && RefOf(it) == r
  {
    db.CredentialsKeys(r);
    db.PasswordKeys(r);
    if Declares(db.Credentials(), r) {
      if r.key == "db-host" { assert RefOf(DbItems()[1]) == r; }
      else if r.key == "db-name" { assert RefOf(DbItems()[2]) == r; }
      else if r.key == "db-port" { assert RefOf(DbItems()[4]) == r; }
      else { assert RefOf(DbItems()[5]) == r; }
    } else {
      assert RefOf(DbItems()[3]) == r;
    }
  }

  /** Each table binding reads the table's name from the storage-tables ConfigMap, which declares it. */
  lemma TableRefsResolve(tables: seq<(string, NoSQLTemplate.Table)>, i: int)
    requires 0 <= i < |tables|
    ensures ReadsKey(TableItems(tables)[i])
    ensures RefOf(TableItems(tables)[i]) == Ref(ConfigMap, NoSQLTemplate.TablesName(), tables[i].1.name)
    ensures Declares(NoSQLTemplate.StorageTables(tables), RefOf(TableItems(tables)[i]))
  {
    NoSQLTemplate.StorageTablesDeclares(tables, RefOf(TableItems(tables)[i]));
    assert NoSQLTemplate.TableNames(tables)[i] == tables[i].1.name;
  }

  /** Each variable of a third-party service is read from a key the service's Secret declares. */
  lemma ServiceRefsResolve(s: ThirdPartyTemplate.ThirdPartyService, i: int)
    requires 0 <= i < |s.vars|
    ensures ReadsKey(VarItems(s)[i]) && Declares(ThirdPartyTemplate.Doc(s), RefOf(VarItems(s)[i]))
  {
    var r := RefOf(VarItems(s)[i]);
    ThirdPartyTemplate.DocDeclares(s, r);
    assert ThirdPartyTemplate.DataKeys(s.vars)[i] == r.key;
  }

  /**
   * A service's bindings sit between `{{- if .Values.thirdParty.<name>.enabled }}` and
   * `{{- end }}`: the condition that also gates the service's Secret
   * (`ThirdPartyTemplate.DocDeclares`).
   */
  lemma ServiceBlockShape(s: ThirdPartyTemplate.ThirdPartyService)
    ensures |ServiceBlock(s)| == |s.vars| + 2
    ensures ServiceBlock(s)[0] == Note("{{- if " + ThirdPartyTemplate.Enabled(s.name) + " }}")
    ensures forall i :: 0 <= i < |s.vars| ==> ServiceBlock(s)[i + 1] == VarItems(s)[i]
    ensures ServiceBlock(s)[|s.vars| + 1] == Note("{{- end }}")
  {
  }

  /**
   * The cache port and password are read from keys the cache documents declare; the
   * hostname is read from a ConfigMap whose name misspells the release placeholder, so no
   * cache ConfigMap, whatever its settings, declares it.
   */
  lemma CacheRefs(cacheType: string, defaultHostname: string)
    ensures ReadsKey(CacheItems()[1]) && RefOf(CacheItems()[1]) == CacheHostnameRef()
    ensures !Declares(CacheTemplate.ConfigMap(cacheType, defaultHostname), CacheHostnameRef())
    ensures !Declares(CacheTemplate.Secret(), CacheHostnameRef())
    ensures ReadsKey(CacheItems()[2]) && Declares(CacheTemplate.ConfigMap(cacheType, defaultHostname), RefOf(CacheItems()[2]))
    ensures ReadsKey(CacheItems()[3]) && Declares(CacheTemplate.Secret(), RefOf(CacheItems()[3]))
  {
    CacheTemplate.ConfigMapKeys(cacheType, defaultHostname, CacheHostnameRef());
    CacheTemplate.ConfigMapKeys(cacheType, defaultHostname, RefOf(CacheItems()[2]));
    CacheTemplate.SecretKeys(CacheHostnameRef());
    CacheTemplate.SecretKeys(RefOf(CacheItems()[3]));
    assert CacheHostnameRef().name[8] == 's' && CacheTemplate.ConfigMapName()[8] == 'a';
  }

  /**
   * In the Azure branch the account key is read from the Azure credentials Secret, which
   * declares it; the account name is read from the same Secret under the key `name`, which
   * neither Azure document declares.
   */
  lemma AzureRefs()
    ensures ReadsKey(StorageAccountItems()[4]) && Declares(NoSQLTemplate.AzureCredentials(), RefOf(StorageAccountItems()[4]))
    ensures ReadsKey(StorageAccountItems()[5]) && RefOf(StorageAccountItems()[5]) == AzureNameRef()
    ensures !Declares(NoSQLTemplate.AzureCredentials(), AzureNameRef())
    ensures !Declares(NoSQLTemplate.AzureConfig(), AzureNameRef())
  {
    NoSQLTemplate.AzureDeclares(RefOf(StorageAccountItems()[4]));
    NoSQLTemplate.AzureDeclares(AzureNameRef());
  }

  /**
   * A dictionary-valued extra variable of type `Secret` is read from the key of the Secret
   * the writer generates for it.
   */
  lemma ExtraSecretResolves(key: string, v: ExtraValue)
    requires IsSecretVar(v)
    ensures ReadsKey(ExtraItem(key, v)) && RefOf(ExtraItem(key, v)) == Ref(Secret, v.name, v.key)
    ensures Declares(ExtraSecret(v), RefOf(ExtraItem(key, v)))
  {
  }

  /** A path gets a Secret file iff some secret-typed extra variable's file name gives it. */
  lemma {:induction false} SecretFilesDomain(xs: seq<(string, ExtraValue)>, p: string)
    ensures p in SecretFiles(xs) <==> exists i :: 0 <= i < |xs| && IsSecretVar(xs[i].1) && SecretFilePath(xs[i].1) == p
  {
    if xs != [] {
      var n := |xs| - 1;
      SecretFilesDomain(xs[..n], p);
      assert forall i :: 0 <= i < n ==> xs[..n][i] == xs[i];
    }
  }

  /**
   * When several secret-typed variables give the same path, the file holds the Secret of
   * the last of them.
   */
  lemma {:induction false} SecretFilesLast(xs: seq<(string, ExtraValue)>, i: int)
    requires 0 <= i < |xs| && IsSecretVar(xs[i].1)
    requires forall j :: i < j < |xs| && IsSecretVar(xs[j].1) ==> SecretFilePath(xs[j].1) != SecretFilePath(xs[i].1)
    ensures SecretFilePath(xs[i].1) in SecretFiles(xs)
    ensures SecretFiles(xs)[SecretFilePath(xs[i].1)] == Render(ExtraSecret(xs[i].1))
  {
    var n := |xs| - 1;
    if i < n {
      var init := xs[..n];
      assert init[i] == xs[i];
      assert forall j :: i < j < n ==> init[j] == xs[j];
      SecretFilesLast(init, i);
    }
  }

  /** Extra variables of type `ConfigMap` get no file: the ConfigMap their binding names is never written here. */
  lemma ConfigMapVarsGetNoFile(xs: seq<(string, ExtraValue)>)
    requires forall i :: 0 <= i < |xs| ==> !(xs[i].1.Bound? && xs[i].1.refType == "Secret")
    ensures SecretFiles(xs) == map[] && SecretPaths(xs) == []
  {
    if SecretFiles(xs) != map[] {
      var q :| q in SecretFiles(xs);
      SecretFilesDomain(xs, q);
    }
    SecretPathsEmpty(xs);
  }

  lemma {:induction false} SecretPathsEmpty(xs: seq<(string, ExtraValue)>)
    requires forall i :: 0 <= i < |xs| ==> !IsSecretVar(xs[i].1)
    ensures SecretPaths(xs) == []
  {
    if xs != [] {
      var n := |xs| - 1;
      assert forall i :: 0 <= i < n ==> xs[..n][i] == xs[i];
      SecretPathsEmpty(xs[..n]);
    }
  }

  // ---------------------------------------------------------------------------
  // Which blocks the env list holds
  // ---------------------------------------------------------------------------

  /** A `# …` comment line of the env list. */
  predicate IsHeading(it: EnvItem)
  {
    it.Note? && |it.text| > 0 && it.text[0] == '#'
  }

  /** The comment headings of an env list, in order. */
  function Headings(items: seq<EnvItem>): seq<string>
  {
    if items == [] then []
    else
      var last := items[|items| - 1];
      Headings(items[..|items| - 1]) + (if IsHeading(last) then [last.text] else [])
  }

  lemma {:induction false} HeadingsAppend(a: seq<EnvItem>, b: seq<EnvItem>)
    ensures Headings(a + b) == Headings(a) + Headings(b)
    decreases |b|
  {
    if b == [] {
      assert a + b == a;
    } else {
      var n := |b| - 1;
      assert (a + b)[..|a + b| - 1] == a + b[..n];
      HeadingsAppend(a, b[..n]);
    }
  }

  /** A list with no comment headings. */
  lemma {:induction false} NoHeadings(items: seq<EnvItem>)
    requires forall i :: 0 <= i < |items| ==> !IsHeading(items[i])
    ensures Headings(items) == []
  {
    if items != [] {
      var n := |items| - 1;
      assert forall i :: 0 <= i < n ==> items[..n][i] == items[i];
      NoHeadings(items[..n]);
    }
  }

  /** The third-party blocks carry only template directives, never a heading. */
  lemma {:induction false} ServiceBlocksNoHeadings(ss: seq<ThirdPartyTemplate.ThirdPartyService>)
    ensures Headings(ServiceBlocks(ss)) == []
  {
    if ss != [] {
      var n := |ss| - 1;
      ServiceBlocksNoHeadings(ss[..n]);
      var b := ServiceBlock(ss[n]);
      forall i | 0 <= i < |b| ensures !IsHeading(b[i]) {
        if i == 0 {
          assert b[i].text[0] == '{';
        } else if i == |b| - 1 {
          assert b[i].text[0] == '{';
        } else {
          assert b[i] == VarItems(ss[n])[i - 1];
        }
      }
      NoHeadings(b);
      HeadingsAppend(ServiceBlocks(ss[..n]), b);
    }
  }

  /** A block that opens with a heading and has no other. */
  lemma HeadedBlock(h: string, rest: seq<EnvItem>)
    requires |h| > 0 && h[0] == '#'
    requires forall i :: 0 <= i < |rest| ==> !IsHeading(rest[i])
    ensures Headings([Note(h)] + rest) == [h]
  {
    NoHeadings(rest);
    HeadingsAppend([Note(h)], rest);
    assert Headings([Note(h)]) == Headings([]) + [h];
  }

  lemma OAuthHeadings()
    ensures Headings(OAuthItems()) == [OAuthHeading()]
  {
    assert OAuthItems() == [Note(OAuthHeading())] + OAuthItems()[1..];
    HeadedBlock(OAuthHeading(), OAuthItems()[1..]);
  }

  lemma DbHeadings()
    ensures Headings(DbItems()) == [DbHeading()]
  {
    assert DbItems() == [Note(DbHeading())] + DbItems()[1..];
    HeadedBlock(DbHeading(), DbItems()[1..]);
  }

  lemma CacheHeadings()
    ensures Headings(CacheItems()) == [CacheHeading()]
  {
    assert CacheItems() == [Note(CacheHeading())] + CacheItems()[1..];
    HeadedBlock(CacheHeading(), CacheItems()[1..]);
  }

  lemma StorageHeadings()
    ensures Headings(StorageAccountItems()) == [NoSQLHeading(), TablesHeading()]
  {
    var mid := StorageAccountItems()[1..7];
    forall i | 0 <= i < |mid| ensures !IsHeading(mid[i]) {
      assert mid[i].Note? ==> mid[i].text[0] == '{';
    }
    HeadedBlock(NoSQLHeading(), mid);
    assert StorageAccountItems() == [Note(NoSQLHeading())] + mid + [Note(TablesHeading())];
    HeadingsAppend([Note(NoSQLHeading())] + mid, [Note(TablesHeading())]);
    assert Headings([Note(TablesHeading())]) == Headings([]) + [TablesHeading()];
  }

  lemma NoSQLHeadings(tables: seq<(string, NoSQLTemplate.Table)>)
    ensures Headings(NoSQLItems(tables)) == [NoSQLHeading(), TablesHeading()]
  {
    StorageHeadings();
    NoHeadings(TableItems(tables));
    HeadingsAppend(StorageAccountItems(), TableItems(tables));
  }

  lemma {:induction false} Headings7(a: seq<EnvItem>, b: seq<EnvItem>, c: seq<EnvItem>, d: seq<EnvItem>,
                                      e: seq<EnvItem>, f: seq<EnvItem>, g: seq<EnvItem>, h: seq<EnvItem>)
    ensures Headings(a + b + c + d + e + f + g + h) ==
              Headings(a) + Headings(b) + Headings(c) + Headings(d) + Headings(e) + Headings(f) + Headings(g) + Headings(h)
  {
    HeadingsAppend(a, b);
    HeadingsAppend(a + b, c);
    HeadingsAppend(a + b + c, d);
    HeadingsAppend(a + b + c + d, e);
    HeadingsAppend(a + b + c + d + e, f);
    HeadingsAppend(a + b + c + d + e + f, g);
    HeadingsAppend(a + b + c + d + e + f + g, h);
  }

  lemma DropEmpty<T>(a: seq<T>, b: seq<T>, c: seq<T>, d: seq<T>, e: seq<T>, f: seq<T>, g: seq<T>, h: seq<T>)
    requires a == [] && b == [] && h == []
    ensures a + b + c + d + e + f + g + h == c + d + e + f + g
  {
  }

  /** The headings of an env list laid out as `Env` lays it out, whatever the blocks hold. */
  lemma HeadingsOfLayout(base: seq<EnvItem>, extra: seq<EnvItem>, oauth: seq<EnvItem>, db: seq<EnvItem>,
                         nosql: seq<EnvItem>, cache: seq<EnvItem>, note: string, third: seq<EnvItem>)
    requires Headings(base) == [] && Headings(extra) == [] && Headings(third) == []
    requires |note| > 0 && note[0] == '#'
    ensures Headings(base + extra + oauth + db + nosql + cache + [Note(note)] + third) ==
              Headings(oauth) + Headings(db) + Headings(nosql) + Headings(cache) + [note]
  {
    Headings7(base, extra, oauth, db, nosql, cache, [Note(note)], third);
    assert Headings([Note(note)]) == [note] by {
      assert Headings([Note(note)]) == Headings([]) + [note];
    }
    DropEmpty(Headings(base), Headings(extra), Headings(oauth), Headings(db), Headings(nosql),
              Headings(cache), Headings([Note(note)]), Headings(third));
  }

  /** The headings of the blocks the settings switch on. */
  lemma OptionalHeadings(d: Deployment)
    ensures Headings(if d.usesOAuth then OAuthItems() else []) == (if d.usesOAuth then [OAuthHeading()] else [])
    ensures Headings(if d.usesDb then DbItems() else []) == (if d.usesDb then [DbHeading()] else [])
    ensures Headings(if d.nosql.Some? then NoSQLItems(d.nosql.value.tables) else []) ==
              (if d.nosql.Some? then [NoSQLHeading(), TablesHeading()] else [])
    ensures Headings(if d.usesCache then CacheItems() else []) == (if d.usesCache then [CacheHeading()] else [])
  {
    if d.usesOAuth { OAuthHeadings(); }
    if d.usesDb { DbHeadings(); }
    if d.nosql.Some? { NoSQLHeadings(d.nosql.value.tables); }
    if d.usesCache { CacheHeadings(); }
  }

  /**
   * The env list's comment headings are those of the blocks the settings switch on, in
   * the writer's order: OAuth, database, NoSQL (credentials, then table names), cache,
   * and always the third-party heading last.
   */
  lemma EnvHeadings(d: Deployment)
    ensures Headings(Env(d)) ==
              (if d.usesOAuth then [OAuthHeading()] else [])
              + (if d.usesDb then [DbHeading()] else [])
              + (if d.nosql.Some? then [NoSQLHeading(), TablesHeading()] else [])
              + (if d.usesCache then [CacheHeading()] else [])
              + [ThirdPartyHeading()]
  {
    NoHeadings(BaseItems());
    NoHeadings(ExtraItems(d.extraEnvVars));
    ServiceBlocksNoHeadings(d.thirdPartyServices);
    assert ThirdPartyHeading()[0] == '#';
    HeadingsOfLayout(BaseItems(), ExtraItems(d.extraEnvVars),
                     if d.usesOAuth then OAuthItems() else [],
                     if d.usesDb then DbItems() else [],
                     if d.nosql.Some? then NoSQLItems(d.nosql.value.tables) else [],
                     if d.usesCache then CacheItems() else [],
                     ThirdPartyHeading(), ServiceBlocks(d.thirdPartyServices));
    OptionalHeadings(d);
  }

  /**
   * Every Deployment's env list sets `NODE_ENV` and `PORT` first, then the extra
   * variables in their order.
   */
  lemma EnvStart(d: Deployment)
    ensures |Env(d)| >= 2 + |d.extraEnvVars|
    ensures Env(d)[0] == Inline("NODE_ENV", ValuesRef("container.env"))
    ensures Env(d)[1] == Inline("PORT", "\"" + ValuesRef("container.port") + "\"")
    ensures forall i :: 0 <= i < |d.extraEnvVars| ==> Env(d)[2 + i] == ExtraItem(d.extraEnvVars[i].0, d.extraEnvVars[i].1)
  {
    var base, extra := BaseItems(), ExtraItems(d.extraEnvVars);
    assert |base| == 2;
    LayoutHead(base, extra,
               if d.usesOAuth then OAuthItems() else [],
               if d.usesDb then DbItems() else [],
               if d.nosql.Some? then NoSQLItems(d.nosql.value.tables) else [],
               if d.usesCache then CacheItems() else [],
               [Note(ThirdPartyHeading())], ServiceBlocks(d.thirdPartyServices));
  }

  /** In an eight-part concatenation whose first part has two items, the second part follows them. */
  lemma LayoutHead<T>(a: seq<T>, b: seq<T>, c: seq<T>, d: seq<T>, e: seq<T>, f: seq<T>, g: seq<T>, h: seq<T>)
    requires |a| == 2
    ensures |a + b + c + d + e + f + g + h| >= 2 + |b|
    ensures (a + b + c + d + e + f + g + h)[0] == a[0] && (a + b + c + d + e + f + g + h)[1] == a[1]
    ensures forall i :: 0 <= i < |b| ==> (a + b + c + d + e + f + g + h)[2 + i] == b[i]
  {
    var r := c + d + e + f + g + h;
    assert a + b + c + d + e + f + g + h == a + (b + r);
  }

  /** The lines of `NODE_ENV` and `PORT`. */
  lemma BaseLines()
    ensures RenderEnv(BaseItems()) == RenderItem(BaseItems()[0]) + RenderItem(BaseItems()[1])
  {
    assert BaseItems() == [BaseItems()[0]] + [BaseItems()[1]];
    RenderEnvAppend([BaseItems()[0]], [BaseItems()[1]]);
    assert RenderEnv([BaseItems()[0]]) == RenderEnv([]) + RenderItem(BaseItems()[0]);
    assert RenderEnv([BaseItems()[1]]) == RenderEnv([]) + RenderItem(BaseItems()[1]);
  }

  /** The env list splits after `NODE_ENV` and `PORT`. */
  lemma EnvSplit(d: Deployment)
    ensures Env(d) == BaseItems() + Env(d)[2..]
  {
    var e := Env(d);
    EnvStart(d);
    assert e == e[..2] + e[2..];
    assert e[..2] == BaseItems() by {
      assert e[..2] == [e[0], e[1]];
    }
  }

  /** The header ends with the container's `env:` key. */
  lemma HeaderEnd()
    ensures Header()[22] == Ln(I4 + "env:")
  {
    assert Header()[22] == Container()[5];
  }

  lemma IndexPrefix<T>(h: seq<T>, r: seq<T>, rest: seq<T>)
    ensures (h + (r + rest))[..|h|] == h
    ensures forall i :: 0 <= i < |r| ==> (h + (r + rest))[|h| + i] == r[i]
  {
  }

  /** The Deployment's `env:` line is followed by the `NODE_ENV` binding's two lines. */
  lemma DocStart(d: Deployment)
    ensures |Doc(d)| >= 27 && Doc(d)[..23] == Header() && Doc(d)[22] == Ln(I4 + "env:")
    ensures Doc(d)[23] == Ln(I4 + "- name: " + "NODE_ENV") && Doc(d)[24] == Ln(I5 + "value: " + ValuesRef("container.env"))
  {
    var rest := Env(d)[2..];
    EnvSplit(d);
    RenderEnvAppend(BaseItems(), rest);
    BaseLines();
    HeaderEnd();
    IndexPrefix(Header(), RenderEnv(BaseItems()), RenderEnv(rest));
  }
}
