/**
 * The templates a chart is built from, as one tagged union; the `isinstance` lookups the
 * chart's writers run over them; and the files each template's `write` leaves behind.
 */
module Templates {
  import opened Wrappers
  import opened Text
  import opened Files
  import opened Resources
  import IngressTemplate
  import ServiceTemplate
  import DatabaseTemplate
  import NoSQLTemplate
  import CacheTemplate
  import RedisTemplate
  import OAuthTemplate
  import ThirdPartyTemplate
  import DeploymentTemplate
  import VaultTemplate

  /** Every `Template` subclass the chart can hold. `NoSQLT` covers `MongoDB` and `AzureTableStorage` too. */
  datatype Template =
    | IngressT(ingress: IngressTemplate.Ingress)
    | ServiceT
    | DatabaseT(database: DatabaseTemplate.Database)
    | NoSQLT(nosql: NoSQLTemplate.NoSQL)
    | RedisT(redis: RedisTemplate.Redis)
    | OAuthT(oauth: OAuthTemplate.OAuth)
    | ThirdPartyT(service: ThirdPartyTemplate.ThirdPartyService)
    | DeploymentT(deployment: DeploymentTemplate.Deployment)
    | HashicorpVaultT(vault: VaultTemplate.HashicorpVault)
    | AzureKeyVaultT(keyVault: VaultTemplate.AzureKeyVault)

  /** The classes the chart's writers test templates against. */
  datatype Class = IngressClass | DatabaseClass | NoSQLClass | RedisClass | OAuthClass | ThirdPartyClass | DeploymentClass

  /** `isinstance(t, c)`. */
  predicate IsInstance(t: Template, c: Class)
  {
    match c
    case IngressClass => t.IngressT?
    case DatabaseClass => t.DatabaseT?
    case NoSQLClass => t.NoSQLT?
    case RedisClass => t.RedisT?
    case OAuthClass => t.OAuthT?
    case ThirdPartyClass => t.ThirdPartyT?
    case DeploymentClass => t.DeploymentT?
  }

  /** `any(isinstance(t, c) for t in templates)`. */
  predicate Any(ts: seq<Template>, c: Class)
  {
    exists i :: 0 <= i < |ts| && IsInstance(ts[i], c)
  }

  /** `next(t for t in templates if isinstance(t, c))`, which raises `StopIteration` when nothing matches. */
  function Next(ts: seq<Template>, c: Class): (r: Result<Template>)
    ensures r.Success? ==> IsInstance(r.value, c) && r.value in ts
    ensures r.Failure? ==> r.error == StopIteration
  {
    if ts == [] then Failure(StopIteration)
    else if IsInstance(ts[0], c) then Success(ts[0])
    else Next(ts[1..], c)
  }

  /** `next` fails exactly when `any` is false. */
  lemma {:induction false} NextFailsIffNone(ts: seq<Template>, c: Class)
    ensures Next(ts, c).Failure? <==> !Any(ts, c)
  {
    if ts != [] {
      NextFailsIffNone(ts[1..], c);
      if Any(ts, c) && !IsInstance(ts[0], c) {
        var i :| 0 <= i < |ts| && IsInstance(ts[i], c);
        assert ts[1..][i - 1] == ts[i];
      }
      if Any(ts[1..], c) {
        var i :| 0 <= i < |ts[1..]| && IsInstance(ts[1..][i], c);
        assert ts[i + 1] == ts[1..][i];
      }
    }
  }

  /** `next` returns the first match, not just any: every earlier template is of another class. */
  lemma {:induction false} NextIsFirst(ts: seq<Template>, c: Class, i: int)
    requires 0 <= i < |ts| && IsInstance(ts[i], c)
    requires forall j :: 0 <= j < i ==> !IsInstance(ts[j], c)
    ensures Next(ts, c) == Success(ts[i])
  {
    if i > 0 {
      forall j | 0 <= j < i - 1 ensures !IsInstance(ts[1..][j], c) {
        assert ts[1..][j] == ts[j + 1];
      }
      NextIsFirst(ts[1..], c, i - 1);
    }
  }

  /** What a writer leaves: the files it writes, and the paths in the order it opens them. */
  datatype Written = Written(files: map<string, seq<string>>, order: seq<string>)

  /** The files of `MongoDB.write`, whose code is not part of this model. */
  type MongoWriter = NoSQLTemplate.NoSQL -> Written

  /** The store `s` after a writer that leaves `w`: each file of `w` replaces any earlier file at its path. */
  function Merge(s: Written, w: Written): Written
  {
    Written(s.files + w.files, s.order + w.order)
  }

  /** A writer opens exactly the files it leaves, all of them under `templates/`. */
  predicate WellFormed(w: Written)
  {
    (forall p | p in w.files :: p in w.order) && (forall p | p in w.order :: p in w.files && IsTemplateFile(p))
  }

  // The rendered text of each fixed manifest, named once so that its rendering is unfolded only where needed.
  function AzureTablesConfigFile(): seq<string> { Render(NoSQLTemplate.AzureConfig()) }
  function AzureTablesSecretFile(): seq<string> { Render(NoSQLTemplate.AzureCredentials()) }
  function OAuthFile(): seq<string> { Render(OAuthTemplate.Doc()) }

  /** `Ingress.write`: `ingress.yaml`. */
  function IngressOwn(): Written
  {
    Written(map[IngressTemplate.Path() := IngressTemplate.Doc()], [IngressTemplate.Path()])
  }

  /** `Service.write`: `service.yaml`. */
  function ServiceOwn(): Written
  {
    Written(map[ServiceTemplate.Path() := ServiceTemplate.Doc()], [ServiceTemplate.Path()])
  }

  /** `Database.write`: the two credential ConfigMaps, the two password Secrets, the database resource. */
  function DatabaseOwn(db: DatabaseTemplate.Database): Written
  {
    Written(map[DatabaseTemplate.OperatorCredentialsPath() := Render(db.OperatorCredentials()),
                DatabaseTemplate.CredentialsPath() := Render(db.Credentials()),
                DatabaseTemplate.OperatorPasswordPath() := Render(db.OperatorPassword()),
                DatabaseTemplate.PasswordPath() := Render(db.Password()),
                DatabaseTemplate.CrdPath() := db.Crd()],
            DatabaseTemplate.Paths())
  }

  /** `NoSQL.write` for the plain store, `AzureTableStorage.write`, and the `MongoDB` files. */
  function NoSQLOwn(n: NoSQLTemplate.NoSQL, mongo: MongoWriter): Written
  {
    match n.flavour
    case Plain =>
      Written(map[NoSQLTemplate.TablesPath() := Render(NoSQLTemplate.StorageTables(n.tables))], [NoSQLTemplate.TablesPath()])
    case AzureTables(_) =>
      Written(map[NoSQLTemplate.AzureConfigPath() := AzureTablesConfigFile(),
                  NoSQLTemplate.AzureSecretPath() := AzureTablesSecretFile()],
              [NoSQLTemplate.AzureConfigPath(), NoSQLTemplate.AzureSecretPath()])
    case Mongo(_, _, _, _) => mongo(n)
  }

  /** `Redis.write`: the cache ConfigMap and Secret, then the Redis Service and Deployment. */
  function RedisOwn(r: RedisTemplate.Redis): Written
  {
    Written(map[CacheTemplate.ConfigMapPath() := Render(CacheTemplate.ConfigMap(RedisTemplate.CacheType(), RedisTemplate.DefaultHostname())),
                CacheTemplate.SecretPath() := Render(CacheTemplate.Secret()),
                RedisTemplate.ServicePath() := r.Service(),
                RedisTemplate.DeploymentPath() := r.Deployment()],
            [CacheTemplate.ConfigMapPath(), CacheTemplate.SecretPath(), RedisTemplate.ServicePath(), RedisTemplate.DeploymentPath()])
  }

  /** `OAuth.write`: the OAuth ConfigMap. */
  function OAuthOwn(): Written
  {
    Written(map[OAuthTemplate.Path() := OAuthFile()], [OAuthTemplate.Path()])
  }

  /** `ThirdPartyService.write`: one Secret named after the service. */
  function ThirdPartyOwn(svc: ThirdPartyTemplate.ThirdPartyService): Written
  {
    Written(map[ThirdPartyTemplate.Path(svc.name) := Render(ThirdPartyTemplate.Doc(svc))], [ThirdPartyTemplate.Path(svc.name)])
  }

  /** `Deployment.write`: one Secret per secret extra variable, then the Deployment. */
  function DeploymentOwn(d: DeploymentTemplate.Deployment): Written
  {
    Written(DeploymentTemplate.SecretFiles(d.extraEnvVars)[DeploymentTemplate.DeploymentPath() := DeploymentTemplate.Doc(d)],
            DeploymentTemplate.SecretPaths(d.extraEnvVars) + [DeploymentTemplate.DeploymentPath()])
  }

  /** `HashicorpVault.write`: the vault's Ingress, Service, claim, Deployment and Secret. */
  function HashicorpOwn(v: VaultTemplate.HashicorpVault): Written
  {
    Written(map[VaultTemplate.IngressPath() := v.Ingress(),
                VaultTemplate.ServicePath() := v.Service(),
                VaultTemplate.ClaimPath() := v.Claim(),
                VaultTemplate.DeploymentPath() := v.Deployment(),
                VaultTemplate.SecretPath() := Render(v.Secret())],
            VaultTemplate.Paths())
  }

  /** `AzureKeyVault.write`: the key vault Secret. */
  function KeyVaultOwn(k: VaultTemplate.AzureKeyVault): Written
  {
    Written(map[VaultTemplate.KeyVaultPath() := Render(k.KeyVaultSecret())], [VaultTemplate.KeyVaultPath()])
  }

  /** What `t.write()` leaves on its own. */
  function Own(t: Template, mongo: MongoWriter): Written
  {
    match t
    case IngressT(_) => IngressOwn()
    case ServiceT => ServiceOwn()
    case DatabaseT(db) => DatabaseOwn(db)
    case NoSQLT(n) => NoSQLOwn(n, mongo)
    case RedisT(r) => RedisOwn(r)
    case OAuthT(_) => OAuthOwn()
    case ThirdPartyT(svc) => ThirdPartyOwn(svc)
    case DeploymentT(d) => DeploymentOwn(d)
    case HashicorpVaultT(v) => HashicorpOwn(v)
    case AzureKeyVaultT(k) => KeyVaultOwn(k)
  }

  /** The store `fs` holds, as a `Written`. */
  function Store(files: map<string, seq<string>>, order: seq<string>): Written
  {
    Written(files, order)
  }

  /** Updating a map is merging it with a one-entry map. */
  lemma UpdateIsMerge<K, V>(m: map<K, V>, k: K, v: V)
    ensures m[k := v] == m + map[k := v]
  {
  }

  /** Updating a merged map is merging with the updated map. */
  lemma UpdateAfterMerge<K, V>(m: map<K, V>, n: map<K, V>, k: K, v: V)
    ensures (m + n)[k := v] == m + n[k := v]
  {
  }

  lemma UpdatesAreMerge2<K, V>(m: map<K, V>, k1: K, v1: V, k2: K, v2: V)
    ensures m[k1 := v1][k2 := v2] == m + map[k1 := v1, k2 := v2]
  {
    UpdateIsMerge(m, k1, v1);
    UpdateAfterMerge(m, map[k1 := v1], k2, v2);
  }

  lemma UpdatesAreMerge4<K, V>(m: map<K, V>, k1: K, v1: V, k2: K, v2: V, k3: K, v3: V, k4: K, v4: V)
    ensures m[k1 := v1][k2 := v2][k3 := v3][k4 := v4] == m + map[k1 := v1, k2 := v2, k3 := v3, k4 := v4]
  {
    UpdatesAreMerge2(m, k1, v1, k2, v2);
    UpdateAfterMerge(m, map[k1 := v1, k2 := v2], k3, v3);
    UpdateAfterMerge(m, map[k1 := v1, k2 := v2, k3 := v3], k4, v4);
  }

  lemma UpdatesAreMerge5<K, V>(m: map<K, V>, k1: K, v1: V, k2: K, v2: V, k3: K, v3: V, k4: K, v4: V, k5: K, v5: V)
    ensures m[k1 := v1][k2 := v2][k3 := v3][k4 := v4][k5 := v5] == m + map[k1 := v1, k2 := v2, k3 := v3, k4 := v4, k5 := v5]
  {
    UpdatesAreMerge4(m, k1, v1, k2, v2, k3, v3, k4, v4);
    UpdateAfterMerge(m, map[k1 := v1, k2 := v2, k3 := v3, k4 := v4], k5, v5);
  }

  // One writer per class: each leaves the store merged with that class's own files.

  method WriteIngress(fs: FileStore)
    modifies fs
    ensures Store(fs.files, fs.openOrder) == Merge(Store(old(fs.files), old(fs.openOrder)), IngressOwn())
  {
    IngressTemplate.Write(fs);
  }

  method WriteService(fs: FileStore)
    modifies fs
    ensures Store(fs.files, fs.openOrder) == Merge(Store(old(fs.files), old(fs.openOrder)), ServiceOwn())
  {
    ServiceTemplate.Write(fs);
  }

  method WriteDatabase(fs: FileStore, db: DatabaseTemplate.Database)
    modifies fs
    ensures Store(fs.files, fs.openOrder) == Merge(Store(old(fs.files), old(fs.openOrder)), DatabaseOwn(db))
  {
    ghost var m := fs.files;
    db.Write(fs);
    UpdatesAreMerge5(m, DatabaseTemplate.OperatorCredentialsPath(), Render(db.OperatorCredentials()),
                     DatabaseTemplate.CredentialsPath(), Render(db.Credentials()),
                     DatabaseTemplate.OperatorPasswordPath(), Render(db.OperatorPassword()),
                     DatabaseTemplate.PasswordPath(), Render(db.Password()), DatabaseTemplate.CrdPath(), db.Crd());
  }

  method WriteNoSQL(fs: FileStore, n: NoSQLTemplate.NoSQL, mongo: MongoWriter)
    modifies fs
    ensures Store(fs.files, fs.openOrder) == Merge(Store(old(fs.files), old(fs.openOrder)), NoSQLOwn(n, mongo))
  {
    match n.flavour
    case Plain => NoSQLTemplate.WriteStorageTables(fs, n.tables);
    case AzureTables(_) =>
      ghost var m := fs.files;
      NoSQLTemplate.WriteAzure(fs);
      UpdatesAreMerge2(m, NoSQLTemplate.AzureConfigPath(), AzureTablesConfigFile(), NoSQLTemplate.AzureSecretPath(), AzureTablesSecretFile());
    case Mongo(_, _, _, _) => fs.WriteFiles(mongo(n).files, mongo(n).order);
  }

  method WriteRedis(fs: FileStore, r: RedisTemplate.Redis)
    modifies fs
    ensures Store(fs.files, fs.openOrder) == Merge(Store(old(fs.files), old(fs.openOrder)), RedisOwn(r))
  {
    ghost var m := fs.files;
    r.Write(fs);
    UpdatesAreMerge4(m, CacheTemplate.ConfigMapPath(), Render(CacheTemplate.ConfigMap(RedisTemplate.CacheType(), RedisTemplate.DefaultHostname())), CacheTemplate.SecretPath(), Render(CacheTemplate.Secret()),
                     RedisTemplate.ServicePath(), r.Service(), RedisTemplate.DeploymentPath(), r.Deployment());
  }

  method WriteOAuth(fs: FileStore)
    modifies fs
    ensures Store(fs.files, fs.openOrder) == Merge(Store(old(fs.files), old(fs.openOrder)), OAuthOwn())
  {
    OAuthTemplate.Write(fs);
  }

  method WriteThirdParty(fs: FileStore, svc: ThirdPartyTemplate.ThirdPartyService)
    modifies fs
    ensures Store(fs.files, fs.openOrder) == Merge(Store(old(fs.files), old(fs.openOrder)), ThirdPartyOwn(svc))
  {
    ThirdPartyTemplate.Write(fs, svc);
  }

  method WriteDeployment(fs: FileStore, d: DeploymentTemplate.Deployment)
    modifies fs
    ensures Store(fs.files, fs.openOrder) == Merge(Store(old(fs.files), old(fs.openOrder)), DeploymentOwn(d))
  {
    ghost var files0, order0 := fs.files, fs.openOrder;
    ghost var own := DeploymentOwn(d);
    DeploymentTemplate.Write(fs, d);
    UpdateAfterMerge(files0, DeploymentTemplate.SecretFiles(d.extraEnvVars), DeploymentTemplate.DeploymentPath(), DeploymentTemplate.Doc(d));
    assert fs.openOrder == order0 + own.order;
  }

  method WriteHashicorp(fs: FileStore, v: VaultTemplate.HashicorpVault)
    modifies fs
    ensures Store(fs.files, fs.openOrder) == Merge(Store(old(fs.files), old(fs.openOrder)), HashicorpOwn(v))
  {
    ghost var m := fs.files;
    v.Write(fs);
    UpdatesAreMerge5(m, VaultTemplate.IngressPath(), v.Ingress(), VaultTemplate.ServicePath(), v.Service(),
                     VaultTemplate.ClaimPath(), v.Claim(), VaultTemplate.DeploymentPath(), v.Deployment(),
                     VaultTemplate.SecretPath(), Render(v.Secret()));
  }

  method WriteKeyVault(fs: FileStore, k: VaultTemplate.AzureKeyVault)
    modifies fs
    ensures Store(fs.files, fs.openOrder) == Merge(Store(old(fs.files), old(fs.openOrder)), KeyVaultOwn(k))
  {
    k.Write(fs);
  }

  // `template.write()` for one class at a time: the tag is fixed before `Own` is unfolded.

  method WriteIngressT(fs: FileStore, t: Template, mongo: MongoWriter)
    requires t.IngressT?
    modifies fs
    ensures Store(fs.files, fs.openOrder) == Merge(Store(old(fs.files), old(fs.openOrder)), Own(t, mongo))
  {
    WriteIngress(fs);
  }

  method WriteServiceT(fs: FileStore, t: Template, mongo: MongoWriter)
    requires t.ServiceT?
    modifies fs
    ensures Store(fs.files, fs.openOrder) == Merge(Store(old(fs.files), old(fs.openOrder)), Own(t, mongo))
  {
    WriteService(fs);
  }

  method WriteDatabaseT(fs: FileStore, t: Template, mongo: MongoWriter)
    requires t.DatabaseT?
    modifies fs
    ensures Store(fs.files, fs.openOrder) == Merge(Store(old(fs.files), old(fs.openOrder)), Own(t, mongo))
  {
    WriteDatabase(fs, t.database);
  }

  method WriteNoSQLT(fs: FileStore, t: Template, mongo: MongoWriter)
    requires t.NoSQLT?
    modifies fs
    ensures Store(fs.files, fs.openOrder) == Merge(Store(old(fs.files), old(fs.openOrder)), Own(t, mongo))
  {
    WriteNoSQL(fs, t.nosql, mongo);
  }

  method WriteRedisT(fs: FileStore, t: Template, mongo: MongoWriter)
    requires t.RedisT?
    modifies fs
    ensures Store(fs.files, fs.openOrder) == Merge(Store(old(fs.files), old(fs.openOrder)), Own(t, mongo))
  {
    WriteRedis(fs, t.redis);
  }

  method WriteOAuthT(fs: FileStore, t: Template, mongo: MongoWriter)
    requires t.OAuthT?
    modifies fs
    ensures Store(fs.files, fs.openOrder) == Merge(Store(old(fs.files), old(fs.openOrder)), Own(t, mongo))
  {
    WriteOAuth(fs);
  }

  method WriteThirdPartyT(fs: FileStore, t: Template, mongo: MongoWriter)
    requires t.ThirdPartyT?
    modifies fs
    ensures Store(fs.files, fs.openOrder) == Merge(Store(old(fs.files), old(fs.openOrder)), Own(t, mongo))
  {
    WriteThirdParty(fs, t.service);
  }

  method WriteDeploymentT(fs: FileStore, t: Template, mongo: MongoWriter)
    requires t.DeploymentT?
    modifies fs
    ensures Store(fs.files, fs.openOrder) == Merge(Store(old(fs.files), old(fs.openOrder)), Own(t, mongo))
  {
    WriteDeployment(fs, t.deployment);
  }

  method WriteHashicorpVaultT(fs: FileStore, t: Template, mongo: MongoWriter)
    requires t.HashicorpVaultT?
    modifies fs
    ensures Store(fs.files, fs.openOrder) == Merge(Store(old(fs.files), old(fs.openOrder)), Own(t, mongo))
  {
    WriteHashicorp(fs, t.vault);
  }

  method WriteAzureKeyVaultT(fs: FileStore, t: Template, mongo: MongoWriter)
    requires t.AzureKeyVaultT?
    modifies fs
    ensures Store(fs.files, fs.openOrder) == Merge(Store(old(fs.files), old(fs.openOrder)), Own(t, mongo))
  {
    WriteKeyVault(fs, t.keyVault);
  }

  // Generic forms of the writers' results, so that the solver never looks inside the documents.

  lemma WellFormed1(k1: string, v1: seq<string>)
    requires IsTemplateFile(k1)
    ensures WellFormed(Written(map[k1 := v1], [k1]))
  {
  }

  lemma WellFormed2(k1: string, v1: seq<string>, k2: string, v2: seq<string>)
    requires IsTemplateFile(k1) && IsTemplateFile(k2)
    ensures WellFormed(Written(map[k1 := v1, k2 := v2], [k1, k2]))
  {
  }

  lemma WellFormed4(k1: string, v1: seq<string>, k2: string, v2: seq<string>,
                    k3: string, v3: seq<string>, k4: string, v4: seq<string>)
    requires IsTemplateFile(k1) && IsTemplateFile(k2) && IsTemplateFile(k3) && IsTemplateFile(k4)
    ensures WellFormed(Written(map[k1 := v1, k2 := v2, k3 := v3, k4 := v4], [k1, k2, k3, k4]))
  {
  }

  lemma WellFormed5(k1: string, v1: seq<string>, k2: string, v2: seq<string>, k3: string, v3: seq<string>,
                    k4: string, v4: seq<string>, k5: string, v5: seq<string>)
    requires IsTemplateFile(k1) && IsTemplateFile(k2) && IsTemplateFile(k3) && IsTemplateFile(k4) && IsTemplateFile(k5)
    ensures WellFormed(Written(map[k1 := v1, k2 := v2, k3 := v3, k4 := v4, k5 := v5], [k1, k2, k3, k4, k5]))
  {
  }

  lemma WellFormedSnoc(files: map<string, seq<string>>, order: seq<string>, k: string, v: seq<string>)
    requires forall p :: p in files <==> p in order
    requires forall p :: p in order ==> IsTemplateFile(p)
    requires IsTemplateFile(k)
    ensures WellFormed(Written(files[k := v], order + [k]))
  {
  }

  /** Each template path is under `templates/`. */
  lemma TemplatePathsAreTemplateFiles()
    ensures forall f: string :: IsTemplateFile(TemplatePath(f))
  {
    forall f: string ensures IsTemplateFile(TemplatePath(f)) {
      TemplatePathIsTemplateFile(f);
    }
  }

  lemma IngressWellFormed()
    ensures WellFormed(IngressOwn())
  {
    TemplatePathsAreTemplateFiles();
    WellFormed1(IngressTemplate.Path(), IngressTemplate.Doc());
  }

  lemma ServiceWellFormed()
    ensures WellFormed(ServiceOwn())
  {
    TemplatePathsAreTemplateFiles();
    WellFormed1(ServiceTemplate.Path(), ServiceTemplate.Doc());
  }

  lemma DatabaseWellFormed(db: DatabaseTemplate.Database)
    ensures WellFormed(DatabaseOwn(db))
  {
    TemplatePathsAreTemplateFiles();
    WellFormed5(DatabaseTemplate.OperatorCredentialsPath(), Render(db.OperatorCredentials()),
                DatabaseTemplate.CredentialsPath(), Render(db.Credentials()),
                DatabaseTemplate.OperatorPasswordPath(), Render(db.OperatorPassword()),
                DatabaseTemplate.PasswordPath(), Render(db.Password()),
                DatabaseTemplate.CrdPath(), db.Crd());
  }

  lemma NoSQLWellFormed(n: NoSQLTemplate.NoSQL, mongo: MongoWriter)
    requires n.flavour.Mongo? ==> WellFormed(mongo(n))
    ensures WellFormed(NoSQLOwn(n, mongo))
  {
    TemplatePathsAreTemplateFiles();
    if n.flavour.Plain? {
      WellFormed1(NoSQLTemplate.TablesPath(), Render(NoSQLTemplate.StorageTables(n.tables)));
    } else if n.flavour.AzureTables? {
      WellFormed2(NoSQLTemplate.AzureConfigPath(), AzureTablesConfigFile(),
                  NoSQLTemplate.AzureSecretPath(), AzureTablesSecretFile());
    }
  }

  lemma RedisWellFormed(r: RedisTemplate.Redis)
    ensures WellFormed(RedisOwn(r))
  {
    RedisPathsWellFormed(Render(CacheTemplate.ConfigMap(RedisTemplate.CacheType(), RedisTemplate.DefaultHostname())),
                         Render(CacheTemplate.Secret()), r.Service(), r.Deployment());
  }

  /** The Redis writer's paths, whatever the documents. */
  lemma RedisPathsWellFormed(v1: seq<string>, v2: seq<string>, v3: seq<string>, v4: seq<string>)
    ensures WellFormed(Written(map[CacheTemplate.ConfigMapPath() := v1, CacheTemplate.SecretPath() := v2,
                                   RedisTemplate.ServicePath() := v3, RedisTemplate.DeploymentPath() := v4],
                               [CacheTemplate.ConfigMapPath(), CacheTemplate.SecretPath(), RedisTemplate.ServicePath(), RedisTemplate.DeploymentPath()]))
  {
    TemplatePathsAreTemplateFiles();
    WellFormed4(CacheTemplate.ConfigMapPath(), v1, CacheTemplate.SecretPath(), v2,
                RedisTemplate.ServicePath(), v3, RedisTemplate.DeploymentPath(), v4);
  }

  lemma OAuthWellFormed()
    ensures WellFormed(OAuthOwn())
  {
    TemplatePathsAreTemplateFiles();
    WellFormed1(OAuthTemplate.Path(), OAuthFile());
  }

  lemma ThirdPartyWellFormed(svc: ThirdPartyTemplate.ThirdPartyService)
    ensures WellFormed(ThirdPartyOwn(svc))
  {
    TemplatePathsAreTemplateFiles();
    WellFormed1(ThirdPartyTemplate.Path(svc.name), Render(ThirdPartyTemplate.Doc(svc)));
  }

  lemma DeploymentWellFormed(d: DeploymentTemplate.Deployment)
    ensures WellFormed(DeploymentOwn(d))
  {
    TemplatePathsAreTemplateFiles();
    DeploymentTemplate.SecretFilesOpened(d.extraEnvVars);
    WellFormedSnoc(DeploymentTemplate.SecretFiles(d.extraEnvVars), DeploymentTemplate.SecretPaths(d.extraEnvVars),
                   DeploymentTemplate.DeploymentPath(), DeploymentTemplate.Doc(d));
  }

  lemma HashicorpWellFormed(v: VaultTemplate.HashicorpVault)
    ensures WellFormed(HashicorpOwn(v))
  {
    HashicorpPathsWellFormed(v.Ingress(), v.Service(), v.Claim(), v.Deployment(), Render(v.Secret()));
  }

  /** The vault writer's paths, whatever the documents. */
  lemma HashicorpPathsWellFormed(v1: seq<string>, v2: seq<string>, v3: seq<string>, v4: seq<string>, v5: seq<string>)
    ensures WellFormed(Written(map[VaultTemplate.IngressPath() := v1, VaultTemplate.ServicePath() := v2,
                                   VaultTemplate.ClaimPath() := v3, VaultTemplate.DeploymentPath() := v4,
                                   VaultTemplate.SecretPath() := v5],
                               VaultTemplate.Paths()))
  {
    TemplatePathsAreTemplateFiles();
    WellFormed5(VaultTemplate.IngressPath(), v1, VaultTemplate.ServicePath(), v2,
                VaultTemplate.ClaimPath(), v3, VaultTemplate.DeploymentPath(), v4,
                VaultTemplate.SecretPath(), v5);
  }

  lemma KeyVaultWellFormed(k: VaultTemplate.AzureKeyVault)
    ensures WellFormed(KeyVaultOwn(k))
  {
    TemplatePathsAreTemplateFiles();
    WellFormed1(VaultTemplate.KeyVaultPath(), Render(k.KeyVaultSecret()));
  }

  // The same facts about `Own`, one class at a time.

  lemma OwnIngressWellFormed(i: IngressTemplate.Ingress, mongo: MongoWriter)
    ensures WellFormed(Own(IngressT(i), mongo))
  {
    IngressWellFormed();
  }

  lemma OwnServiceWellFormed(mongo: MongoWriter)
    ensures WellFormed(Own(ServiceT, mongo))
  {
    ServiceWellFormed();
  }

  lemma OwnDatabaseWellFormed(db: DatabaseTemplate.Database, mongo: MongoWriter)
    ensures WellFormed(Own(DatabaseT(db), mongo))
  {
    DatabaseWellFormed(db);
  }

  lemma OwnNoSQLWellFormed(n: NoSQLTemplate.NoSQL, mongo: MongoWriter)
    requires n.flavour.Mongo? ==> WellFormed(mongo(n))
    ensures WellFormed(Own(NoSQLT(n), mongo))
  {
    NoSQLWellFormed(n, mongo);
  }

  lemma OwnRedisWellFormed(r: RedisTemplate.Redis, mongo: MongoWriter)
    ensures WellFormed(Own(RedisT(r), mongo))
  {
    RedisWellFormed(r);
  }

  lemma OwnOAuthWellFormed(o: OAuthTemplate.OAuth, mongo: MongoWriter)
    ensures WellFormed(Own(OAuthT(o), mongo))
  {
    OAuthWellFormed();
  }

  lemma OwnThirdPartyWellFormed(svc: ThirdPartyTemplate.ThirdPartyService, mongo: MongoWriter)
    ensures WellFormed(Own(ThirdPartyT(svc), mongo))
  {
    ThirdPartyWellFormed(svc);
  }

  lemma OwnDeploymentWellFormed(d: DeploymentTemplate.Deployment, mongo: MongoWriter)
    ensures WellFormed(Own(DeploymentT(d), mongo))
  {
    DeploymentWellFormed(d);
  }

  lemma OwnHashicorpWellFormed(v: VaultTemplate.HashicorpVault, mongo: MongoWriter)
    ensures WellFormed(Own(HashicorpVaultT(v), mongo))
  {
    HashicorpWellFormed(v);
  }

  lemma OwnKeyVaultWellFormed(k: VaultTemplate.AzureKeyVault, mongo: MongoWriter)
    ensures WellFormed(Own(AzureKeyVaultT(k), mongo))
  {
    KeyVaultWellFormed(k);
  }

  /**
   * Every template's `write` opens exactly the files it leaves, all under `templates/`
   * (for `MongoDB`, whose code is not part of this model, provided its writer does).
   */
  lemma OwnWellFormed(t: Template, mongo: MongoWriter)
    requires t.NoSQLT? && t.nosql.flavour.Mongo? ==> WellFormed(mongo(t.nosql))
    ensures WellFormed(Own(t, mongo))
  {
    match t
    case IngressT(i) => OwnIngressWellFormed(i, mongo);
    case ServiceT => OwnServiceWellFormed(mongo);
    case DatabaseT(db) => OwnDatabaseWellFormed(db, mongo);
    case NoSQLT(n) => OwnNoSQLWellFormed(n, mongo);
    case RedisT(r) => OwnRedisWellFormed(r, mongo);
    case OAuthT(o) => OwnOAuthWellFormed(o, mongo);
    case ThirdPartyT(svc) => OwnThirdPartyWellFormed(svc, mongo);
    case DeploymentT(d) => OwnDeploymentWellFormed(d, mongo);
    case HashicorpVaultT(v) => OwnHashicorpWellFormed(v, mongo);
    case AzureKeyVaultT(k) => OwnKeyVaultWellFormed(k, mongo);
  }

  /** `template.write()`: whatever the class, the store is merged with that template's own files. */
  method WriteTemplate(fs: FileStore, t: Template, mongo: MongoWriter)
    modifies fs
    ensures Store(fs.files, fs.openOrder) == Merge(Store(old(fs.files), old(fs.openOrder)), Own(t, mongo))
  {
    match t
    case IngressT(_) => WriteIngressT(fs, t, mongo);
    case ServiceT => WriteServiceT(fs, t, mongo);
    case DatabaseT(_) => WriteDatabaseT(fs, t, mongo);
    case NoSQLT(n) => WriteNoSQLT(fs, t, mongo);
    case RedisT(_) => WriteRedisT(fs, t, mongo);
    case OAuthT(_) => WriteOAuthT(fs, t, mongo);
    case ThirdPartyT(svc) => WriteThirdPartyT(fs, t, mongo);
    case DeploymentT(d) => WriteDeploymentT(fs, t, mongo);
    case HashicorpVaultT(_) => WriteHashicorpVaultT(fs, t, mongo);
    case AzureKeyVaultT(_) => WriteAzureKeyVaultT(fs, t, mongo);
  }

  /** What `t.write()` leaves, for each template of `ts` in turn. */
  function Owns(ts: seq<Template>, mongo: MongoWriter): seq<Written>
  {
    seq(|ts|, i requires 0 <= i < |ts| => Own(ts[i], mongo))
  }

  /** The store `s` after the writers that leave `ws`, one after another. */
  function MergeAll(s: Written, ws: seq<Written>): Written
  {
    if ws == [] then s else Merge(MergeAll(s, ws[..|ws| - 1]), ws[|ws| - 1])
  }

  /** The `MongoDB` writer, whose code is not part of this model, opens exactly the files it leaves under `templates/`. */
  ghost predicate MongoWellFormed(mongo: MongoWriter)
  {
    forall n: NoSQLTemplate.NoSQL :: n.flavour.Mongo? ==> WellFormed(mongo(n))
  }

  /** Every template of the chart is a well-formed writer. */
  lemma OwnsWellFormed(ts: seq<Template>, mongo: MongoWriter)
    requires MongoWellFormed(mongo)
    ensures forall i :: 0 <= i < |ts| ==> WellFormed(Owns(ts, mongo)[i])
  {
    forall i | 0 <= i < |ts| ensures WellFormed(Owns(ts, mongo)[i]) {
      OwnWellFormed(ts[i], mongo);
    }
  }

  /** Running two lists of writers one after the other is running their concatenation. */
  lemma {:induction false} MergeAllAppend(s: Written, ws: seq<Written>, vs: seq<Written>)
    ensures MergeAll(s, ws + vs) == MergeAll(MergeAll(s, ws), vs)
  {
    if vs == [] {
      assert ws + vs == ws;
    } else {
      var n := |vs| - 1;
      assert (ws + vs)[..|ws + vs| - 1] == ws + vs[..n];
      assert (ws + vs)[|ws + vs| - 1] == vs[n];
      MergeAllAppend(s, ws, vs[..n]);
    }
  }

  /**
   * A file is present afterwards exactly when it was before or some writer leaves it,
   * and the paths opened before stay first in the order.
   */
  lemma {:induction false} MergeAllFiles(s: Written, ws: seq<Written>, p: string)
    ensures p in MergeAll(s, ws).files <==> p in s.files || exists i :: 0 <= i < |ws| && p in ws[i].files
    ensures |s.order| <= |MergeAll(s, ws).order| && MergeAll(s, ws).order[..|s.order|] == s.order
  {
    if ws != [] {
      var n := |ws| - 1;
      MergeAllFiles(s, ws[..n], p);
      if exists i :: 0 <= i < |ws| && p in ws[i].files {
        var i :| 0 <= i < |ws| && p in ws[i].files;
        if i < n {
          assert ws[..n][i] == ws[i];
        }
      }
      if exists i :: 0 <= i < n && p in ws[..n][i].files {
        var i :| 0 <= i < n && p in ws[..n][i].files;
        assert ws[..n][i] == ws[i];
      }
      var before := MergeAll(s, ws[..n]).order;
      assert (before + ws[n].order)[..|s.order|] == before[..|s.order|];
    }
  }

  /** The last writer that leaves a file decides its content. */
  lemma {:induction false} MergeAllLastWriter(s: Written, ws: seq<Written>, p: string, i: int)
    requires 0 <= i < |ws| && p in ws[i].files
    requires forall j :: i < j < |ws| ==> p !in ws[j].files
    ensures p in MergeAll(s, ws).files && MergeAll(s, ws).files[p] == ws[i].files[p]
  {
    var n := |ws| - 1;
    if i < n {
      forall j | i < j < n ensures p !in ws[..n][j].files {
        assert ws[..n][j] == ws[j];
      }
      assert ws[..n][i] == ws[i];
      MergeAllLastWriter(s, ws[..n], p, i);
    }
  }

  /**
   * With well-formed writers, files outside `templates/` keep their content and every
   * path opened afterwards is under `templates/`.
   */
  lemma {:induction false} MergeAllOutside(s: Written, ws: seq<Written>, p: string)
    requires forall i :: 0 <= i < |ws| ==> WellFormed(ws[i])
    requires !IsTemplateFile(p)
    ensures p in MergeAll(s, ws).files <==> p in s.files
    ensures p in s.files ==> MergeAll(s, ws).files[p] == s.files[p]
    ensures forall k :: |s.order| <= k < |MergeAll(s, ws).order| ==> IsTemplateFile(MergeAll(s, ws).order[k])
  {
    if ws != [] {
      var n := |ws| - 1;
      forall i | 0 <= i < n ensures WellFormed(ws[..n][i]) {
        assert ws[..n][i] == ws[i];
      }
      MergeAllOutside(s, ws[..n], p);
      MergeAllFiles(s, ws[..n], p);
      var w := ws[n];
      assert WellFormed(w);
      var before := MergeAll(s, ws[..n]).order;
      forall k | |s.order| <= k < |before + w.order| ensures IsTemplateFile((before + w.order)[k]) {
        if k >= |before| {
          assert (before + w.order)[k] == w.order[k - |before|];
        } else {
          assert (before + w.order)[k] == before[k];
        }
      }
    }
  }
}
