# Helm chart generator, modelled in Dafny

This project models the Python Helm chart generator: the script `create-helm-chart.py` and the
template classes under `src/`. The script reads a JSON description of an application and builds
a list of templates from it. The list always holds an Ingress, a Service and a Deployment. It may
also hold a PostgreSQL database, a Hashicorp vault, a NoSQL store, a Redis cache, OAuth settings
and third-party service secrets. The script then hands the list to a `HelmChart`, which does four
things:

- it creates `templates/` and lets every template write its manifests there;
- it writes `Chart.yaml`, a `values.yaml` built from the templates, and `.helmignore`;
- it packages the chart with `helm package`;
- it pushes the chart to a registry when one is given.

The model keeps the program's own shape:

- **Files.** The file system is a class `Files.FileStore`. Its `files` map holds each file as the
  list of pieces passed to `f.write`, and `openOrder` lists the paths in the order they were
  opened. Every writer is a method that `modifies` the store. Its `ensures` gives the new store
  exactly: every file the writer creates, with its full contents.
- **Templates.** Each template class is an immutable value: a datatype whose constructor
  function supplies the Python default arguments. One module holds each class's manifests as
  functions returning the exact lines written.
- **Writers with loops.** The writers that loop in the source are methods with loops proved
  against a specification function. These are the Deployment environment, the tables
  ConfigMap, the third-party Secret, the per-variable Secrets, the `values.yaml` section
  builders and CamelCase.
- **Manifests.** ConfigMaps and Secrets are built from a structured `Resources.Manifest`: kind,
  name, optional `{{- if }}` gate, and data lines. This lets the model state which keys a
  manifest declares (`Declares`). The Deployment environment is a list of `EnvItem`s, so the
  model states which ConfigMap or Secret key each variable reads (`ReadsKey`, `RefOf`).
- **`values.yaml`.** Built as typed YAML lines (`Setting`, `Key`, `Comment`, `Disabled`, ...),
  so the model states which keys each section sets at which indentation (`SetsKey`).
- **Python errors.** `StopIteration` from `next(...)`, `TypeError` from `f.write(None)` or a
  duplicate keyword argument, `AttributeError` from `bool.find`, `FileExistsError` from
  `os.mkdir`, and the exceptions raised by `package`/`push` are values of `Wrappers.Error`. They
  travel in `Outcome` and `Result` values rather than being thrown.

The main properties proved are these:

- **Cross-file references.** Every ConfigMap or Secret key the Deployment reads is declared by
  the manifest the matching template writes. There are two exceptions, and the model proves
  both are broken references in the source: the cache hostname is read from
  `{{ .Relese.name }}-cache-configmap`, and the Azure storage account name is read from a
  Secret key that no manifest declares.
- **`values.yaml` keys.** The keys that the OAuth ConfigMap, the tables ConfigMap, the
  third-party Secrets and the extra-variable Secrets read are the keys the matching section
  sets. The database, NoSQL and cache sections set exactly the keys listed for them, and which
  keys they set depends on the template's flavour.
- **Failure conditions.** `values.yaml` writing fails with `StopIteration` exactly when the
  chart lacks a Deployment or an Ingress. Otherwise it fails with `TypeError` exactly when a
  third-party service is present, because the third-party section builder returns `None`.
- **Whole-script outcome.** Building the template list fails only on a bad extra variable.
  Once the list is built, the script raises exactly when `templates/` exists or a third-party
  service is configured. Otherwise it writes `Chart.yaml`, `values.yaml` and `.helmignore` with
  the stated contents, then packages and pushes.
- **Template list.** The list the script builds starts with the Ingress and the Service, ends
  with the only Deployment, and holds a template of each class exactly when the input
  configures it.
- **`.helmignore`.** Its patterns are exactly the fixed ones plus one per path that exists.
- **CamelCase.** The CamelCase conversion used for `values.yaml` keys is idempotent, drops the
  separator, and inverts splitting for conventional names.

Bugs in the source are reproduced as written and proved to have their effect:

- the `.Relese.name` typo;
- the Azure `name` key that is never declared;
- the cache `hostname`/`hostName` mismatch;
- the third-party section that returns `None`;
- `uses_oauth` defaulting to `True` even when no OAuth template exists;
- the `uses_secrets_vault` keyword, which is not a Deployment parameter and so lands among the
  extra environment variables as a boolean.

## Model

| member | source | states |
|---|---|---|
| Files.FileStore.constructor | src/HelmChart.py:54 | the store starts with no files and nothing opened |
| Files.FileStore.Open | src/HelmChart.py:54 | opening a path with mode `'w'` empties that file and records that the path was opened; every other file is unchanged |
| Files.FileStore.Write | src/HelmChart.py:55 | `f.write(piece)` appends the piece to the open file and changes nothing else |
| Files.FileStore.WriteAll | src/HelmChart.py:55-67 | a run of writes appends the pieces in order to the one file |
| Files.FileStore.WriteFile | src/Ingress.py:18-39 | a `with open(path, 'w')` block leaves exactly the written pieces at that path and records one open |
| Files.FileStore.WriteFiles | src/Template.py:7 | a template's `write` merges its files into the store: its files replace earlier ones at the same paths, and its paths are opened in its order |
| Text.Split | src/HelmChart.py:204 | `str.split(sep)` always yields at least one token |
| Text.JoinSplit | src/HelmChart.py:204-207 | joining the tokens of a split with the separator gives back the original string |
| Text.SplitJoin | src/HelmChart.py:204-207 | splitting a join of separator-free tokens gives back the tokens |
| Text.SplitTokensFree | src/HelmChart.py:204-207 | no token of a split contains the separator |
| Text.SplitWithoutSeparator | src/HelmChart.py:204 | a string without the separator splits into itself alone |
| Text.SplitFreePrefix | src/HelmChart.py:204 | a separator-free prefix joins the first token and leaves the others alone |
| Text.ConcatAppend | src/HelmChart.py:515-549 | the text of pieces written in two runs is the two texts concatenated |
| Text.CapitalizeKeepsNonLetter | src/HelmChart.py:207 | `str.capitalize` introduces no non-letter character |
| Text.ReplaceAllAbsent | src/HelmChart.py:201 | `str.replace` of a pattern that does not occur leaves the string unchanged |
| Camel.CamelCaseName | src/HelmChart.py:204-207 | the loop that builds `camel_case_name` computes `CamelCase(name, sep)`: the first token, then every token unequal to the running result, capitalised |
| Camel.CamelKeepsFirstToken | src/HelmChart.py:204 | the CamelCase name starts with the first token of the name |
| Camel.CamelDropsSeparator | src/HelmChart.py:204-207 | the CamelCase name never contains the separator, for a non-letter separator |
| Camel.CamelOfSingleToken | src/HelmChart.py:204-207 | a name without the separator is its own CamelCase name |
| Camel.CamelIdempotent | src/HelmChart.py:204-207 | applying CamelCase twice gives the same key as applying it once |
| Camel.LowerOfNoUpper | src/HelmChart.py:207 | lower-casing a word without capitals leaves it unchanged |
| Camel.CapitalizeLowerWord | src/HelmChart.py:207 | `capitalize` of a lower-case word upper-cases only its first letter |
| Camel.CamelConventional | src/HelmChart.py:204-207 | when every later token is a lower-case word unequal to the first, the CamelCase name is the first token followed by the others capitalised |
| Camel.CamelCaseOfJoin | src/HelmChart.py:204-207 | for conventional tokens, CamelCase of their hyphen or underscore join is the first token followed by the others capitalised |
| Camel.CamelCaseOfTwoWords | src/HelmChart.py:204-207 | `a-b` becomes `a` followed by `b` capitalised |
| Camel.CamelCaseOfThreeWords | src/HelmChart.py:204-207 | `a-b-c` becomes `a` followed by `b` and `c` capitalised |
| Camel.RepeatedTokenDropped | src/HelmChart.py:205-207 | the `token != camel_case_name` test drops a token that repeats the first one: `db-db` becomes `db` |
| Camel.CamelOfBaseAppUrl | src/OAuth.py:22 | the ConfigMap key `base-app-url` corresponds to the `values.yaml` key `baseAppUrl` |
| Camel.CamelOfAppAbbreviation | src/OAuth.py:23 | `app-abbreviation` corresponds to `appAbbreviation` |
| Camel.CamelOfAppName | src/OAuth.py:24 | `app-name` corresponds to `appName` |
| Camel.CamelOfServiceName | src/OAuth.py:25 | `service-name` corresponds to `serviceName` |
| Camel.CamelOfDevPort | src/OAuth.py:26 | `dev-port` corresponds to `devPort` |
| Resources.TemplatePathIsTemplateFile | src/Ingress.py:18 | every path `templates/<file>` lies under `templates/` |
| Resources.KeysOfMember | src/Cache.py:36-42 | a key is among the declared keys exactly when some entry sets it |
| Resources.KeysOfAppend | src/Cache.py:36-42 | the keys of two data blocks are the keys of each, in order |
| Resources.IfElseKeys | src/Database.py:65-69 | an `{{- if }}`/`{{- else }}` pair declares the keys of both branches |
| Resources.RenderShowsDeclaration | src/Cache.py:30-52 | a manifest that declares a key shows its kind line, its name line and the `key: value` line |
| Resources.RenderGated | src/Ingress.py:19-39 | a gated manifest starts with its `{{- if ... -}}` line and ends with `{{- end -}}` |
| Resources.RenderUngated | src/Cache.py:30-42 | an ungated manifest starts with `apiVersion: v1` and is not gated |
| IngressTemplate.Rules | src/Ingress.py:27-37 | the rule routes the `ingress.host` value, path `/` with `pathType: Prefix`, to the release's Service on port 80 |
| IngressTemplate.Doc | src/Ingress.py:19-39 | `ingress.yaml` is gated on `.Values.ingress.enabled`, names the release, holds the rules and sets `ingressClassName` |
| IngressTemplate.Write | src/Ingress.py:15-39 | `Ingress.write` leaves exactly `templates/ingress.yaml` with that document |
| ServiceTemplate.Doc | src/Service.py:12-23 | `service.yaml` is named after the release, selects by the single label `app: {{ .Release.Name }}` and maps TCP port 80 to the `container.port` value |
| AppRouting.AppIngressReachesService | src/Ingress.py:33-37 | the Ingress backend names the Service the release's Service is called, on the port it exposes, 80 (src/Service.py:16, 22) |
| AppRouting.AppServiceSelectsPods | src/Service.py:18-19 | the Service's selector is the single label the Deployment gives its pods and its own `matchLabels` (src/Deployment.py:72-78) |
| AppRouting.AppServiceReachesContainer | src/Service.py:23 | the Service forwards to `.Values.container.port`, the port the Deployment's container listens on (src/Deployment.py:85), and `values.yaml` sets that key to the Deployment's port |
| ServiceTemplate.Write | src/Service.py:9-23 | `Service.write` leaves exactly `templates/service.yaml` with that document |
| CacheTemplate.ConfigMapKeys | src/Cache.py:30-42 | the cache ConfigMap declares exactly `hostname` and `port` under `<release>-cache-configmap`, and is not gated |
| CacheTemplate.HostnameChoice | src/Cache.py:37-42 | the hostname is the default hostname when the cache type matches and `cache.create` is set; otherwise it is the `cache.hostname` value |
| CacheTemplate.SecretKeys | src/Cache.py:45-52 | the cache Secret declares exactly `password`, base64 of the `cache.password` value |
| CacheTemplate.WriteGeneric | src/Cache.py:21-52 | `write_generic_cache_templates` leaves the ConfigMap then the Secret and nothing else |
| OAuthTemplate.DeclaresExactly | src/OAuth.py:13-26 | the OAuth ConfigMap declares exactly the five OAuth keys under `<release>-oauth-credentials`, and is not gated |
| OAuthTemplate.ValuesReadOAuthSection | src/OAuth.py:22-26 | the i-th data key is the i-th OAuth key, its `values.yaml` key is `Camel.CamelCase` of it, and its value reads `oauth.<that key>`; only `dev-port` is quoted |
| OAuthTemplate.Write | src/OAuth.py:13-26 | `OAuth.write` leaves exactly the OAuth ConfigMap |
| ThirdPartyTemplate.DocDeclares | src/ThirdPartyService.py:11-30 | the service Secret declares exactly those keys under `<release>-<name>-secret`, gated on `thirdParty.<name>.enabled` |
| ThirdPartyTemplate.KeysWithoutUnderscore | src/ThirdPartyService.py:23-28 | neither the Secret key nor the `values.yaml` key contains `_` |
| ThirdPartyTemplate.Write | src/ThirdPartyService.py:11-30 | `ThirdPartyService.write` leaves exactly `templates/<name>-secret.yaml` |
| NoSQLTemplate.AzureTableStorage | src/AzureTableStorage.py:4-19 | an Azure table store has type `azure`, is never created, and keeps its name, key and tables |
| NoSQLTemplate.StorageTablesDeclares | src/NoSQL.py:21-38 | the storage-tables ConfigMap declares exactly the table names under `<release>-storage-tables`, and is not gated |
| NoSQLTemplate.TableValueKeys | src/NoSQL.py:33-38 | a table's `values.yaml` key is `tables.` followed by the CamelCase of its name, which contains no `-` |
| NoSQLTemplate.WriteStorageTables | src/NoSQL.py:21-38 | `NoSQL.write` leaves exactly the storage-tables ConfigMap |
| NoSQLTemplate.AzureDeclares | src/AzureTableStorage.py:21-60 | the Azure ConfigMap declares only `name`, the Azure Secret only `key`, and both are gated on `nosql.type == "azure"` |
| NoSQLTemplate.WriteAzure | src/AzureTableStorage.py:62-66 | `AzureTableStorage.write` leaves the ConfigMap then the Secret and not the tables ConfigMap |
| DatabaseTemplate.Database.Crd | src/Database.py:113-141 | the database resource has its 29 lines |
| DatabaseTemplate.Database.CredentialsKeys | src/Database.py:54-86 | both credential ConfigMaps declare exactly `db-host`, `db-name`, `db-user` and `db-port` under `<release>-db-credentials` |
| DatabaseTemplate.Database.PasswordKeys | src/Database.py:90-110 | both password Secrets declare exactly `password`, base64 of the `database.password` value |
| DatabaseTemplate.Database.PortFallback | src/Database.py:65-69 | `db-port` is the quoted `database.port` value when set and `"5432"` otherwise |
| DatabaseTemplate.Database.Gating | src/Database.py:54-141 | the operator copies and the database resource are gated on postgres-and-create and sit in the `postgres-controller` namespace; the app's copies are not gated |
| DatabaseTemplate.Database.CrdRefsResolve | src/Database.py:121-138 | every key the database resource reads is declared by the operator ConfigMap or Secret, and appears in the resource |
| DatabaseTemplate.Database.InstanceIdConditional | src/Database.py:139-141 | `dbInstanceId` appears once, inside `{{- if .Values.database.instance_id }}` |
| DatabaseTemplate.Database.Write | src/Database.py:51-141 | `Database.write` leaves the five files in order with these contents |
| RedisTemplate.Redis.AsCache | src/Redis.py:18 | a Redis passes its password, host name, port and create flag to `Cache` |
| RedisTemplate.Redis.Service | src/Redis.py:30-45 | the Redis Service has 15 lines and is gated on the Redis gate |
| RedisTemplate.Redis.DeploymentHead | src/Redis.py:50-67 | the Redis Deployment is gated, named `<release>-redis`, and labels its pods `app: redis` |
| RedisTemplate.Redis.ContainerPorts | src/Redis.py:68-74 | the container exposes `cache.port`, and `cache.tls.port` only under `{{- if .Values.cache.tls.enabled }}` |
| RedisTemplate.Redis.PasswordBinding | src/Redis.py:78-82 | `REDIS_PASSWORD` reads key `password` of `<release>-cache-credentials` |
| RedisTemplate.Redis.Env | src/Redis.py:75-91 | the environment holds the password binding and then the disabled-commands variable |
| RedisTemplate.Redis.Deployment | src/Redis.py:49-97 | the Redis Deployment has 49 lines and is gated |
| RedisTemplate.Redis.ServiceIsDefaultHost | src/Redis.py:27-41 | the Service is named with the default hostname the cache ConfigMap falls back to, and it forwards `cache.port` |
| RedisTemplate.Redis.ServiceSelectsPods | src/Redis.py:42-65 | the Service selects the label the Deployment gives its pods |
| RedisTemplate.Redis.PasswordResolves | src/Redis.py:78-82 | the password the Redis container reads is declared by the cache Secret |
| RedisTemplate.Redis.TlsPortConditional | src/Redis.py:72-74 | the TLS port is exposed only under the TLS condition |
| RedisTemplate.Redis.FlushDisabled | src/Redis.py:83-84 | `FLUSHDB` and `FLUSHALL` are disabled |
| RedisTemplate.Redis.Write | src/Redis.py:25-97 | `Redis.write` leaves the cache ConfigMap, the cache Secret, the Service and the Deployment, in that order |
| VaultTemplate.HashicorpVault.Ingress | src/HashicorpVault.py:14-37 | the vault Ingress is gated on `vault.create.ingress.enabled` and routes to `<release>-vault` on port 80 |
| VaultTemplate.HashicorpVault.Service | src/HashicorpVault.py:38-55 | the vault Service is gated on `vault.create.enabled` and maps port 80 to 8200 |
| VaultTemplate.HashicorpVault.Claim | src/HashicorpVault.py:56-73 | the role-vars claim is gated and named `<release>-vault-role-vars` |
| VaultTemplate.HashicorpVault.DeploymentHead | src/HashicorpVault.py:76-93 | the vault Deployment is gated on create-and-hashicorp and labels its pods |
| VaultTemplate.HashicorpVault.Container | src/HashicorpVault.py:94-116 | the container listens on 8200 and mounts `vault-role-vars` |
| VaultTemplate.HashicorpVault.Volumes | src/HashicorpVault.py:117-127 | the `vault-role-vars` volume is backed by the role-vars claim |
| VaultTemplate.HashicorpVault.Deployment | src/HashicorpVault.py:74-127 | the vault Deployment has 52 lines and is gated |
| VaultTemplate.HashicorpVault.IngressReachesService | src/HashicorpVault.py:14-55 | the Ingress backend is the vault Service by name and port |
| VaultTemplate.HashicorpVault.ServiceReachesContainer | src/HashicorpVault.py:38-116 | the Service targets the container port and selects the Deployment's pod label |
| VaultTemplate.HashicorpVault.ClaimMounted | src/HashicorpVault.py:56-127 | the Deployment mounts the claim the chart creates |
| VaultTemplate.HashicorpVault.SecretKeys | src/HashicorpVault.py:129-154 | the vault Secret declares exactly `vault-name` and `vault-port`: computed when the vault is created, read from values otherwise |
| VaultTemplate.HashicorpVault.Write | src/HashicorpVault.py:156-161 | `HashicorpVault.write` leaves the Ingress, Service, claim, Deployment and Secret, in that order |
| VaultTemplate.AzureKeyVault.Write | src/AzureKeyVault.py:12-25 | `AzureKeyVault.write` leaves exactly the key vault Secret |
| VaultTemplate.KeyVaultSecretKeys | src/AzureKeyVault.py:13-25 | the key vault Secret declares exactly its four keys under the same name as the Hashicorp Secret; each is gated on its own vault type |
| DeploymentTemplate.SecretFilesOpened | src/Deployment.py:42-54 | a Secret file is opened exactly for each extra variable bound to a Secret, and each lands under `templates/` |
| DeploymentTemplate.ExtraSecretLines | src/Deployment.py:45-61 | the Secret written for a bound variable keeps its full name, declares its key, and encodes the values entry named by the CamelCase of the name without the release prefix |
| DeploymentTemplate.SecretFilesStep | src/Deployment.py:42-61 | one more extra variable adds one Secret file exactly when it is bound to a Secret |
| DeploymentTemplate.WriteSecretFiles | src/Deployment.py:42-61 | the loop over the extra variables leaves the Secret files and their opening order and nothing else |
| DeploymentTemplate.SecretFilesDomain | src/Deployment.py:42-54 | a path holds a written Secret exactly when some Secret-bound extra variable names it |
| DeploymentTemplate.SecretFilesLast | src/Deployment.py:42-61 | when no later variable reuses its file, a Secret-bound variable's file holds that variable's Secret |
| DeploymentTemplate.ConfigMapVarsGetNoFile | src/Deployment.py:42-44 | plain values and ConfigMap bindings never produce a file |
| DeploymentTemplate.SecretPathsEmpty | src/Deployment.py:42-44 | without Secret-bound variables nothing is opened before the Deployment |
| DeploymentTemplate.RenderEnvAppend | src/Deployment.py:92-221 | writing two runs of bindings one after the other writes their concatenation |
| DeploymentTemplate.ExtraBinding | src/Deployment.py:94-105 | one loop body writes the binding of one extra variable |
| DeploymentTemplate.WriteExtraBindings | src/Deployment.py:92-105 | the extra-variables loop appends exactly their bindings to the open Deployment file |
| DeploymentTemplate.WriteItem | src/Deployment.py:107-210 | one fixed binding or heading is appended to the open file |
| DeploymentTemplate.WriteTableBindings | src/Deployment.py:185-190 | the tables loop appends exactly the table bindings |
| DeploymentTemplate.WriteVarBindings | src/Deployment.py:214-219 | the variables loop appends exactly one service's bindings |
| DeploymentTemplate.WriteServiceBlock | src/Deployment.py:212-221 | one service's block is its condition, its bindings and `{{- end }}` |
| DeploymentTemplate.ServiceBlockLines | src/Deployment.py:212-221 | a service block renders as the condition line, the variables' bindings and the end line |
| DeploymentTemplate.ServiceBlocksStep | src/Deployment.py:211-221 | one more service appends exactly its block |
| DeploymentTemplate.WriteServiceBlocks | src/Deployment.py:211-221 | the third-party loop appends every service's block in order |
| DeploymentTemplate.ServiceBlockShape | src/Deployment.py:212-221 | a block has two more entries than the service has variables, opening with the service's enabled flag |
| DeploymentTemplate.Write | src/Deployment.py:39-221 | `Deployment.write` leaves the Secret files and then `templates/deployment.yaml` holding the header and the whole `env:` list |
| DeploymentTemplate.OAuthRefsResolve | src/Deployment.py:107-133 | the OAuth bindings read exactly the keys the OAuth ConfigMap declares |
| DeploymentTemplate.DbRefsResolve | src/Deployment.py:135-161 | every database binding reads a key the database credentials ConfigMap or password Secret declares |
| DeploymentTemplate.DbKeysRead | src/Deployment.py:135-161 | every key those two documents declare is read by some database binding |
| DeploymentTemplate.TableRefsResolve | src/Deployment.py:185-190 | each table binding reads a key the storage-tables ConfigMap declares |
| DeploymentTemplate.ServiceRefsResolve | src/Deployment.py:214-219 | each service binding reads a key the service's Secret declares |
| DeploymentTemplate.CacheRefs | src/Deployment.py:192-208 | `CACHE_HOSTNAME` reads from `{{ .Relese.name }}-cache-configmap`, which neither cache document declares; port and password resolve |
| DeploymentTemplate.AzureRefs | src/Deployment.py:171-181 | `STORAGE_ACCOUNT_KEY` resolves but `STORAGE_ACCOUNT_NAME` reads key `name`, which neither Azure document declares |
| DeploymentTemplate.ExtraSecretResolves | src/Deployment.py:42-102 | a Secret-bound extra variable reads the key of the Secret written for it |
| DeploymentTemplate.HeadedBlock | src/Deployment.py:107-208 | a block opened by one comment line and holding no other has that heading alone |
| DeploymentTemplate.OAuthHeadings | src/Deployment.py:108 | the OAuth block carries one heading |
| DeploymentTemplate.DbHeadings | src/Deployment.py:136 | the database block carries one heading |
| DeploymentTemplate.CacheHeadings | src/Deployment.py:193 | the cache block carries one heading |
| DeploymentTemplate.StorageHeadings | src/Deployment.py:164-183 | the storage-account block carries the credentials and table-names headings |
| DeploymentTemplate.NoSQLHeadings | src/Deployment.py:163-190 | the NoSQL block, tables included, carries exactly those two headings |
| DeploymentTemplate.HeadingsOfLayout | src/Deployment.py:86-221 | the headings of the env list are those of the optional blocks and then the third-party heading |
| DeploymentTemplate.OptionalHeadings | src/Deployment.py:107-192 | each optional block contributes its headings exactly when its flag or object is set |
| DeploymentTemplate.EnvHeadings | src/Deployment.py:107-210 | the comment headings of `deployment.yaml` say exactly which integrations are enabled, in fixed order, with the third-party heading always last |
| DeploymentTemplate.EnvStart | src/Deployment.py:87-105 | the env list opens with `NODE_ENV` and `PORT` followed by the extra variables in order |
| DeploymentTemplate.EnvSplit | src/Deployment.py:87-90 | the env list is the two base bindings followed by the rest |
| DeploymentTemplate.HeaderTop | src/Deployment.py:64-80 | the Deployment's name, its labels, its `matchLabels` and its pods' labels are each the one label `app: {{ .Release.Name }}` |
| DeploymentTemplate.Container | src/Deployment.py:81-86 | the container is named after the release and listens on `.Values.container.port` |
| DeploymentTemplate.Header | src/Deployment.py:64-86 | the header holds the selector label at 10, the pod label at 14 and the container port at 21 |
| DeploymentTemplate.DocStart | src/Deployment.py:64-88 | `deployment.yaml` opens with the 23 header lines ending in `env:`, then `NODE_ENV` read from `container.env` |
| Templates.Next | src/HelmChart.py:85 | the generator `next(...)` yields a template of the asked class taken from the list, or raises `StopIteration` |
| Templates.NextFailsIffNone | src/HelmChart.py:85 | the lookup raises `StopIteration` exactly when no template of that class is present |
| Templates.NextIsFirst | src/HelmChart.py:161 | the lookup yields the first template of that class |
| Templates.WriteIngress | src/Ingress.py:15-38 | `Ingress.write` merges `ingress.yaml` into the store |
| Templates.WriteService | src/Service.py:9-22 | `Service.write` merges `service.yaml` into the store |
| Templates.WriteDatabase | src/Database.py:51-141 | `Database.write` merges its five files into the store, in order |
| Templates.WriteNoSQL | src/NoSQL.py:21-38 | the NoSQL writers merge the storage-tables ConfigMap, the two Azure documents, or what `MongoDB.write` leaves |
| Templates.WriteRedis | src/Redis.py:25-97 | `Redis.write` merges its four files into the store |
| Templates.WriteOAuth | src/OAuth.py:13-25 | `OAuth.write` merges the OAuth ConfigMap into the store |
| Templates.WriteThirdParty | src/ThirdPartyService.py:11-29 | `ThirdPartyService.write` merges the service's Secret into the store |
| Templates.WriteDeployment | src/Deployment.py:39-221 | `Deployment.write` merges the Secret files and the Deployment into the store |
| Templates.WriteHashicorp | src/HashicorpVault.py:156-161 | `HashicorpVault.write` merges its five files into the store |
| Templates.WriteKeyVault | src/AzureKeyVault.py:12-25 | `AzureKeyVault.write` merges its Secret into the store |
| Templates.WriteTemplate | src/Template.py:7-10 | `template.write()` dispatches on the template's class and merges what that class writes |
| Templates.TemplatePathsAreTemplateFiles | src/OAuth.py:14 | every `templates/<name>` path is a template file |
| Templates.IngressWellFormed | src/Ingress.py:15-38 | the Ingress writer opens exactly the files it leaves, under `templates/` |
| Templates.ServiceWellFormed | src/Service.py:9-22 | the Service writer opens exactly the files it leaves, under `templates/` |
| Templates.DatabaseWellFormed | src/Database.py:51-141 | the Database writer opens exactly the files it leaves, under `templates/` |
| Templates.NoSQLWellFormed | src/AzureTableStorage.py:21-65 | the NoSQL writers open exactly the files they leave, under `templates/`, assuming the same of `MongoDB.write` |
| Templates.RedisWellFormed | src/Redis.py:25-97 | the Redis writer opens exactly the files it leaves, under `templates/` |
| Templates.OAuthWellFormed | src/OAuth.py:13-14 | the OAuth writer opens exactly the file it leaves, under `templates/` |
| Templates.ThirdPartyWellFormed | src/ThirdPartyService.py:11-12 | a service's writer opens exactly the file it leaves, under `templates/` |
| Templates.DeploymentWellFormed | src/Deployment.py:42-63 | the Deployment writer opens exactly the files it leaves, under `templates/` |
| Templates.HashicorpWellFormed | src/HashicorpVault.py:14-161 | the vault writer opens exactly the files it leaves, under `templates/` |
| Templates.KeyVaultWellFormed | src/AzureKeyVault.py:12-13 | the key vault writer opens exactly the file it leaves, under `templates/` |
| Templates.OwnWellFormed | src/Template.py:7-10 | whatever template is written, it opens exactly the files it leaves, all under `templates/` |
| Templates.OwnsWellFormed | src/HelmChart.py:45-46 | each template's files are well formed |
| Templates.MergeAllAppend | src/HelmChart.py:45-46 | writing two runs of templates one after the other is writing their concatenation |
| Templates.MergeAllFiles | src/HelmChart.py:45-46 | after the loop a path holds a file exactly when it held one before or some template wrote it; earlier files keep their place in the opening order |
| Templates.MergeAllLastWriter | src/HelmChart.py:45-46 | a file holds the text of the last template that wrote it |
| Templates.MergeAllOutside | src/HelmChart.py:40-46 | files outside `templates/` are untouched by the loop, and everything it opens is under `templates/` |
| Values.DeploymentSettings | src/HelmChart.py:69-146 | `replicaCount`, `image.repository`, `image.tag`, `image.pullPolicy`, `container.port` and `container.env` carry the Deployment's settings, strings quoted |
| Values.IngressSettings | src/HelmChart.py:148-173 | `ingress.enabled` is `true`, `ingress.host` the Ingress host name and `ingress.class` `nginx`: the three keys the Ingress manifest reads |
| Values.ExtraVarBlank | src/HelmChart.py:192-212 | each extra variable contributes one blank line, plus a value line when bound and a comment when described |
| Values.ExtraVarsBlankLines | src/HelmChart.py:192-212 | the extra-variables section has one blank line per variable, plus one line per bound variable and per description |
| Values.ExtraVarLinesIn | src/HelmChart.py:192-212 | every line of one variable appears in the section |
| Values.ExtraVarValue | src/HelmChart.py:195-209 | a bound variable's value appears under its CamelCase key, quoted, with its description as a comment when given |
| Values.ExtraKeyMatchesSecret | src/HelmChart.py:201-207 | when the release placeholder is a prefix of the name or absent from it, the values key is the one the variable's Secret file encodes (see `src/Deployment.py:45-61`) |
| Values.ExtraKeyMismatch | src/HelmChart.py:201-207 | for `db-{{ .Release.Name }}-key` the `values.yaml` key is `dbKey`, while the variable's Secret (src/Deployment.py:46-52, which strips the placeholder only at the start) reads the camelCase of the whole name, so the two differ |
| Values.CreateExtraVarsSection | src/HelmChart.py:175-214 | the loop builds the section text, or `StopIteration` without a Deployment |
| Values.OAuthSectionFeedsConfigMap | src/HelmChart.py:216-242 | the `oauth:` section sets the five keys the OAuth ConfigMap reads, each to the OAuth template's field |
| Values.DatabaseIntroSetsNothing | src/HelmChart.py:258-269 | the database section's introduction is comments only |
| Values.DatabaseSettingsKeys | src/HelmChart.py:270-283 | the first half of the database section sets exactly `type`, `create`, `host`, `name`, `user` |
| Values.DatabaseRestKeys | src/HelmChart.py:284-293 | the rest sets only `password`, leaving `port` and `instance_id` commented out |
| Values.DatabaseKeys | src/HelmChart.py:244-295 | the database section sets exactly `type`, `create`, `host`, `name`, `user`, `password` |
| Values.DatabaseSectionSettings | src/HelmChart.py:270-292 | `type` is `postgres` and `create` the template's flag, which is what the database resource's condition tests; port and instance id only appear commented out |
| Values.NoSQLIntroSetsNothing | src/HelmChart.py:310-321 | the NoSQL introduction is comments only |
| Values.NoSQLHeadKeys | src/HelmChart.py:322-338 | the head sets `type`, `create`, and `replicaCount` only for MongoDB |
| Values.NoSQLConnectionKeys | src/HelmChart.py:340-362 | the connection part sets `key` only for Azure Table Storage |
| Values.NoSQLAccountKeys | src/HelmChart.py:364-382 | the account part sets exactly `name`, `user`, `password` |
| Values.NoSQLKeys | src/HelmChart.py:297-382 | the NoSQL settings set `type`, `create`, `name`, `user`, `password`, plus `replicaCount` exactly for MongoDB and `key` exactly for Azure |
| Values.NoSQLFlavourSettings | src/HelmChart.py:334-381 | each flavour-dependent key holds the subclass's value or its commented-out placeholder |
| Values.TableLinesOnePerTable | src/HelmChart.py:389-395 | one line per table, keyed by the CamelCase of the table name, which is the key the storage-tables ConfigMap reads |
| Values.CreateNoSQLSection | src/HelmChart.py:297-399 | the method builds the section text, or `StopIteration` without a NoSQL template |
| Values.CreateTableLines | src/HelmChart.py:389-395 | the table loop builds exactly the table lines |
| Values.ImageItemsIndented | src/HelmChart.py:431-432 | one quoted line per image entry, nested under `image` |
| Values.CacheHeadKeys | src/HelmChart.py:415-422 | the cache head sets `type` and `create` |
| Values.CacheImageKeys | src/HelmChart.py:424-435 | `image` is set to `{}` unless the template creates Redis with a non-empty image, in which case a bare `image` line without a colon opens the entries |
| Values.CacheServerKeys | src/HelmChart.py:437-459 | `password` and `port` are always set, `replicaCount` only when creating, `hostName` only when not |
| Values.CacheTlsKeys | src/HelmChart.py:461-472 | `tls.enabled` is always set, `tls.port` only when TLS is enabled |
| Values.CacheKeys | src/HelmChart.py:401-474 | the cache section sets exactly these keys under these conditions |
| Values.CacheSettings | src/HelmChart.py:427-471 | each conditional key holds the Redis template's value or its placeholder |
| Values.CacheHostnameMismatch | src/HelmChart.py:445-450 | the section never sets `cache.hostname`, which the cache ConfigMap reads (it sets `hostName`) |
| Values.CreateCacheSection | src/HelmChart.py:401-474 | the method builds the section text, or `StopIteration` without a Redis template |
| Values.CreateImageItems | src/HelmChart.py:431-432 | the image loop builds exactly the image lines |
| Values.VarLinesFeedSecret | src/HelmChart.py:497-503 | one unquoted line per service variable, keyed by its CamelCase, the key the service's Secret reads |
| Values.CreateThirdPartySection | src/HelmChart.py:476-504 | the section is built but the method returns `None` |
| Values.CreateVarLines | src/HelmChart.py:497-503 | the variables loop builds exactly the variable lines |
| Values.OptionalStep | src/HelmChart.py:532-533 | a passing run gains an optional section exactly when its template is present |
| Values.OptionalRunPasses | src/HelmChart.py:531-545 | after a passing base run, the OAuth, database, NoSQL and cache sections follow in that order, each only when present |
| Values.OptionalRunFailed | src/HelmChart.py:531-545 | after a failed base run nothing more is written |
| Values.BaseRunOutcome | src/HelmChart.py:515-529 | the base sections fail exactly when the Deployment or the Ingress is missing, and then with `StopIteration` |
| Values.ValuesOutcome | src/HelmChart.py:506-549 | `write_values_yaml` raises `StopIteration` without a Deployment or an Ingress, otherwise `TypeError` when a third-party service is present, otherwise succeeds |
| Values.ValuesWithoutDeployment | src/HelmChart.py:515-517 | without a Deployment nothing is written to `values.yaml` |
| Values.ValuesWithoutIngress | src/HelmChart.py:515-526 | without an Ingress the three Deployment sections are written before the failure |
| Values.DeploymentRun | src/HelmChart.py:515-523 | with a Deployment the replicas, image and container sections are written in order |
| Values.BaseRunLayout | src/HelmChart.py:515-529 | with both templates the five base sections are written in order |
| Values.ValuesLayout | src/HelmChart.py:515-545 | the file holds the five base sections followed by the optional ones that apply |
| Chart.ChartFilesOutsideTemplates | src/HelmChart.py:54 | `Chart.yaml`, `values.yaml` and `.helmignore` lie outside `templates/`, so no template can overwrite them |
| Chart.MaintainerLines | src/HelmChart.py:60-62 | two lines per maintainer |
| Chart.SourceLines | src/HelmChart.py:65-66 | one line per source |
| Chart.MaintainerLinesAt | src/HelmChart.py:60-62 | maintainer `i` is listed by its email and then its name, in order |
| Chart.SourceLinesAt | src/HelmChart.py:65-66 | source `j` is listed as `- <source>`, in order |
| Chart.HelmChart.ChartYamlLayout | src/HelmChart.py:54-67 | `Chart.yaml` has `8 + 2m + s` lines: the API and app versions first, every maintainer and source in order, the chart name, and the version last |
| Chart.HelmChart.WriteYaml | src/HelmChart.py:48-67 | `write_yaml` leaves `Chart.yaml` with exactly that text and opens nothing else |
| Chart.HelmChart.CreateTemplatesFolder | src/HelmChart.py:40-46 | fails with `FileExistsError` and writes nothing when `templates` exists; otherwise the store is every template's files merged in list order |
| Chart.OwnsSnoc | src/HelmChart.py:45-46 | one more loop iteration merges one more template's files |
| Chart.TemplatesFolderOutside | src/HelmChart.py:40-46 | writing the templates leaves files outside `templates/` untouched and opens only template files |
| Chart.HelmChart.WriteValuesYaml | src/HelmChart.py:506-549 | `values.yaml` holds exactly the sections written before any exception, and the method's outcome is the values run's outcome |
| Chart.WriteSection | src/HelmChart.py:517-529 | writing one section appends its text, or stops with its exception |
| Chart.WriteBaseSections | src/HelmChart.py:515-529 | the five base writes leave the base run's text and outcome |
| Chart.WriteOptionalSections | src/HelmChart.py:531-545 | the four guarded writes append the sections whose templates are present |
| Chart.WriteOptionalSection | src/HelmChart.py:532-533 | one guarded write appends its section exactly when its template is present |
| Chart.PatternsOfAppend | src/HelmChart.py:558-582 | patterns of two runs of entries concatenate |
| Chart.IgnoreLinesAppend | src/HelmChart.py:558-582 | writing two runs of entries writes their concatenation |
| Chart.IgnoreLinesHold | src/HelmChart.py:558-582 | when comments are marked with `#`, a pattern line is in the file exactly when the pattern is one of the entries |
| Chart.EntriesCommentsMarked | src/HelmChart.py:559-581 | every comment written to `.helmignore` starts with `#` |
| Chart.LayoutPatterns | src/HelmChart.py:558-582 | the patterns are the two fixed ones plus each optional one whose probe held |
| Chart.PatternsOfOptional | src/HelmChart.py:565-582 | an optional entry adds its pattern exactly when its probe held |
| Chart.HelmignorePatterns | src/HelmChart.py:551-582 | `.helmignore` ignores `.helmignore` and `*.tgz` always, and `.git`, `.gitignore`, `README.md`, `requirements.txt`, `create-helm-chart.py` exactly when each exists |
| Chart.HelmChart.WriteHelmignore | src/HelmChart.py:551-582 | `write_helmignore` leaves `.helmignore` with exactly those entries and opens nothing else |
| Chart.WriteEntry | src/HelmChart.py:565-582 | one probed entry is appended exactly when its probe held |
| Chart.Package | src/HelmChart.py:584-590 | packaging succeeds exactly when `helm package` exits with 0, otherwise raises `Exception` carrying the failure message |
| Chart.HelmChart.Push | src/HelmChart.py:592-604 | pushing raises when the tarball is missing, and otherwise runs `helm push <tarball> oci://<registry>` |
| Chart.HelmChart.PushedTarball | src/HelmChart.py:599-604 | the pushed tarball is `<name>-<version>.tgz`, named by the chart name and version `Chart.yaml` declares |
| Script.MongoDB | create-helm-chart.py:78-89 | the NoSQL template the script builds is a MongoDB store carrying the input's database name, user, password and tables |
| Script.RequoteValueReplaces | create-helm-chart.py:136-137 | a string value has every single quote replaced by a double quote, leaving none |
| Script.RequotedSpec | create-helm-chart.py:133-137 | requoting succeeds exactly when no extra value is a boolean (which has no `find`), keeps the keys and the order, leaves bound values alone and requotes strings |
| Script.RequotedPrefixFails | create-helm-chart.py:135-137 | once one value fails the loop stops with that error |
| Script.RequoteExtraVars | create-helm-chart.py:133-137 | the requoting loop computes the requoted extra variables or the first `AttributeError` |
| Script.FirstNamed | create-helm-chart.py:140 | finds the first extra variable whose name is in a given set (a keyword the call passes, or a parameter given by position), or establishes there is none |
| Script.BindFails | src/Deployment.py:6 | binding the extra keywords fails exactly when one of them names a parameter whose value the model does not carry |
| Script.BindKeeps | src/Deployment.py:6 | binding keeps every setting the call passed explicitly |
| Script.BindExtends | src/Deployment.py:6 | the keywords that name no parameter become extra variables, in order, after the ones already there |
| Script.DeploymentCallFails | create-helm-chart.py:140 | the call raises `TypeError` ("got multiple values for keyword argument") when an extra variable repeats a keyword the call passes; otherwise `TypeError` ("got multiple values for argument") when one is named `self` or `image_repository`, which are given by position (src/Deployment.py:6); otherwise it fails exactly at an extra variable the model cannot bind |
| Script.DeploymentCallSpec | create-helm-chart.py:140 | when the call succeeds, the Deployment carries the input's image and flags, OAuth on by default, port 8080, one replica, and `uses_secrets_vault` as its first extra variable |
| Script.AppendOptionals | create-helm-chart.py:52-109 | the optional templates are appended in the script's order: database, vault, NoSQL, cache, OAuth |
| Script.CollectServices | create-helm-chart.py:111-131 | OpenAI and then Stripe are collected when configured |
| Script.AssembleTemplates | create-helm-chart.py:40-141 | the template list is assembled, or the quote pass's or the Deployment call's error is raised (an extra variable named `self` included) |
| Script.AnyAppend | create-helm-chart.py:43-141 | a class is present in a concatenation exactly when it is present in one of the parts |
| Script.OptionalKinds | create-helm-chart.py:52-109 | an optional template of a class is present exactly when its input section is configured |
| Script.ServiceKinds | create-helm-chart.py:111-131 | the service templates are all third-party services, and there is one exactly when some service is configured |
| Script.AssembledShape | create-helm-chart.py:40-141 | the list starts with the Ingress and the Service, ends with the only Deployment, and holds a class exactly when the input configures it |
| Script.AssembledPresence | create-helm-chart.py:40-141 | the assembled list always holds an Ingress and a Deployment, and a third-party service exactly when one is configured |
| Script.ValuesOutcomeOf | src/HelmChart.py:506-549 | with an Ingress and a Deployment present, `values.yaml` fails exactly when a third-party service is present |
| Script.ScriptValuesOutcome | create-helm-chart.py:145-148 | for the script's own template list, `write_values_yaml` raises `TypeError` exactly when a third-party service is configured |
| Script.Publish | create-helm-chart.py:151-163 | the script always runs `helm package` first and at most one more command |
| Script.PublishSpec | create-helm-chart.py:151-163 | the push runs exactly when packaging succeeded, a registry is given and the tarball exists; each failure prints its message and the exception |
| Script.ChartStoreFiles | create-helm-chart.py:145-149 | after the chart is written, `templates/` holds a file exactly when it did before or some template writes it; `Chart.yaml` and `values.yaml` hold their text, `.helmignore` too when `values.yaml` was written whole; every other file keeps its content |
| Script.ChartStoreLastWriter | create-helm-chart.py:145-149 | a file under `templates/` holds what the last template writing it wrote; the paths opened after the templates are `Chart.yaml`, `values.yaml` and then `.helmignore` only when `values.yaml` was written whole |
| Script.WriteChart | create-helm-chart.py:145-149 | an existing `templates` folder raises `FileExists` and changes nothing; otherwise the new store is the old one with every template's files merged in order, then the three chart files (`ChartStore`) |
| Script.WriteChartFiles | create-helm-chart.py:147-149 | the new store is the old one with `Chart.yaml` and `values.yaml` replaced, and `.helmignore` too only when `values.yaml` succeeded; nothing else changes and the three are opened in that order |
| Script.Generate | create-helm-chart.py:14-163 | the script raises when assembling fails (leaving the store untouched), when `templates` exists (untouched too) or when a third-party service is configured; whenever `templates` is new the final store is `ChartStore` of the old one: the templates' manifests under `templates/`, the chart files, nothing else changed; a finished run reports what packaging and pushing did |

## Left out

- The file system itself: `open`/`write` are appends to `Files.FileStore`; whether `templates/` already exists, the `os.path.exists` probes of `write_helmignore`, the exit code of `helm package` and the existence of the tarball are inputs (`Script.Environment`, `Chart.Probes`).
- The `helm package` and `helm push` processes are recorded as the commands run (`Script.Report`), not executed; the exit code of `helm push` is ignored, as in the source.
- `print` output is recorded as the list of printed messages in `Script.Report`.
- Reading `input.json`: the script starts from a typed `Script.Input`. A section that is absent or `False` is `None`; a missing key inside a present section (a Python `KeyError`) is not modelled, nor are JSON values of other types than the ones each field is read as.
- Extra variables whose JSON value is a number or a list: only strings, booleans and the `{type, name, key, value, description}` objects are modelled (`DeploymentTemplate.ExtraValue`).
- The `MongoDB` class is not part of this model. What its constructor leaves is the parameter `Script.MongoDefaults`, what its `write` leaves is the parameter `Templates.MongoWriter`, and the only thing assumed of the latter is that it writes under `templates/` (`Templates.MongoWellFormed`).
- The `SecretsVault` parent class of the two vault templates is not part of this model; the vault type it receives and the fields the templates read are fields of `VaultTemplate.HashicorpVault` and `VaultTemplate.AzureKeyVault`.
- `src/Template.py` only declares the abstract `write`; it is the datatype `Templates.Template` whose `write` is `Templates.WriteTemplate`.
- Long explanatory comment lines of `values.yaml` are abstracted to short fixed comments; the lines that set, or comment out, a value are exact.
- The text of each file is kept as the list of pieces passed to `f.write`, not as one string; `Text.Concat` joins such a list.
- Dictionary iteration order is the order of the sequences that stand for the dictionaries (the JSON order); duplicate dictionary keys are not modelled.
- Integers (`replica_count`, `port`) are unbounded; `Text.IntToString` renders them in decimal with a leading `-` when negative, as Python's `str` does.
- Script.BindFails: an extra variable named `replica_count`, `port` or `uses_oauth`, or a non-string `image_tag` or `env`, would be bound to that `Deployment` parameter in Python and written out as is; the model reports it as `UnsupportedKeyword` instead of carrying a value of another type.
- Script.DeploymentCallFails: the two `TypeError` messages are the text CPython prints after the called function's name; that name (`Deployment.__init__()`, or the class for the keyword merge) is left out.
- Values.ExtraKeyMatchesSecret: holds only when `{{ .Release.Name }}-` starts the variable's name or is absent from it; where it sits further in, the values writer strips it with a plain `replace` and the Secret writer does not, so the two keys differ (`Values.ExtraKeyMismatch`).
- Text.Upper, Text.Lower, Text.Capitalize: ASCII case mapping only. Python's `str.upper`, `str.lower` and `str.capitalize` also map non-ASCII letters (`é` to `É`) and some change the length (`ß` upper-cases to `SS`); the model leaves non-ASCII characters unchanged, so the third-party environment variable names, the camelCase `values.yaml` keys and the capitalised comments are exact only for ASCII names.
