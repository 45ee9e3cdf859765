/**
 * `create-helm-chart.py`: builds the chart's templates from the parsed `input.json`,
 * writes the chart, then packages it and pushes it to a registry.
 */
module Script {
  import opened Wrappers
  import opened Text
  import opened Files
  import opened Templates
  import opened Chart
  import opened Resources
  import Values
  import IngressTemplate
  import DatabaseTemplate
  import VaultTemplate
  import NoSQLTemplate
  import RedisTemplate
  import OAuthTemplate
  import ThirdPartyTemplate
  import DeploymentTemplate

  type ExtraValue = DeploymentTemplate.ExtraValue
  type Deployment = DeploymentTemplate.Deployment

  // ---------------------------------------------------------------------------
  // The parsed input. A section that is `None` is missing, or `false` where the
  // script tests `data[key] != False`.
  // ---------------------------------------------------------------------------

  datatype ChartInput = ChartInput(apiVersion: string, appVersion: string, description: string, homepage: string,
                                   maintainers: seq<Maintainer>, name: string, sources: seq<string>, version: string)

  datatype DbInput = DbInput(name: string, host: string, user: string, password: string)

  datatype VaultInput = VaultInput(imageRepository: string, imageTag: string, hostname: string, storageClass: string)

  datatype NoSQLInput = NoSQLInput(dbName: string, user: string, password: string,
                                   tables: seq<(string, NoSQLTemplate.Table)>)

  datatype StripeInput = StripeInput(publicKey: string, secretKey: string, testPublicKey: string, testSecretKey: string)

  /** `thirdPartyServices`: the `openai` API key and the `stripe` keys, each when present. */
  datatype ThirdPartyInput = ThirdPartyInput(openai: Option<string>, stripe: Option<StripeInput>)

  datatype Input = Input(chart: ChartInput, imageRepository: string, imagePullPolicy: string, hostname: string,
                         db: Option<DbInput>, vault: Option<VaultInput>, nosql: Option<NoSQLInput>,
                         cachePassword: Option<string>, oauth: Option<OAuthTemplate.OAuth>,
                         thirdParty: Option<ThirdPartyInput>, extraEnvVars: Option<seq<(string, ExtraValue)>>,
                         registry: Option<string>)

  /**
   * What `MongoDB(db_name, user, password, tables)` leaves in the parts this model reads;
   * the class is not part of this model, so its storage type, `create` flag, replica count
   * and TLS setting are parameters.
   */
  datatype MongoDefaults = MongoDefaults(storageType: string, create: bool, replicaCount: int, tlsEnabled: bool)

  function MongoDB(m: MongoDefaults, n: NoSQLInput): (r: NoSQLTemplate.NoSQL)
    ensures r.flavour.Mongo? && r.flavour.user == n.user && r.flavour.password == n.password
    ensures r.dbName == n.dbName && r.tables == n.tables
  {
    NoSQLTemplate.NoSQL(m.storageType, n.dbName, n.tables, m.create,
                        NoSQLTemplate.Mongo(m.replicaCount, m.tlsEnabled, n.user, n.password))
  }

  // ---------------------------------------------------------------------------
  // The templates, in the order the script appends them
  // ---------------------------------------------------------------------------

  function VaultOf(v: VaultInput): VaultTemplate.HashicorpVault
  {
    VaultTemplate.HashicorpVault(image := Some(map["repository" := v.imageRepository, "tag" := v.imageTag]),
                                 hostname := Some(v.hostname), storageClass := Some(v.storageClass))
  }

  function OpenAI(apiKey: string): ThirdPartyTemplate.ThirdPartyService
  {
    ThirdPartyTemplate.ThirdPartyService("openai", false, [("api_key", apiKey)])
  }

  function Stripe(s: StripeInput): ThirdPartyTemplate.ThirdPartyService
  {
    ThirdPartyTemplate.ThirdPartyService("stripe", true, [("public_key", s.publicKey), ("secret_key", s.secretKey),
                                                          ("test_public_key", s.testPublicKey),
                                                          ("test_secret_key", s.testSecretKey)])
  }

  /** `[ingress, service]`, the templates every chart starts with. */
  function BaseTemplates(input: Input): seq<Template>
  {
    [IngressT(IngressTemplate.Ingress(input.hostname)), ServiceT]
  }

  function DatabaseOf(input: Input): seq<Template>
  {
    match input.db
    case None => []
    case Some(d) => [DatabaseT(DatabaseTemplate.Database(d.name, d.host, d.user, d.password))]
  }

  function VaultTemplates(input: Input): seq<Template>
  {
    match input.vault
    case None => []
    case Some(v) => [HashicorpVaultT(VaultOf(v))]
  }

  function NoSQLOf(input: Input, m: MongoDefaults): Option<NoSQLTemplate.NoSQL>
  {
    match input.nosql
    case None => None
    case Some(n) => Some(MongoDB(m, n))
  }

  function NoSQLTemplates(input: Input, m: MongoDefaults): seq<Template>
  {
    match input.nosql
    case None => []
    case Some(n) => [NoSQLT(MongoDB(m, n))]
  }

  function CacheOf(input: Input): seq<Template>
  {
    match input.cachePassword
    case None => []
    case Some(password) => [RedisT(RedisTemplate.Redis(password))]
  }

  function OAuthOf(input: Input): seq<Template>
  {
    match input.oauth
    case None => []
    case Some(o) => [OAuthT(o)]
  }

  /** The database, vault, NoSQL, cache and OAuth templates, in that order, each when its section is given. */
  function OptionalTemplates(input: Input, m: MongoDefaults): seq<Template>
  {
    DatabaseOf(input) + VaultTemplates(input) + NoSQLTemplates(input, m) + CacheOf(input) + OAuthOf(input)
  }

  /** The third-party services: `openai` (disabled) first, then `stripe` (enabled). */
  function Services(input: Input): seq<ThirdPartyTemplate.ThirdPartyService>
  {
    match input.thirdParty
    case None => []
    case Some(t) =>
      (match t.openai case None => [] case Some(key) => [OpenAI(key)])
      + (match t.stripe case None => [] case Some(s) => [Stripe(s)])
  }

  function ServiceTemplates(ss: seq<ThirdPartyTemplate.ThirdPartyService>): (ts: seq<Template>)
    ensures |ts| == |ss| && forall i :: 0 <= i < |ss| ==> ts[i] == ThirdPartyT(ss[i])
  {
    seq(|ss|, i requires 0 <= i < |ss| => ThirdPartyT(ss[i]))
  }

  // ---------------------------------------------------------------------------
  // Quotes in string extra variables
  // ---------------------------------------------------------------------------

  const NoFind: string := "'bool' object has no attribute 'find'"

  /** One value of `extraEnvVars` after the quote pass: `value.find` fails on a boolean. */
  function RequoteValue(v: ExtraValue): Result<ExtraValue>
  {
    match v
    case Plain(text) => Success(if '\'' in text then DeploymentTemplate.Plain(ReplaceChar(text, '\'', '"')) else v)
    case Flag(_) => Failure(AttributeError(NoFind))
    case Bound(_, _, _, _, _) => Success(v)
  }

  /** `extraEnvVars` after the quote pass, failing at the first value that has no `find`. */
  function Requoted(xs: seq<(string, ExtraValue)>): Result<seq<(string, ExtraValue)>>
  {
    if xs == [] then Success([])
    else
      var n := |xs| - 1;
      match Requoted(xs[..n])
      case Failure(e) => Failure(e)
      case Success(ys) =>
        match RequoteValue(xs[n].1)
        case Failure(e) => Failure(e)
        case Success(v) => Success(ys + [(xs[n].0, v)])
  }

  /** Replacing `'` only where `find` sees one is replacing it everywhere. */
  lemma RequoteValueReplaces(text: string)
    ensures RequoteValue(DeploymentTemplate.Plain(text)) == Success(DeploymentTemplate.Plain(ReplaceChar(text, '\'', '"')))
    ensures '\'' !in ReplaceChar(text, '\'', '"')
  {
    if '\'' !in text {
      assert ReplaceChar(text, '\'', '"') == text;
    }
  }

  /**
   * The quote pass fails exactly when some value is a boolean; otherwise it keeps every
   * key, position and dictionary, and replaces every `'` of a string by `"`.
   */
  lemma {:induction false} RequotedSpec(xs: seq<(string, ExtraValue)>)
    ensures Requoted(xs).Success? <==> forall i :: 0 <= i < |xs| ==> !xs[i].1.Flag?
    ensures Requoted(xs).Failure? ==> Requoted(xs).error == AttributeError(NoFind)
    ensures Requoted(xs).Success? ==>
              |Requoted(xs).value| == |xs|
              && forall i :: 0 <= i < |xs| ==>
                   Requoted(xs).value[i].0 == xs[i].0
                   && (xs[i].1.Bound? ==> Requoted(xs).value[i].1 == xs[i].1)
                   && (xs[i].1.Plain? ==> Requoted(xs).value[i].1 == DeploymentTemplate.Plain(ReplaceChar(xs[i].1.text, '\'', '"')))
  {
    if xs != [] {
      var n := |xs| - 1;
      RequotedSpec(xs[..n]);
      assert forall i :: 0 <= i < n ==> xs[..n][i] == xs[i];
      if xs[n].1.Plain? {
        RequoteValueReplaces(xs[n].1.text);
      }
    }
  }

  /** Once a prefix fails, the whole pass fails with the same error. */
  lemma {:induction false} RequotedPrefixFails(xs: seq<(string, ExtraValue)>, k: int)
    requires 0 <= k <= |xs| && Requoted(xs[..k]).Failure?
    ensures Requoted(xs) == Requoted(xs[..k])
  {
    if k < |xs| {
      var n := |xs| - 1;
      assert xs[..n][..k] == xs[..k];
      RequotedPrefixFails(xs[..n], k);
    } else {
      assert xs[..k] == xs;
    }
  }

  /** The loop at the end of the input handling: each string value with a `'` is replaced in place. */
  method RequoteExtraVars(xs: seq<(string, ExtraValue)>) returns (r: Result<seq<(string, ExtraValue)>>)
    ensures r == Requoted(xs)
  {
    var vars := xs;
    for i := 0 to |xs|
      invariant |vars| == |xs| && vars[i..] == xs[i..]
      invariant Requoted(xs[..i]) == Success(vars[..i])
    {
      assert xs[..i + 1][..i] == xs[..i] && xs[i] == vars[i];
      var (key, value) := vars[i];
      if value.Flag? {
        RequotedPrefixFails(xs, i + 1);
        return Failure(AttributeError(NoFind));
      }
      if value.Plain? && '\'' in value.text {
        vars := vars[i := (key, DeploymentTemplate.Plain(ReplaceChar(value.text, '\'', '"')))];
      }
      assert vars[..i + 1] == vars[..i] + [vars[i]];
    }
    assert xs[..|xs|] == xs && vars[..|xs|] == vars;
    return Success(vars);
  }

  // ---------------------------------------------------------------------------
  // The `Deployment(...)` call
  // ---------------------------------------------------------------------------

  /** The keywords the script passes by name, besides the extra variables. */
  const PassedKeywords: set<string> :=
    {"image_pull_policy", "uses_db", "uses_secrets_vault", "nosql", "uses_cache", "third_party_services"}

  /** The parameters that `Deployment.__init__` receives by position: the instance and `image_repository`. */
  const PositionalParameters: set<string> := {"self", "image_repository"}

  /** The other parameters `Deployment` declares, which an extra variable of that name would bind. */
  const OtherParameters: set<string> := {"image_tag", "replica_count", "port", "env", "uses_oauth"}

  /** Merging `**extra_env_vars` into the keywords already given: the key appears twice. */
  function MultipleKeywordValues(key: string): string { "got multiple values for keyword argument '" + key + "'" }

  /** Binding a keyword to a parameter already filled by position. */
  function MultipleValues(key: string): string { "got multiple values for argument '" + key + "'" }

  /** The first extra variable whose name is one of `names`. */
  function FirstNamed(xs: seq<(string, ExtraValue)>, names: set<string>): (r: Option<string>)
    ensures r.Some? ==> r.value in names && (exists i :: 0 <= i < |xs| && xs[i].0 == r.value
                                                         && forall j :: 0 <= j < i ==> xs[j].0 !in names)
    ensures r.None? ==> forall i :: 0 <= i < |xs| ==> xs[i].0 !in names
  {
    if xs == [] then None
    else if xs[0].0 in names then Some(xs[0].0)
    else
      var r := FirstNamed(xs[1..], names);
      assert forall i :: 1 <= i < |xs| ==> xs[1..][i - 1] == xs[i];
      r
  }

  /**
   * The remaining extra variables bound into the call: `image_tag` and `env` take a string
   * value; every other name goes to `extra_env_vars`, in order.
   */
  function Bind(d: Deployment, xs: seq<(string, ExtraValue)>): Result<Deployment>
    decreases |xs|
  {
    if xs == [] then Success(d)
    else
      var (key, value) := xs[0];
      if key == "image_tag" && value.Plain? then Bind(d.(imageTag := value.text), xs[1..])
      else if key == "env" && value.Plain? then Bind(d.(env := value.text), xs[1..])
      else if key in OtherParameters then Failure(UnsupportedKeyword(key))
      else Bind(d.(extraEnvVars := d.extraEnvVars + [xs[0]]), xs[1..])
  }

  /** The extra variables that stay extra variables. */
  function Extras(xs: seq<(string, ExtraValue)>): seq<(string, ExtraValue)>
  {
    if xs == [] then [] else (if xs[0].0 in OtherParameters then [] else [xs[0]]) + Extras(xs[1..])
  }

  /**
   * `Deployment(image_repository, image_pull_policy=…, uses_db=…, uses_secrets_vault=…,
   * nosql=…, uses_cache=…, third_party_services=…, **extra_env_vars)`.
   */
  function DeploymentCall(input: Input, m: MongoDefaults, xs: seq<(string, ExtraValue)>): Result<Deployment>
  {
    match FirstNamed(xs, PassedKeywords)
    case Some(key) => Failure(TypeError(MultipleKeywordValues(key)))
    case None =>
    match FirstNamed(xs, PositionalParameters)
    case Some(key) => Failure(TypeError(MultipleValues(key)))
    case None =>
      Bind(CallBase(input, m), xs)
  }

  /** An extra variable that binds a declared parameter this model does not give a value to. */
  predicate Unsupported(x: (string, ExtraValue))
  {
    x.0 in OtherParameters && !((x.0 == "image_tag" || x.0 == "env") && x.1.Plain?)
  }

  /** Binding fails exactly at an extra variable of a declared parameter it cannot bind. */
  lemma {:induction false} BindFails(d: Deployment, xs: seq<(string, ExtraValue)>)
    decreases |xs|
    ensures Bind(d, xs).Failure? <==> exists i :: 0 <= i < |xs| && Unsupported(xs[i])
    ensures Bind(d, xs).Failure? ==> Bind(d, xs).error.UnsupportedKeyword?
  {
    if xs != [] {
      var (key, value) := xs[0];
      assert forall i :: 1 <= i < |xs| ==> xs[1..][i - 1] == xs[i];
      assert forall i :: 0 <= i < |xs| - 1 ==> xs[1..][i] == xs[i + 1];
      if key == "image_tag" && value.Plain? {
        BindFails(d.(imageTag := value.text), xs[1..]);
      } else if key == "env" && value.Plain? {
        BindFails(d.(env := value.text), xs[1..]);
      } else if key !in OtherParameters {
        BindFails(d.(extraEnvVars := d.extraEnvVars + [xs[0]]), xs[1..]);
      }
    }
  }

  /** `b` agrees with `d` on everything binding an extra variable leaves alone. */
  predicate Keeps(b: Deployment, d: Deployment)
  {
    b.imageRepository == d.imageRepository && b.imagePullPolicy == d.imagePullPolicy
    && b.replicaCount == d.replicaCount && b.port == d.port && b.usesOAuth == d.usesOAuth
    && b.usesDb == d.usesDb && b.nosql == d.nosql && b.usesCache == d.usesCache
    && b.thirdPartyServices == d.thirdPartyServices
  }

  /** Binding changes only the image tag, the environment and the extra variables. */
  lemma {:induction false} BindKeeps(d: Deployment, xs: seq<(string, ExtraValue)>)
    decreases |xs|
    ensures Bind(d, xs).Success? ==> Keeps(Bind(d, xs).value, d)
  {
    if xs != [] {
      var (key, value) := xs[0];
      var d' := if key == "image_tag" && value.Plain? then d.(imageTag := value.text)
                else if key == "env" && value.Plain? then d.(env := value.text)
                else d.(extraEnvVars := d.extraEnvVars + [xs[0]]);
      assert Keeps(d', d);
      if key in OtherParameters && !((key == "image_tag" || key == "env") && value.Plain?) {
        assert Bind(d, xs).Failure?;
      } else {
        assert Bind(d, xs) == Bind(d', xs[1..]);
        BindKeeps(d', xs[1..]);
      }
    }
  }

  /** Binding appends the extra variables that name no declared parameter, in order. */
  lemma {:induction false} BindExtends(d: Deployment, xs: seq<(string, ExtraValue)>)
    decreases |xs|
    ensures Bind(d, xs).Success? ==> Bind(d, xs).value.extraEnvVars == d.extraEnvVars + Extras(xs)
  {
    if xs != [] {
      var (key, value) := xs[0];
      if key == "image_tag" && value.Plain? {
        BindExtends(d.(imageTag := value.text), xs[1..]);
      } else if key == "env" && value.Plain? {
        BindExtends(d.(env := value.text), xs[1..]);
      } else if key !in OtherParameters {
        var d' := d.(extraEnvVars := d.extraEnvVars + [xs[0]]);
        BindExtends(d', xs[1..]);
        assert d'.extraEnvVars + Extras(xs[1..]) == d.extraEnvVars + Extras(xs);
      }
    }
  }

  /**
   * The call raises `TypeError` when an extra variable repeats a keyword the script passes
   * (found while merging `**extra_env_vars` into the keywords, so before any binding), or names
   * `self` or `image_repository`, which are already given by position; otherwise it fails
   * exactly when an extra variable binds a parameter this model does not give a value to.
   */
  lemma DeploymentCallFails(input: Input, m: MongoDefaults, xs: seq<(string, ExtraValue)>)
    ensures (exists i :: 0 <= i < |xs| && xs[i].0 in PassedKeywords) ==>
              DeploymentCall(input, m, xs).Failure?
              && exists i :: 0 <= i < |xs| && xs[i].0 in PassedKeywords
                             && DeploymentCall(input, m, xs).error == TypeError(MultipleKeywordValues(xs[i].0))
    ensures (forall i :: 0 <= i < |xs| ==> xs[i].0 !in PassedKeywords) &&
            (exists i :: 0 <= i < |xs| && xs[i].0 in PositionalParameters) ==>
              DeploymentCall(input, m, xs).Failure?
              && exists i :: 0 <= i < |xs| && xs[i].0 in PositionalParameters
                             && DeploymentCall(input, m, xs).error == TypeError(MultipleValues(xs[i].0))
    ensures (forall i :: 0 <= i < |xs| ==> xs[i].0 !in PassedKeywords && xs[i].0 !in PositionalParameters) ==>
              (DeploymentCall(input, m, xs).Failure? <==> exists i :: 0 <= i < |xs| && Unsupported(xs[i]))
  {
    BindFails(CallBase(input, m), xs);
  }

  /** The deployment the call starts binding from. */
  function CallBase(input: Input, m: MongoDefaults): Deployment
  {
    DeploymentTemplate.Deployment(input.imageRepository, imagePullPolicy := input.imagePullPolicy,
                                  usesDb := input.db.Some?, nosql := NoSQLOf(input, m),
                                  usesCache := input.cachePassword.Some?, thirdPartyServices := Services(input),
                                  extraEnvVars := [("uses_secrets_vault", DeploymentTemplate.Flag(input.vault.Some?))])
  }

  /**
   * When the call succeeds, `uses_secrets_vault`, which `Deployment` does not declare, is the
   * first extra variable, followed by the input's own, and the flags reflect the sections given.
   */
  lemma DeploymentCallSpec(input: Input, m: MongoDefaults, xs: seq<(string, ExtraValue)>)
    ensures DeploymentCall(input, m, xs).Success? ==>
              var d := DeploymentCall(input, m, xs).value;
              d.imageRepository == input.imageRepository && d.imagePullPolicy == input.imagePullPolicy
              && d.extraEnvVars == [("uses_secrets_vault", DeploymentTemplate.Flag(input.vault.Some?))] + Extras(xs)
              && (d.usesDb <==> input.db.Some?) && (d.nosql.Some? <==> input.nosql.Some?)
              && (d.usesCache <==> input.cachePassword.Some?) && d.thirdPartyServices == Services(input)
              && d.usesOAuth && d.port == 8080 && d.replicaCount == 1
  {
    var d := CallBase(input, m);
    BindKeeps(d, xs);
    BindExtends(d, xs);
  }

  // ---------------------------------------------------------------------------
  // The whole template list
  // ---------------------------------------------------------------------------

  /** The extra variables the input gives, before the quote pass; none when the section is missing. */
  function InputExtras(input: Input): seq<(string, ExtraValue)>
  {
    match input.extraEnvVars
    case None => []
    case Some(xs) => xs
  }

  /** The template list, or the error raised while building it. */
  function Assembled(input: Input, m: MongoDefaults): Result<seq<Template>>
  {
    match Requoted(InputExtras(input))
    case Failure(e) => Failure(e)
    case Success(xs) =>
      match DeploymentCall(input, m, xs)
      case Failure(e) => Failure(e)
      case Success(d) =>
        Success(BaseTemplates(input) + OptionalTemplates(input, m) + ServiceTemplates(Services(input)) + [DeploymentT(d)])
  }

  /** The database, vault, NoSQL, cache and OAuth sections, each appended when given. */
  method AppendOptionals(input: Input, m: MongoDefaults) returns (added: seq<Template>)
    ensures added == OptionalTemplates(input, m)
  {
    added := [];
    if input.db.Some? {
      var d := input.db.value;
      added := added + [DatabaseT(DatabaseTemplate.Database(d.name, d.host, d.user, d.password))];
    }
    assert added == DatabaseOf(input);
    if input.vault.Some? {
      added := added + [HashicorpVaultT(VaultOf(input.vault.value))];
    }
    assert added == DatabaseOf(input) + VaultTemplates(input);
    if input.nosql.Some? {
      added := added + [NoSQLT(MongoDB(m, input.nosql.value))];
    }
    assert added == DatabaseOf(input) + VaultTemplates(input) + NoSQLTemplates(input, m);
    if input.cachePassword.Some? {
      added := added + [RedisT(RedisTemplate.Redis(input.cachePassword.value))];
    }
    assert added == DatabaseOf(input) + VaultTemplates(input) + NoSQLTemplates(input, m) + CacheOf(input);
    if input.oauth.Some? {
      added := added + [OAuthT(input.oauth.value)];
    }
  }

  /** The `thirdPartyServices` section: `openai`, then `stripe`, each appended when given. */
  method CollectServices(input: Input) returns (services: seq<ThirdPartyTemplate.ThirdPartyService>)
    ensures services == Services(input)
  {
    services := [];
    if input.thirdParty.Some? {
      var t := input.thirdParty.value;
      if t.openai.Some? {
        services := services + [OpenAI(t.openai.value)];
      }
      if t.stripe.Some? {
        services := services + [Stripe(t.stripe.value)];
      }
    }
  }

  /**
   * Building the list: `[ingress, service]`, the optional templates, the third-party
   * services, the quote pass over the extra variables, then the Deployment.
   */
  method AssembleTemplates(input: Input, m: MongoDefaults) returns (r: Result<seq<Template>>)
    ensures r == Assembled(input, m)
  {
    var templates := [IngressT(IngressTemplate.Ingress(input.hostname)), ServiceT];
    var optional := AppendOptionals(input, m);
    templates := templates + optional;
    var services := CollectServices(input);
    templates := templates + ServiceTemplates(services);
    var extras: seq<(string, ExtraValue)> := [];
    if input.extraEnvVars.Some? {
      var requoted := RequoteExtraVars(input.extraEnvVars.value);
      if requoted.Failure? {
        return Failure(requoted.error);
      }
      extras := requoted.value;
    }
    var deployment := DeploymentCall(input, m, extras);
    if deployment.Failure? {
      return Failure(deployment.error);
    }
    templates := templates + [DeploymentT(deployment.value)];
    return Success(templates);
  }

  // ---------------------------------------------------------------------------
  // Which classes the list holds
  // ---------------------------------------------------------------------------

  lemma AnyAppend(a: seq<Template>, b: seq<Template>, c: Class)
    ensures Any(a + b, c) <==> Any(a, c) || Any(b, c)
  {
    if Any(a + b, c) {
      var k :| 0 <= k < |a + b| && IsInstance((a + b)[k], c);
      if k < |a| {
        assert a[k] == (a + b)[k];
      } else {
        assert b[k - |a|] == (a + b)[k];
      }
    }
    if Any(a, c) {
      var k :| 0 <= k < |a| && IsInstance(a[k], c);
      assert (a + b)[k] == a[k];
    }
    if Any(b, c) {
      var k :| 0 <= k < |b| && IsInstance(b[k], c);
      assert (a + b)[|a| + k] == b[k];
    }
  }

  lemma AnyOne(t: Template, c: Class)
    ensures Any([t], c) <==> IsInstance(t, c)
  {
    assert [t][0] == t;
  }

  /** Whether the input asks for a template of class `c`; the Ingress and the Deployment are always there. */
  predicate Configured(input: Input, c: Class)
  {
    match c
    case IngressClass => true
    case DeploymentClass => true
    case DatabaseClass => input.db.Some?
    case NoSQLClass => input.nosql.Some?
    case RedisClass => input.cachePassword.Some?
    case OAuthClass => input.oauth.Some?
    case ThirdPartyClass => Services(input) != []
  }

  /** Each optional template comes from its own section, and none is an Ingress, a service or a Deployment. */
  lemma OptionalKinds(input: Input, m: MongoDefaults, c: Class)
    ensures Any(OptionalTemplates(input, m), c) <==> Configured(input, c) && c !in {IngressClass, DeploymentClass, ThirdPartyClass}
  {
    var db, vault, nosql, cache, oauth := DatabaseOf(input), VaultTemplates(input), NoSQLTemplates(input, m), CacheOf(input), OAuthOf(input);
    AnyAppend(db + vault + nosql + cache, oauth, c);
    AnyAppend(db + vault + nosql, cache, c);
    AnyAppend(db + vault, nosql, c);
    AnyAppend(db, vault, c);
    if input.db.Some? { AnyOne(db[0], c); }
    if input.vault.Some? { AnyOne(vault[0], c); }
    if input.nosql.Some? { AnyOne(nosql[0], c); }
    if input.cachePassword.Some? { AnyOne(cache[0], c); }
    if input.oauth.Some? { AnyOne(oauth[0], c); }
  }

  lemma ServiceKinds(ss: seq<ThirdPartyTemplate.ThirdPartyService>, c: Class)
    ensures Any(ServiceTemplates(ss), c) <==> c == ThirdPartyClass && ss != []
  {
    var ts := ServiceTemplates(ss);
    if ss != [] {
      assert IsInstance(ts[0], ThirdPartyClass);
    }
  }

  /**
   * The list starts with the Ingress and the Service and ends with the Deployment, the only
   * one; it holds a template of each class exactly when the input asks for one.
   */
  lemma AssembledShape(input: Input, m: MongoDefaults, c: Class)
    requires Assembled(input, m).Success?
    ensures var ts := Assembled(input, m).value;
            |ts| >= 3 && ts[0] == IngressT(IngressTemplate.Ingress(input.hostname)) && ts[1] == ServiceT
            && ts[|ts| - 1].DeploymentT? && !Any(ts[..|ts| - 1], DeploymentClass)
            && (Any(ts, c) <==> Configured(input, c))
  {
    var ts := Assembled(input, m).value;
    var base, opt, svc := BaseTemplates(input), OptionalTemplates(input, m), ServiceTemplates(Services(input));
    var front := base + opt + svc;
    assert ts == front + [ts[|ts| - 1]];
    assert ts[..|ts| - 1] == front;
    AnyAppend(base + opt, svc, c);
    AnyAppend(base, opt, c);
    AnyAppend(front, [ts[|ts| - 1]], c);
    AnyOne(ts[|ts| - 1], c);
    AnyAppend(base + opt, svc, DeploymentClass);
    AnyAppend(base, opt, DeploymentClass);
    AnyAppend([base[0]], [base[1]], c);
    AnyAppend([base[0]], [base[1]], DeploymentClass);
    assert base == [base[0]] + [base[1]];
    AnyOne(base[0], c);
    AnyOne(base[1], c);
    AnyOne(base[0], DeploymentClass);
    AnyOne(base[1], DeploymentClass);
    OptionalKinds(input, m, c);
    OptionalKinds(input, m, DeploymentClass);
    ServiceKinds(Services(input), c);
    ServiceKinds(Services(input), DeploymentClass);
  }

  /**
   * The chart the script builds always has its Ingress and its Deployment, so writing
   * `values.yaml` never raises `StopIteration`; it raises `TypeError` exactly when a
   * third-party service is configured.
   */
  lemma ScriptValuesOutcome(input: Input, m: MongoDefaults, ts: seq<Template>)
    requires Assembled(input, m) == Success(ts)
    ensures Values.ValuesRun(ts).outcome == if Services(input) != [] then Fail(TypeError(Values.WriteNoneMessage)) else Pass
  {
    AssembledPresence(input, m, ts);
    ValuesOutcomeOf(ts);
  }

  lemma AssembledPresence(input: Input, m: MongoDefaults, ts: seq<Template>)
    requires Assembled(input, m) == Success(ts)
    ensures Any(ts, IngressClass) && Any(ts, DeploymentClass) && (Any(ts, ThirdPartyClass) <==> Services(input) != [])
  {
    AssembledShape(input, m, IngressClass);
    AssembledShape(input, m, DeploymentClass);
    AssembledShape(input, m, ThirdPartyClass);
  }

  lemma ValuesOutcomeOf(ts: seq<Template>)
    requires Any(ts, IngressClass) && Any(ts, DeploymentClass)
    ensures Values.ValuesRun(ts).outcome == if Any(ts, ThirdPartyClass) then Fail(TypeError(Values.WriteNoneMessage)) else Pass
  {
    Values.ValuesOutcome(ts);
  }

  // ---------------------------------------------------------------------------
  // Packaging and pushing, with their failures printed
  // ---------------------------------------------------------------------------

  const PackagingFailedMessage: string := "Packaging the Helm chart failed. Please check the error message below:"
  const PushFailedMessage: string := "Push to the registry failed. Please check the error message below:"

  /** What the commands the script runs and the lines it prints. */
  datatype Report = Report(commands: seq<seq<string>>, printed: seq<string>)

  /** `str(e)` of a plain `Exception`. */
  function Message(e: Error): string
  {
    match e
    case Exception(msg) => msg
    case _ => ""
  }

  /**
   * The `try` at the end of the script: `package()`, then `push(registry)` when a registry
   * is given; each failure is printed with its message and not raised.
   */
  function Publish(c: HelmChart, registry: Option<string>, exitCode: int, tarballExists: bool): (r: Report)
    ensures 1 <= |r.commands| <= 2 && r.commands[0] == PackageCommand
  {
    match Package(exitCode)
    case Fail(e) => Report([PackageCommand], [PackagingFailedMessage, Message(e)])
    case Pass =>
      match registry
      case None => Report([PackageCommand], [])
      case Some(reg) =>
        match c.Push(reg, tarballExists)
        case Failure(e) => Report([PackageCommand], [PushFailedMessage, Message(e)])
        case Success(command) => Report([PackageCommand, command], ["Pushing " + c.Tarball() + " to " + reg])
  }

  /**
   * `helm push` runs exactly when packaging succeeded, a registry is given and the tarball
   * exists; a packaging failure is reported and stops the push, and a push failure is
   * reported on its own.
   */
  lemma PublishSpec(c: HelmChart, registry: Option<string>, exitCode: int, tarballExists: bool)
    ensures var r := Publish(c, registry, exitCode, tarballExists);
            (|r.commands| == 2 <==> exitCode == 0 && registry.Some? && tarballExists)
            && (|r.commands| == 2 ==> r.commands[1] == ["helm", "push", c.Tarball(), "oci://" + registry.value])
            && (exitCode != 0 ==> r.printed == [PackagingFailedMessage, PackageFailed])
            && (exitCode == 0 && registry.Some? && !tarballExists ==> r.printed == [PushFailedMessage, NotPackaged])
            && (exitCode == 0 && registry.None? ==> r.printed == [])
  {
  }

  // ---------------------------------------------------------------------------
  // The script end to end
  // ---------------------------------------------------------------------------

  /** What the script cannot see but depends on: the file system's answers and the `helm` exit code. */
  datatype Environment = Environment(templatesExists: bool, probes: Probes, packageExitCode: int, tarballExists: bool)

  /** How the script ends: with an uncaught error, or having run and printed what `report` says. */
  datatype Ending = Raised(error: Error) | Finished(report: Report)

  function ChartOf(input: Input, ts: seq<Template>): HelmChart
  {
    var c := input.chart;
    HelmChart(c.name, c.description, c.maintainers, c.homepage, c.sources, c.appVersion, c.version, c.apiVersion, ts)
  }

  /**
   * The store after `Chart.yaml`, `values.yaml` and, unless writing `values.yaml` raised,
   * `.helmignore`, given the text of each and the run that wrote `values.yaml`.
   */
  function ChartFiles(s: Written, chartYaml: seq<string>, run: Values.Run, ignore: seq<string>): Written
  {
    var files := s.files[ChartPath := chartYaml][ValuesPath := run.written];
    if run.outcome.Pass? then Written(files[IgnorePath := ignore], s.order + [ChartPath, ValuesPath, IgnorePath])
    else Written(files, s.order + [ChartPath, ValuesPath])
  }

  /** The store after the whole chart is written into `s`, the `templates/` folder being new. */
  function ChartStore(s: Written, chart: HelmChart, mongo: MongoWriter, probes: Probes): Written
  {
    ChartFiles(MergeAll(s, Owns(chart.templates, mongo)), chart.ChartYaml(), Values.ValuesRun(chart.templates), Helmignore(probes))
  }

  /**
   * After the templates of `ts` and the three chart files are written, `templates/` holds a
   * file exactly when it held it before or some template writes it; the three chart files
   * hold their text, and every other file keeps its content.
   */
  lemma ChartStoreFiles(s: Written, ts: seq<Template>, mongo: MongoWriter,
                        chartYaml: seq<string>, run: Values.Run, ignore: seq<string>, p: string)
    requires MongoWellFormed(mongo)
    ensures var r := ChartFiles(MergeAll(s, Owns(ts, mongo)), chartYaml, run, ignore);
            IsTemplateFile(p) ==>
              (p in r.files <==> p in s.files || exists i :: 0 <= i < |ts| && p in Own(ts[i], mongo).files)
    ensures var r := ChartFiles(MergeAll(s, Owns(ts, mongo)), chartYaml, run, ignore);
            !IsTemplateFile(p) && p != ChartPath && p != ValuesPath && p != IgnorePath ==>
              (p in r.files <==> p in s.files) && (p in s.files ==> r.files[p] == s.files[p])
    ensures var r := ChartFiles(MergeAll(s, Owns(ts, mongo)), chartYaml, run, ignore);
            ChartPath in r.files && r.files[ChartPath] == chartYaml && ValuesPath in r.files && r.files[ValuesPath] == run.written
            && (run.outcome.Pass? ==> IgnorePath in r.files && r.files[IgnorePath] == ignore)
            && (!run.outcome.Pass? ==> (IgnorePath in r.files <==> IgnorePath in s.files))
  {
    ChartFilesOutsideTemplates();
    var ws := Owns(ts, mongo);
    MergeAllFiles(s, ws, p);
    if IsTemplateFile(p) {
      assert forall i :: 0 <= i < |ts| ==> ws[i] == Own(ts[i], mongo);
    } else {
      TemplatesFolderOutside(s, ts, mongo, p);
    }
    TemplatesFolderOutside(s, ts, mongo, IgnorePath);
  }

  /**
   * A file under `templates/` holds what the last template that writes it wrote, and the
   * paths opened after the templates are the chart files, `.helmignore` only when
   * `values.yaml` was written whole.
   */
  lemma ChartStoreLastWriter(s: Written, ts: seq<Template>, mongo: MongoWriter,
                             chartYaml: seq<string>, run: Values.Run, ignore: seq<string>, p: string, i: int)
    requires 0 <= i < |ts| && p in Own(ts[i], mongo).files
    requires forall j :: i < j < |ts| ==> p !in Own(ts[j], mongo).files
    ensures var r := ChartFiles(MergeAll(s, Owns(ts, mongo)), chartYaml, run, ignore);
            p in r.files && (IsTemplateFile(p) ==> r.files[p] == Own(ts[i], mongo).files[p])
    ensures var t := MergeAll(s, Owns(ts, mongo)); var r := ChartFiles(t, chartYaml, run, ignore);
            r.order[..|t.order|] == t.order
            && r.order[|t.order|..] == if run.outcome.Pass? then [ChartPath, ValuesPath, IgnorePath] else [ChartPath, ValuesPath]
  {
    ChartFilesOutsideTemplates();
    MergeAllLastWriter(s, Owns(ts, mongo), p, i);
  }

  /**
   * The four writes in order: the templates folder, `Chart.yaml`, `values.yaml` and
   * `.helmignore`; the first that raises ends the run.
   */
  method WriteChart(fs: FileStore, chart: HelmChart, mongo: MongoWriter, env: Environment) returns (out: Outcome)
    modifies fs
    ensures out == if env.templatesExists then Fail(FileExists("templates")) else Values.ValuesRun(chart.templates).outcome
    ensures env.templatesExists ==> fs.files == old(fs.files) && fs.openOrder == old(fs.openOrder)
    ensures !env.templatesExists ==>
              Store(fs.files, fs.openOrder) == ChartStore(Store(old(fs.files), old(fs.openOrder)), chart, mongo, env.probes)
  {
    out := chart.CreateTemplatesFolder(fs, env.templatesExists, mongo);
    if out.Fail? {
      return;
    }
    out := WriteChartFiles(fs, chart, env.probes);
  }

  /** `Chart.yaml`, `values.yaml`, then `.helmignore` unless writing `values.yaml` raised. */
  method WriteChartFiles(fs: FileStore, chart: HelmChart, probes: Probes) returns (out: Outcome)
    modifies fs
    ensures out == Values.ValuesRun(chart.templates).outcome
    ensures Store(fs.files, fs.openOrder) == ChartFiles(Store(old(fs.files), old(fs.openOrder)), chart.ChartYaml(), Values.ValuesRun(chart.templates), Helmignore(probes))
  {
    ghost var yaml, run, ignore := chart.ChartYaml(), Values.ValuesRun(chart.templates), Helmignore(probes);
    ghost var files, order := fs.files[ChartPath := yaml][ValuesPath := run.written], fs.openOrder + [ChartPath, ValuesPath];
    chart.WriteYaml(fs);
    out := chart.WriteValuesYaml(fs);
    assert fs.files == files && fs.openOrder == order;
    if out.Fail? {
      return;
    }
    chart.WriteHelmignore(fs, probes);
    assert fs.files == files[IgnorePath := ignore] && fs.openOrder == order + [IgnorePath];
  }

  /**
   * The script: build the templates, write the chart, then package and push. An error
   * before the `try` ends the script; packaging and pushing never do.
   */
  method Generate(fs: FileStore, input: Input, m: MongoDefaults, mongo: MongoWriter, env: Environment)
    returns (ending: Ending)
    modifies fs
    ensures Assembled(input, m).Failure? ==>
              ending == Raised(Assembled(input, m).error) && fs.files == old(fs.files) && fs.openOrder == old(fs.openOrder)
    ensures Assembled(input, m).Success? ==>
              (ending.Raised? <==> env.templatesExists || Services(input) != [])
    ensures Assembled(input, m).Success? && env.templatesExists ==>
              ending == Raised(FileExists("templates")) && fs.files == old(fs.files) && fs.openOrder == old(fs.openOrder)
    ensures Assembled(input, m).Success? && !env.templatesExists ==>
              Store(fs.files, fs.openOrder)
              == ChartStore(Store(old(fs.files), old(fs.openOrder)), ChartOf(input, Assembled(input, m).value), mongo, env.probes)
    ensures Assembled(input, m).Success? && ending.Finished? ==>
              var c := ChartOf(input, Assembled(input, m).value);
              ending.report == Publish(c, input.registry, env.packageExitCode, env.tarballExists)
  {
    var assembled := AssembleTemplates(input, m);
    if assembled.Failure? {
      return Raised(assembled.error);
    }
    var ts := assembled.value;
    ScriptValuesOutcome(input, m, ts);
    var chart := ChartOf(input, ts);
    var out := WriteChart(fs, chart, mongo, env);
    if out.Fail? {
      return Raised(out.error);
    }
    return Finished(Publish(chart, input.registry, env.packageExitCode, env.tarballExists));
  }
}
