/**
 * The `values.yaml` document (`HelmChart.create_*_section_of_values_yaml`): one section
 * per kind of template, each a list of YAML lines. A builder grows a string with `+=`;
 * here that string is kept as the list of its pieces, one per line, and the text is
 * their concatenation. The long explanatory comments are replaced by a short summary
 * (`Comment`); every line that sets, disables or names a value is exact.
 */
module Values {
  import opened Wrappers
  import opened Text
  import opened Camel
  import opened Resources
  import opened Templates
  import DeploymentTemplate
  import IngressTemplate
  import OAuthTemplate
  import DatabaseTemplate
  import NoSQLTemplate
  import CacheTemplate
  import RedisTemplate
  import ThirdPartyTemplate

  /** The shapes of line the builders write. */
  datatype YamlLine =
    | Comment(indent: string, text: string)                 // <indent># <text>
    | Disabled(indent: string, key: string, value: string)  // <indent>#<key>: <value>
    | Setting(indent: string, key: string, value: string)   // <indent><key>: <value>
    | Key(indent: string, key: string)                      // <indent><key>:
    | Bare(indent: string, text: string)                    // <indent><text>
    | Blank(indent: string)                                 // <indent>

  /** The text of a line, newline included. */
  function Render(l: YamlLine): string
  {
    match l
    case Comment(indent, text) => Ln(indent + "# " + text)
    case Disabled(indent, key, value) => Ln(indent + "#" + key + ": " + value)
    case Setting(indent, key, value) => Ln(indent + key + ": " + value)
    case Key(indent, key) => Ln(indent + key + ":")
    case Bare(indent, text) => Ln(indent + text)
    case Blank(indent) => Ln(indent)
  }

  function RenderLines(ls: seq<YamlLine>): (r: seq<string>)
    ensures |r| == |ls| && forall i :: 0 <= i < |ls| ==> r[i] == Render(ls[i])
  {
    seq(|ls|, i requires 0 <= i < |ls| => Render(ls[i]))
  }

  lemma RenderLinesAppend(a: seq<YamlLine>, b: seq<YamlLine>)
    ensures RenderLines(a + b) == RenderLines(a) + RenderLines(b)
  {
  }

  /** `"<s>"`. */
  function Q(s: string): string { "\"" + s + "\"" }

  /** Some line sets `key` at this indentation (a line that is commented out does not). */
  predicate SetsKey(ls: seq<YamlLine>, indent: string, key: string)
  {
    exists k :: 0 <= k < |ls| && ls[k].Setting? && ls[k].indent == indent && ls[k].key == key
  }

  lemma SetsKeyAppend(a: seq<YamlLine>, b: seq<YamlLine>, indent: string, key: string)
    ensures SetsKey(a + b, indent, key) <==> SetsKey(a, indent, key) || SetsKey(b, indent, key)
  {
    if SetsKey(a + b, indent, key) {
      var k :| 0 <= k < |a + b| && (a + b)[k].Setting? && (a + b)[k].indent == indent && (a + b)[k].key == key;
      if k >= |a| {
        assert b[k - |a|] == (a + b)[k];
      }
    }
    if SetsKey(b, indent, key) {
      var k :| 0 <= k < |b| && b[k].Setting? && b[k].indent == indent && b[k].key == key;
      assert (a + b)[k + |a|] == b[k];
    }
    if SetsKey(a, indent, key) {
      var k :| 0 <= k < |a| && a[k].Setting? && a[k].indent == indent && a[k].key == key;
      assert (a + b)[k] == a[k];
    }
  }

  // ---------------------------------------------------------------------------
  // The sections read from the Deployment and the Ingress
  // ---------------------------------------------------------------------------

  type Deployment = DeploymentTemplate.Deployment

  /** `create_replicas_section_of_values_yaml`. */
  function ReplicasLines(d: Deployment): seq<YamlLine>
  {
    [Comment("", "number of replicas"), Setting("", "replicaCount", IntToString(d.replicaCount)), Blank("")]
  }

  /** `create_image_section_of_values_yaml`. */
  function ImageLines(d: Deployment): seq<YamlLine>
  {
    [ Key("", "image"),
      Comment(I1, "image repository"), Comment(I1, "repository format"),
      Setting(I1, "repository", Q(d.imageRepository)),
      Comment(I1, "image tag"), Comment(I1, "Ex. v1.0.0"),
      Setting(I1, "tag", Q(d.imageTag)),
      Comment(I1, "pull policy"), Comment(I1, "in production"), Comment(I1, "in development"),
      Setting(I1, "pullPolicy", Q(d.imagePullPolicy)),
      Blank("") ]
  }

  /** `create_container_section_of_values_yaml`. */
  function ContainerLines(d: Deployment): seq<YamlLine>
  {
    [ Key("", "container"),
      Comment(I1, "container port"),
      Setting(I1, "port", IntToString(d.port)),
      Blank(I1),
      Comment(I1, "environment"), Comment(I1, "NODE_ENV"),
      Setting(I1, "env", Q(d.env)),
      Blank("") ]
  }

  /** `create_ingress_section_of_values_yaml`. */
  function IngressLines(i: IngressTemplate.Ingress): seq<YamlLine>
  {
    [ Key("", "ingress"),
      Comment(I1, "ingress controller"), Comment(I1, "public clouds"),
      Setting(I1, "enabled", "true"),
      Comment(I1, "DNS name"),
      Setting(I1, "host", Q(i.hostname)),
      Comment(I1, "ingress class"),
      Setting(I1, "class", "nginx"),
      Blank("") ]
  }

  /** The text a builder returns: its lines, one after another. */
  function Yaml(ls: seq<YamlLine>): string
  {
    Concat(RenderLines(ls))
  }

  lemma {:induction false} YamlAppend(a: seq<YamlLine>, b: seq<YamlLine>)
    ensures Yaml(a + b) == Yaml(a) + Yaml(b)
  {
    RenderLinesAppend(a, b);
    ConcatAppend(RenderLines(a), RenderLines(b));
  }

  lemma InAppend3<T>(x: T, a: seq<T>, b: seq<T>, c: seq<T>)
    requires x in a || x in b || x in c
    ensures x in a + b + c
  {
  }

  lemma InAppend4<T>(x: T, a: seq<T>, b: seq<T>, c: seq<T>, d: seq<T>)
    requires x in a || x in b || x in c || x in d
    ensures x in a + b + c + d
  {
  }

  lemma SetsKeyAppend3(a: seq<YamlLine>, b: seq<YamlLine>, c: seq<YamlLine>, indent: string, key: string)
    ensures SetsKey(a + b + c, indent, key) <==> SetsKey(a, indent, key) || SetsKey(b, indent, key) || SetsKey(c, indent, key)
  {
    SetsKeyAppend(a, b, indent, key);
    SetsKeyAppend(a + b, c, indent, key);
  }

  lemma SetsKeyAppend4(a: seq<YamlLine>, b: seq<YamlLine>, c: seq<YamlLine>, d: seq<YamlLine>, indent: string, key: string)
    ensures SetsKey(a + b + c + d, indent, key) <==>
              SetsKey(a, indent, key) || SetsKey(b, indent, key) || SetsKey(c, indent, key) || SetsKey(d, indent, key)
  {
    SetsKeyAppend3(a, b, c, indent, key);
    SetsKeyAppend(a + b + c, d, indent, key);
  }

  /**
   * The Deployment's sections set the values its documents read: `replicaCount`,
   * `image.repository`, `image.tag`, `image.pullPolicy`, `container.port` (also the
   * Service's `targetPort`) and `container.env`.
   */
  lemma DeploymentSettings(d: Deployment)
    ensures ReplicasLines(d)[1] == Setting("", "replicaCount", IntToString(d.replicaCount))
    ensures ImageLines(d)[0] == Key("", "image")
    ensures ImageLines(d)[3] == Setting(I1, "repository", Q(d.imageRepository))
    ensures ImageLines(d)[6] == Setting(I1, "tag", Q(d.imageTag))
    ensures ImageLines(d)[10] == Setting(I1, "pullPolicy", Q(d.imagePullPolicy))
    ensures ContainerLines(d)[0] == Key("", "container")
    ensures ContainerLines(d)[2] == Setting(I1, "port", IntToString(d.port))
    ensures ContainerLines(d)[6] == Setting(I1, "env", Q(d.env))
  {
  }

  /**
   * The Ingress section turns the Ingress on (the condition its document sits under)
   * and sets the host and the class its rule and `ingressClassName` read.
   */
  lemma IngressSettings(i: IngressTemplate.Ingress)
    ensures IngressLines(i)[0] == Key("", "ingress")
    ensures IngressLines(i)[3] == Setting(I1, "enabled", "true")
    ensures IngressLines(i)[5] == Setting(I1, "host", Q(i.hostname))
    ensures IngressLines(i)[7] == Setting(I1, "class", "nginx")
    ensures IngressTemplate.Enabled() == ".Values." + "ingress" + "." + "enabled"
    ensures IngressTemplate.HostLine() == Ln(I1 + "- host: " + ValuesRef("ingress" + "." + "host"))
    ensures IngressTemplate.ClassLine() == Ln(I1 + "ingressClassName: " + ValuesRef("ingress" + "." + "class"))
  {
  }

  // ---------------------------------------------------------------------------
  // The extra environment variables
  // ---------------------------------------------------------------------------

  /** The `values.yaml` key of a dictionary variable: its name without `{{ .Release.Name }}-`, camelCased on `-`. */
  function ExtraKey(name: string): string
  {
    CamelCase(ReplaceAll(name, Release + "-", ""), '-')
  }

  /** A dictionary variable's description, when it has one, then its value, quoted. */
  function BoundLines(v: DeploymentTemplate.ExtraValue): seq<YamlLine>
    requires v.Bound?
  {
    (if v.description.Some? then [Comment("", v.description.value)] else []) + [Setting("", ExtraKey(v.name), Q(v.value))]
  }

  /** One extra variable: its lines when it is a dictionary, then, whatever its kind, a blank line. */
  function ExtraVarLines(v: DeploymentTemplate.ExtraValue): seq<YamlLine>
  {
    (if v.Bound? then BoundLines(v) else []) + [Blank("")]
  }

  /** `create_deployment_extra_vars_section_of_values_yaml`, over the variables in order. */
  function ExtraVarsLines(xs: seq<(string, DeploymentTemplate.ExtraValue)>): seq<YamlLine>
  {
    if xs == [] then [] else ExtraVarsLines(xs[..|xs| - 1]) + ExtraVarLines(xs[|xs| - 1].1)
  }

  /** The number of times `l` occurs in `ls`. */
  function CountLine(ls: seq<YamlLine>, l: YamlLine): nat
  {
    if ls == [] then 0 else CountLine(ls[..|ls| - 1], l) + (if ls[|ls| - 1] == l then 1 else 0)
  }

  lemma {:induction false} CountLineAppend(a: seq<YamlLine>, b: seq<YamlLine>, l: YamlLine)
    ensures CountLine(a + b, l) == CountLine(a, l) + CountLine(b, l)
  {
    if b == [] {
      assert a + b == a;
    } else {
      var n := |b| - 1;
      assert (a + b)[..|a + b| - 1] == a + b[..n];
      assert (a + b)[|a + b| - 1] == b[n];
      CountLineAppend(a, b[..n], l);
    }
  }

  /** The number of dictionary variables. */
  function CountBound(xs: seq<(string, DeploymentTemplate.ExtraValue)>): nat
  {
    if xs == [] then 0 else CountBound(xs[..|xs| - 1]) + (if xs[|xs| - 1].1.Bound? then 1 else 0)
  }

  /** The number of dictionary variables with a description. */
  function CountDescribed(xs: seq<(string, DeploymentTemplate.ExtraValue)>): nat
  {
    if xs == [] then 0
    else CountDescribed(xs[..|xs| - 1]) + (if xs[|xs| - 1].1.Bound? && xs[|xs| - 1].1.description.Some? then 1 else 0)
  }

  /** A variable's own lines hold exactly one top-level blank line. */
  lemma ExtraVarBlank(v: DeploymentTemplate.ExtraValue)
    ensures CountLine(ExtraVarLines(v), Blank("")) == 1
    ensures |ExtraVarLines(v)| == 1 + (if v.Bound? then 1 else 0) + (if v.Bound? && v.description.Some? then 1 else 0)
  {
    var head := if v.Bound? then BoundLines(v) else [];
    CountLineAppend(head, [Blank("")], Blank(""));
    assert [Blank("")][..0] == [];
    if v.Bound? {
      if v.description.Some? {
        CountLineAppend([Comment("", v.description.value)], [Setting("", ExtraKey(v.name), Q(v.value))], Blank(""));
        assert [Comment("", v.description.value)][..0] == [];
        assert [Setting("", ExtraKey(v.name), Q(v.value))][..0] == [];
      } else {
        assert head == [Setting("", ExtraKey(v.name), Q(v.value))];
        assert head[..0] == [];
      }
    }
  }

  /**
   * The section holds exactly one blank top-level line per variable, whatever its kind,
   * one value line per dictionary and one comment per description, and nothing else.
   */
  lemma {:induction false} ExtraVarsBlankLines(xs: seq<(string, DeploymentTemplate.ExtraValue)>)
    ensures |ExtraVarsLines(xs)| == |xs| + CountBound(xs) + CountDescribed(xs)
    ensures CountLine(ExtraVarsLines(xs), Blank("")) == |xs|
  {
    if xs != [] {
      var n := |xs| - 1;
      ExtraVarsBlankLines(xs[..n]);
      CountLineAppend(ExtraVarsLines(xs[..n]), ExtraVarLines(xs[n].1), Blank(""));
      ExtraVarBlank(xs[n].1);
    }
  }

  /** Every line of one variable is a line of the section. */
  lemma {:induction false} ExtraVarLinesIn(xs: seq<(string, DeploymentTemplate.ExtraValue)>, i: int)
    requires 0 <= i < |xs|
    ensures forall l :: l in ExtraVarLines(xs[i].1) ==> l in ExtraVarsLines(xs)
  {
    var n := |xs| - 1;
    if i < n {
      assert xs[..n][i] == xs[i];
      ExtraVarLinesIn(xs[..n], i);
    }
  }

  /** A dictionary variable's value is set under its key, and its description is written when it has one. */
  lemma ExtraVarValue(xs: seq<(string, DeploymentTemplate.ExtraValue)>, i: int)
    requires 0 <= i < |xs| && xs[i].1.Bound?
    ensures Setting("", ExtraKey(xs[i].1.name), Q(xs[i].1.value)) in ExtraVarsLines(xs)
    ensures xs[i].1.description.Some? ==> Comment("", xs[i].1.description.value) in ExtraVarsLines(xs)
  {
    ExtraVarLinesIn(xs, i);
    var v := xs[i].1;
    if v.description.Some? {
      assert ExtraVarLines(v)[0] == Comment("", v.description.value);
      assert ExtraVarLines(v)[1] == Setting("", ExtraKey(v.name), Q(v.value));
    } else {
      assert ExtraVarLines(v)[0] == Setting("", ExtraKey(v.name), Q(v.value));
    }
  }

  /**
   * The key a dictionary variable's value is set under is the key its Secret reads
   * (`DeploymentTemplate.ExtraSecret`), as long as the release prefix, if present at
   * all, starts the name; a name with `{{ .Release.Name }}-` further in is stripped
   * here but not in the Secret's file name and values reference.
   */
  lemma ExtraKeyMatchesSecret(name: string)
    requires StartsWith(name, Release) || !Contains(name, Release + "-")
    ensures ExtraKey(name) == CamelCase(DeploymentTemplate.SecretFileName(name), '-')
  {
    if !StartsWith(name, Release) {
      ReplaceAllAbsent(name, Release + "-", "");
    }
  }

  /**
   * The case `ExtraKeyMatchesSecret` leaves out: for `db-{{ .Release.Name }}-key` the
   * values key strips the placeholder (`dbKey`), while the Secret file, whose name does
   * not start with it, keeps it in the key it reads.
   */
  lemma ExtraKeyMismatch(name: string)
    requires name == "db-" + Release + "-key"
    ensures !StartsWith(name, Release) && Contains(name, Release + "-")
    ensures ExtraKey(name) == "dbKey"
    ensures CamelCase(DeploymentTemplate.SecretFileName(name), '-') == "db" + Capitalize(Release) + "Key"
    ensures ExtraKey(name) != CamelCase(DeploymentTemplate.SecretFileName(name), '-')
  {
    var p := Release + "-";
    assert name[0] == 'd' && Release[0] == '{';
    assert OccursAt(name, p, 3) by { assert name[3..3 + |p|] == p; }
    StripInnerRelease(name);
    assert Capitalize("key") == "Key";
    CamelCaseOfTwoWords("db", "key", '-');
    assert "db" + ['-'] + "key" == "db-key";
    SecretKeyKeepsRelease(name);
  }

  /** `replace` removes the placeholder from the middle of `db-{{ .Release.Name }}-key`. */
  lemma StripInnerRelease(name: string)
    requires name == "db-" + Release + "-key"
    ensures ReplaceAll(name, Release + "-", "") == "db-key"
  {
    var p := Release + "-";
    assert name[3..] == p + "key";
    assert ReplaceAll(name[3..], p, "") == "key" by {
      assert (p + "key")[..|p|] == p && (p + "key")[|p|..] == "key";
    }
    assert name[1] == 'b' && name[2] == '-' && p[0] == '{';
    assert name[..|p|][0] != p[0] && name[1..][..|p|][0] != p[0] && name[2..][..|p|][0] != p[0];
    assert name[1..][1..] == name[2..] && name[2..][1..] == name[3..];
    assert ReplaceAll(name[2..], p, "") == "-key";
    assert ReplaceAll(name[1..], p, "") == "b-key";
  }

  /** The Secret reads the camelCase of the whole name, placeholder included. */
  lemma SecretKeyKeepsRelease(name: string)
    requires name == "db-" + Release + "-key"
    ensures CamelCase(name, '-') == "db" + Capitalize(Release) + "Key"
    ensures |CamelCase(name, '-')| == 5 + |Release|
  {
    assert '-' !in Release;
    assert Capitalize("key") == "Key";
    assert |Capitalize(Release)| == |Release|;
    CamelCaseOfThreeWords("db", Release, "key", '-');
    assert "db" + ['-'] + Release + ['-'] + "key" == name;
  }

  /** The builder, as the source runs it: one variable per iteration, the key camelCased in a loop. */
  method CreateExtraVarsSection(ts: seq<Template>) returns (r: Result<string>)
    ensures r == YamlOf(ExtraVarsSection(ts))
  {
    var t := Next(ts, DeploymentClass);
    if t.Failure? {
      return Failure(t.error);
    }
    var xs := t.value.deployment.extraEnvVars;
    var output: seq<YamlLine> := [];
    for i := 0 to |xs|
      invariant output == ExtraVarsLines(xs[..i])
    {
      assert xs[..i + 1][..i] == xs[..i];
      ghost var before := output;
      var value := xs[i].1;
      if value.Bound? {
        if value.description.Some? {
          output := output + [Comment("", value.description.value)];
        }
        var varName := ReplaceAll(value.name, Release + "-", "");
        var camel := CamelCaseName(varName, '-');
        output := output + [Setting("", camel, Q(value.value))];
        assert output == before + BoundLines(value);
      }
      output := output + [Blank("")];
      assert output == before + ExtraVarLines(value);
    }
    assert xs[..|xs|] == xs;
    return Success(Yaml(output));
  }

  // ---------------------------------------------------------------------------
  // OAuth
  // ---------------------------------------------------------------------------

  /** The five settings, in the order the section writes them. */
  function OAuthFields(o: OAuthTemplate.OAuth): seq<string>
  {
    [o.baseAppUrl, o.appAbbreviation, o.appName, o.serviceName, o.devPort]
  }

  /** `create_oauth_section_of_values_yaml`. */
  function OAuthLines(o: OAuthTemplate.OAuth): seq<YamlLine>
  {
    [ Comment("", "OAuth"), Key("", "oauth"),
      Setting(I1, "baseAppUrl", Q(o.baseAppUrl)),
      Setting(I1, "appAbbreviation", Q(o.appAbbreviation)),
      Setting(I1, "appName", Q(o.appName)),
      Setting(I1, "serviceName", Q(o.serviceName)),
      Setting(I1, "devPort", Q(o.devPort)),
      Blank("") ]
  }

  /**
   * Each of the five keys the OAuth ConfigMap reads under `.Values.oauth` is set, in
   * order, to the corresponding setting, quoted.
   */
  lemma OAuthSectionFeedsConfigMap(o: OAuthTemplate.OAuth)
    ensures OAuthLines(o)[1] == Key("", "oauth")
    ensures forall k :: 0 <= k < 5 ==> OAuthLines(o)[2 + k] == Setting(I1, OAuthTemplate.ValuesKeys()[k], Q(OAuthFields(o)[k]))
    ensures forall k :: 0 <= k < 4 ==> OAuthTemplate.Doc().data[k].value == ValuesRef("oauth." + OAuthTemplate.ValuesKeys()[k])
    ensures OAuthTemplate.Doc().data[4].value == QuoteRef("oauth." + OAuthTemplate.ValuesKeys()[4])
  {
    OAuthTemplate.DataReadsValuesKeys();
  }

  // ---------------------------------------------------------------------------
  // The relational database
  // ---------------------------------------------------------------------------

  function DatabaseIntro(): seq<YamlLine>
  {
    [ Comment("", "relational database"), Key("", "database"),
      Comment(I1, "database type"), Comment(I1, ""), Comment(I1, "possible values"), Comment(I1, ""),
      Comment(I1, "| Value | Description |"), Comment(I1, "| --- | --- |"), Comment(I1, "| `postgres` | PostgreSQL |"),
      Comment(I1, ""), Comment(I1, "postgres-controller"), Comment(I1, "") ]
  }

  function DatabaseSettings(db: DatabaseTemplate.Database): seq<YamlLine>
  {
    [ Setting(I1, "type", Q(db.Type())), Blank(I1),
      Comment(I1, "create the database"), Comment(I1, "postgres-controller"),
      Setting(I1, "create", BoolLower(db.create)), Blank(I1),
      Comment(I1, "database host"), Setting(I1, "host", Q(db.host)), Blank(I1),
      Comment(I1, "database name"), Setting(I1, "name", Q(db.name)), Blank(I1),
      Comment(I1, "database user"), Setting(I1, "user", Q(db.user)), Blank(I1) ]
  }

  function DatabaseRest(db: DatabaseTemplate.Database): seq<YamlLine>
  {
    [ Comment(I1, "database password"), Setting(I1, "password", Q(db.password)), Blank(I1),
      Comment(I1, "database port"), Disabled(I1, "port", IntToString(db.port)), Blank(I1),
      Comment(I1, "instance id"), Disabled(I1, "instance_id", Q(db.instanceId)),
      Blank("") ]
  }

  /** `create_database_section_of_values_yaml`. */
  function DatabaseLines(db: DatabaseTemplate.Database): seq<YamlLine>
  {
    DatabaseIntro() + DatabaseSettings(db) + DatabaseRest(db)
  }

  lemma DatabaseIntroSetsNothing(indent: string, key: string)
    ensures !SetsKey(DatabaseIntro(), indent, key)
  {
  }

  lemma DatabaseSettingsKeys(db: DatabaseTemplate.Database, key: string)
    ensures SetsKey(DatabaseSettings(db), I1, key) <==> key in {"type", "create", "host", "name", "user"}
  {
    var b := DatabaseSettings(db);
    if key == "type" { assert b[0].key == key; }
    else if key == "create" { assert b[4].key == key; }
    else if key == "host" { assert b[7].key == key; }
    else if key == "name" { assert b[10].key == key; }
    else if key == "user" { assert b[13].key == key; }
  }

  lemma DatabaseRestKeys(db: DatabaseTemplate.Database, key: string)
    ensures SetsKey(DatabaseRest(db), I1, key) <==> key == "password"
    ensures DatabaseRest(db)[4] == Disabled(I1, "port", IntToString(db.port))
    ensures DatabaseRest(db)[7] == Disabled(I1, "instance_id", Q(db.instanceId))
  {
    assert DatabaseRest(db)[1].key == "password";
  }

  /** The section sets exactly these six keys under `database:`. */
  lemma DatabaseKeys(db: DatabaseTemplate.Database, key: string)
    ensures SetsKey(DatabaseLines(db), I1, key) <==> key in {"type", "create", "host", "name", "user", "password"}
  {
    DatabaseIntroSetsNothing(I1, key);
    DatabaseSettingsKeys(db, key);
    DatabaseRestKeys(db, key);
    SetsKeyAppend3(DatabaseIntro(), DatabaseSettings(db), DatabaseRest(db), I1, key);
  }

  /**
   * The section sets the type the operator's copies are gated on (`postgres`) and the
   * `create` flag, but writes `port` and `instance_id` commented out: the ConfigMap's
   * `db-port` then takes its fallback `"5432"` and the database resource leaves out
   * `dbInstanceId`.
   */
  lemma DatabaseSectionSettings(db: DatabaseTemplate.Database)
    ensures Setting(I1, "type", Q("postgres")) in DatabaseLines(db)
    ensures Setting(I1, "create", BoolLower(db.create)) in DatabaseLines(db)
    ensures !SetsKey(DatabaseLines(db), I1, "port") && Disabled(I1, "port", IntToString(db.port)) in DatabaseLines(db)
    ensures !SetsKey(DatabaseLines(db), I1, "instance_id") && Disabled(I1, "instance_id", Q(db.instanceId)) in DatabaseLines(db)
    ensures DatabaseTemplate.Creates() == And(Eq(".Values.database.type", "postgres"), ".Values.database.create")
  {
    var a, b, c := DatabaseIntro(), DatabaseSettings(db), DatabaseRest(db);
    assert b[0] == Setting(I1, "type", Q("postgres")) && b[4] == Setting(I1, "create", BoolLower(db.create));
    DatabaseRestKeys(db, "port");
    InAppend3(Setting(I1, "type", Q("postgres")), a, b, c);
    InAppend3(Setting(I1, "create", BoolLower(db.create)), a, b, c);
    InAppend3(Disabled(I1, "port", IntToString(db.port)), a, b, c);
    InAppend3(Disabled(I1, "instance_id", Q(db.instanceId)), a, b, c);
    DatabaseKeys(db, "port");
    DatabaseKeys(db, "instance_id");
  }

  // ---------------------------------------------------------------------------
  // NoSQL storage
  // ---------------------------------------------------------------------------

  function NoSQLIntro(): seq<YamlLine>
  {
    [ Comment("", "NoSQL database"), Comment("", "properties databases"), Key("", "nosql"),
      Comment(I1, "NoSQL storage type"), Comment(I1, ""), Comment(I1, "possible values"), Comment(I1, ""),
      Comment(I1, "| Value | Description |"), Comment(I1, "| --- | --- |"),
      Comment(I1, "| `mongodb` | MongoDB |"), Comment(I1, "| `azure` | Azure Tables |"), Comment(I1, "") ]
  }

  /** The replica count, set only for MongoDB. */
  function NoSQLReplicas(n: NoSQLTemplate.NoSQL): YamlLine
  {
    if n.flavour.Mongo? then Setting(I1, "replicaCount", IntToString(n.flavour.replicaCount))
    else Disabled(I1, "replicaCount", "<Number of replicas>")
  }

  /** `type`, `create` and the replica count. */
  function NoSQLHead(n: NoSQLTemplate.NoSQL): seq<YamlLine>
  {
    [ Setting(I1, "type", n.storageType), Blank(I1),
      Comment(I1, "create a resource"), Comment(I1, "mongodb only"), Comment(I1, "MongoDBCommunity CRD"),
      Setting(I1, "create", BoolLower(n.create)), Blank(I1),
      Comment(I1, "replica members"), Comment(I1, "member parameter"), Comment(I1, "mongodb, created"),
      NoSQLReplicas(n), Blank(I1) ]
  }

  /** The access key, set only for Azure Table Storage. */
  function NoSQLKey(n: NoSQLTemplate.NoSQL): YamlLine
  {
    if n.flavour.AzureTables? then Setting(I1, "key", Q(n.flavour.key)) else Disabled(I1, "key", Q(""))
  }

  /** `tls.enabled`: MongoDB's flag, or a placeholder. */
  function NoSQLTls(n: NoSQLTemplate.NoSQL): YamlLine
  {
    Setting(I2, "enabled", if n.flavour.Mongo? then BoolLower(n.flavour.tlsEnabled) else "<true/false>")
  }

  /** `tls`, the connection string (always commented out) and the access key. */
  function NoSQLConnection(n: NoSQLTemplate.NoSQL): seq<YamlLine>
  {
    [ Comment(I1, "TLS"), Comment(I1, "mongodb, created"), Key(I1, "tls"), Comment(I2, "use TLS"),
      NoSQLTls(n), Blank(I1),
      Comment(I1, "connection string"), Comment(I1, "mongodb, not created"), Comment(I1, "mongodb://<host>:<port>"),
      Disabled(I1, "connectionString", Q("mongodb://" + "mongo.example.com:27017")),
      Blank(I1),
      Comment(I1, "access key"), Comment(I1, "azure only"),
      NoSQLKey(n), Blank(I1) ]
  }

  /** The account: MongoDB's own user and password, or placeholders. */
  function NoSQLUser(n: NoSQLTemplate.NoSQL): string { if n.flavour.Mongo? then n.flavour.user else "<mongo user>" }
  function NoSQLPassword(n: NoSQLTemplate.NoSQL): string { if n.flavour.Mongo? then n.flavour.password else "<mongo password>" }

  /** `name`, `user` and `password`. */
  function NoSQLAccount(n: NoSQLTemplate.NoSQL): seq<YamlLine>
  {
    [ Comment(I1, "database name"), Setting(I1, "name", Q(n.dbName)), Blank(I1),
      Comment(I1, "user name"), Comment(I1, "mongodb only"),
      Setting(I1, "user", Q(NoSQLUser(n))),
      Blank(I1),
      Comment(I1, "password"), Comment(I1, "mongodb only"),
      Setting(I1, "password", Q(NoSQLPassword(n))),
      Blank("") ]
  }

  /** The lines under `nosql:`. */
  function NoSQLSettings(n: NoSQLTemplate.NoSQL): seq<YamlLine>
  {
    NoSQLIntro() + NoSQLHead(n) + NoSQLConnection(n) + NoSQLAccount(n)
  }

  function TablesHeader(): seq<YamlLine>
  {
    [Comment("", "information groupings"), Comment("", "Azure: table names"), Comment("", "MongoDB: collections"), Key("", "tables")]
  }

  /** One line per table, in dictionary order: its camelCased name set to its value. */
  function TableLines(tables: seq<(string, NoSQLTemplate.Table)>): seq<YamlLine>
  {
    if tables == [] then []
    else TableLines(tables[..|tables| - 1]) + [Setting(I1, CamelCase(tables[|tables| - 1].1.name, '-'), Q(tables[|tables| - 1].1.value))]
  }

  /** Everything before the tables. */
  function NoSQLPrefix(n: NoSQLTemplate.NoSQL): seq<YamlLine>
  {
    NoSQLSettings(n) + TablesHeader()
  }

  /** `create_nosql_section_of_values_yaml`. */
  function NoSQLLines(n: NoSQLTemplate.NoSQL): seq<YamlLine>
  {
    NoSQLPrefix(n) + TableLines(n.tables) + [Blank("")]
  }

  lemma NoSQLIntroSetsNothing(indent: string, key: string)
    ensures !SetsKey(NoSQLIntro(), indent, key)
  {
  }

  lemma NoSQLHeadKeys(n: NoSQLTemplate.NoSQL, key: string)
    ensures SetsKey(NoSQLHead(n), I1, key) <==> key == "type" || key == "create" || (key == "replicaCount" && n.flavour.Mongo?)
    ensures NoSQLHead(n)[10] == NoSQLReplicas(n)
  {
    var b := NoSQLHead(n);
    if key == "type" { assert b[0].key == key; }
    else if key == "create" { assert b[5].key == key; }
    else if key == "replicaCount" && n.flavour.Mongo? { assert b[10].key == key; }
  }

  lemma NoSQLConnectionKeys(n: NoSQLTemplate.NoSQL, key: string)
    ensures SetsKey(NoSQLConnection(n), I1, key) <==> key == "key" && n.flavour.AzureTables?
    ensures NoSQLConnection(n)[4] == NoSQLTls(n) && NoSQLConnection(n)[13] == NoSQLKey(n)
  {
    if key == "key" && n.flavour.AzureTables? { assert NoSQLConnection(n)[13].key == key; }
  }

  lemma NoSQLAccountKeys(n: NoSQLTemplate.NoSQL, key: string)
    ensures SetsKey(NoSQLAccount(n), I1, key) <==> key in {"name", "user", "password"}
    ensures NoSQLAccount(n)[5] == Setting(I1, "user", Q(NoSQLUser(n)))
    ensures NoSQLAccount(n)[9] == Setting(I1, "password", Q(NoSQLPassword(n)))
  {
    var b := NoSQLAccount(n);
    if key == "name" { assert b[1].key == key; }
    else if key == "user" { assert b[5].key == key; }
    else if key == "password" { assert b[9].key == key; }
  }

  /**
   * The keys set under `nosql:`: `type`, `create`, `name`, `user` and `password` always,
   * `replicaCount` exactly for MongoDB and `key` exactly for Azure Table Storage.
   */
  lemma NoSQLKeys(n: NoSQLTemplate.NoSQL, key: string)
    ensures SetsKey(NoSQLSettings(n), I1, key) <==>
              key in {"type", "create", "name", "user", "password"}
              || (key == "replicaCount" && n.flavour.Mongo?) || (key == "key" && n.flavour.AzureTables?)
  {
    NoSQLIntroSetsNothing(I1, key);
    NoSQLHeadKeys(n, key);
    NoSQLConnectionKeys(n, key);
    NoSQLAccountKeys(n, key);
    SetsKeyAppend4(NoSQLIntro(), NoSQLHead(n), NoSQLConnection(n), NoSQLAccount(n), I1, key);
  }

  /**
   * `replicaCount` is set exactly for MongoDB, to its replica count, and commented out
   * otherwise; `key` is set exactly for Azure Table Storage, to its key, and commented
   * out otherwise; `tls.enabled`, `user` and `password` carry MongoDB's values for
   * MongoDB and placeholders otherwise.
   */
  lemma NoSQLFlavourSettings(n: NoSQLTemplate.NoSQL)
    ensures SetsKey(NoSQLSettings(n), I1, "replicaCount") <==> n.flavour.Mongo?
    ensures n.flavour.Mongo? ==> Setting(I1, "replicaCount", IntToString(n.flavour.replicaCount)) in NoSQLSettings(n)
    ensures !n.flavour.Mongo? ==> Disabled(I1, "replicaCount", "<Number of replicas>") in NoSQLSettings(n)
    ensures SetsKey(NoSQLSettings(n), I1, "key") <==> n.flavour.AzureTables?
    ensures n.flavour.AzureTables? ==> Setting(I1, "key", Q(n.flavour.key)) in NoSQLSettings(n)
    ensures !n.flavour.AzureTables? ==> Disabled(I1, "key", Q("")) in NoSQLSettings(n)
    ensures n.flavour.Mongo? ==> Setting(I2, "enabled", BoolLower(n.flavour.tlsEnabled)) in NoSQLSettings(n)
    ensures !n.flavour.Mongo? ==> Setting(I2, "enabled", "<true/false>") in NoSQLSettings(n)
    ensures Setting(I1, "user", Q(if n.flavour.Mongo? then n.flavour.user else "<mongo user>")) in NoSQLSettings(n)
    ensures Setting(I1, "password", Q(if n.flavour.Mongo? then n.flavour.password else "<mongo password>")) in NoSQLSettings(n)
  {
    var a, b, c, d := NoSQLIntro(), NoSQLHead(n), NoSQLConnection(n), NoSQLAccount(n);
    NoSQLKeys(n, "replicaCount");
    NoSQLKeys(n, "key");
    NoSQLHeadKeys(n, "type");
    NoSQLConnectionKeys(n, "type");
    NoSQLAccountKeys(n, "type");
    InAppend4(NoSQLReplicas(n), a, b, c, d);
    InAppend4(NoSQLKey(n), a, b, c, d);
    InAppend4(NoSQLTls(n), a, b, c, d);
    InAppend4(Setting(I1, "user", Q(NoSQLUser(n))), a, b, c, d);
    InAppend4(Setting(I1, "password", Q(NoSQLPassword(n))), a, b, c, d);
  }

  /**
   * The tables block holds one line per table, in dictionary order, and each sets the
   * key whose value the storage-tables ConfigMap reads for that table.
   */
  lemma {:induction false} TableLinesOnePerTable(tables: seq<(string, NoSQLTemplate.Table)>)
    ensures |TableLines(tables)| == |tables|
    ensures forall i :: 0 <= i < |tables| ==>
              TableLines(tables)[i] == Setting(I1, CamelCase(tables[i].1.name, '-'), Q(tables[i].1.value)) &&
              NoSQLTemplate.TableValuesPath(tables[i].1) == "tables." + TableLines(tables)[i].key
  {
    if tables != [] {
      var n := |tables| - 1;
      TableLinesOnePerTable(tables[..n]);
      forall i | 0 <= i < n
        ensures TableLines(tables)[i] == Setting(I1, CamelCase(tables[i].1.name, '-'), Q(tables[i].1.value))
      {
        assert tables[..n][i] == tables[i];
      }
    }
  }

  /** The builder: the fixed lines, then a loop over the tables camelCasing each name. */
  method CreateNoSQLSection(ts: seq<Template>) returns (r: Result<string>)
    ensures r == YamlOf(NoSQLSection(ts))
  {
    var t := Next(ts, NoSQLClass);
    if t.Failure? {
      return Failure(t.error);
    }
    var n := t.value.nosql;
    var tables := CreateTableLines(n.tables);
    return Success(Yaml(NoSQLPrefix(n) + tables + [Blank("")]));
  }

  /** The loop over the tables, camelCasing each name. */
  method CreateTableLines(tables: seq<(string, NoSQLTemplate.Table)>) returns (output: seq<YamlLine>)
    ensures output == TableLines(tables)
  {
    output := [];
    for i := 0 to |tables|
      invariant output == TableLines(tables[..i])
    {
      assert tables[..i + 1][..i] == tables[..i];
      var value := tables[i].1;
      var camel := CamelCaseName(value.name, '-');
      output := output + [Setting(I1, camel, Q(value.value))];
    }
    assert tables[..|tables|] == tables;
  }

  // ---------------------------------------------------------------------------
  // The cache
  // ---------------------------------------------------------------------------

  function CacheHead(r: RedisTemplate.Redis): seq<YamlLine>
  {
    [ Comment("", "cache server"), Key("", "cache"), Setting(I1, "type", Q("redis")), Blank(I1),
      Comment(I1, "create Redis"), Setting(I1, "create", BoolLower(r.create)), Blank(I1),
      Comment(I1, "Redis image"), Comment(I1, "only when created") ]
  }

  /** The image's entries, one line each. */
  function ImageItems(image: seq<(string, string)>): seq<YamlLine>
  {
    if image == [] then [] else ImageItems(image[..|image| - 1]) + [Setting(I2, image[|image| - 1].0, Q(image[|image| - 1].1))]
  }

  /** The image is written out only for a cache this chart creates, and only when one is given. */
  predicate ImageExpanded(r: RedisTemplate.Redis)
  {
    r.create && |r.image| > 0
  }

  /**
   * The image block: the entries under a bare `image` line (no colon) when the image
   * is expanded, otherwise `image: {}`.
   */
  function CacheImage(r: RedisTemplate.Redis): seq<YamlLine>
  {
    (if ImageExpanded(r) then [Bare(I1, "image")] + ImageItems(r.image) else [Setting(I1, "image", "{}")])
    + [Blank(I1)]
  }

  function CacheReplicas(r: RedisTemplate.Redis): YamlLine
  {
    if r.create then Setting(I1, "replicaCount", IntToString(r.replicaCount))
    else Disabled(I1, "replicaCount", "<Number of replicas (Ex. 1)>")
  }

  function CacheHostName(r: RedisTemplate.Redis): YamlLine
  {
    if r.create then Disabled(I1, "hostName", Q("<Redis Host Name>")) else Setting(I1, "hostName", Q(r.hostName))
  }

  function CacheServer(r: RedisTemplate.Redis): seq<YamlLine>
  {
    [ Comment(I1, "Redis replicas"), Comment(I1, "only when created"), CacheReplicas(r), Blank(I1),
      Comment(I1, "Redis host name"), Comment(I1, "only when not created"), CacheHostName(r), Blank(I1),
      Comment(I1, "Redis password"), Setting(I1, "password", Q(r.password)), Blank(I1),
      Comment(I1, "Redis port"), Setting(I1, "port", Q(r.port)), Blank(I1) ]
  }

  function CacheTlsPort(r: RedisTemplate.Redis): YamlLine
  {
    if r.tlsEnabled then Setting(I2, "port", Q(r.tlsPort)) else Disabled(I2, "port", Q("<TLS Port (Ex. 6380)>"))
  }

  function CacheTls(r: RedisTemplate.Redis): seq<YamlLine>
  {
    [ Comment(I1, "Redis TLS"), Key(I1, "tls"),
      Comment(I2, "TLS enabled"), Setting(I2, "enabled", BoolLower(r.tlsEnabled)), Blank(I2),
      Comment(I2, "TLS port"), Comment(I2, "only with TLS"), CacheTlsPort(r),
      Blank(I1) ]
  }

  /** `create_cache_section_of_values_yaml`; unlike the others it ends without a blank top-level line. */
  function CacheLines(r: RedisTemplate.Redis): seq<YamlLine>
  {
    CacheHead(r) + CacheImage(r) + CacheServer(r) + CacheTls(r)
  }

  lemma {:induction false} ImageItemsIndented(image: seq<(string, string)>)
    ensures |ImageItems(image)| == |image|
    ensures forall i :: 0 <= i < |image| ==> ImageItems(image)[i] == Setting(I2, image[i].0, Q(image[i].1))
  {
    if image != [] {
      var n := |image| - 1;
      ImageItemsIndented(image[..n]);
      forall i | 0 <= i < n ensures ImageItems(image)[i] == Setting(I2, image[i].0, Q(image[i].1)) {
        assert image[..n][i] == image[i];
      }
    }
  }

  lemma CacheHeadKeys(r: RedisTemplate.Redis, key: string)
    ensures SetsKey(CacheHead(r), I1, key) <==> key == "type" || key == "create"
    ensures CacheHead(r)[5] == Setting(I1, "create", BoolLower(r.create))
  {
    if key == "type" { assert CacheHead(r)[2].key == key; }
    else if key == "create" { assert CacheHead(r)[5].key == key; }
  }

  lemma CacheImageKeys(r: RedisTemplate.Redis, key: string)
    ensures SetsKey(CacheImage(r), I1, key) <==> key == "image" && !ImageExpanded(r)
    ensures ImageExpanded(r) ==> CacheImage(r)[0] == Bare(I1, "image")
  {
    ImageItemsIndented(r.image);
    var b := CacheImage(r);
    if ImageExpanded(r) {
      assert b == [Bare(I1, "image")] + ImageItems(r.image) + [Blank(I1)];
      forall k | 1 <= k <= |r.image|
        ensures !(b[k].Setting? && b[k].indent == I1)
      {
        assert b[k] == ImageItems(r.image)[k - 1];
      }
    } else if key == "image" {
      assert b[0].key == key;
    }
  }

  lemma CacheServerKeys(r: RedisTemplate.Redis, key: string)
    ensures SetsKey(CacheServer(r), I1, key) <==>
              key == "password" || key == "port" || (key == "replicaCount" && r.create) || (key == "hostName" && !r.create)
    ensures CacheServer(r)[2] == CacheReplicas(r) && CacheServer(r)[6] == CacheHostName(r)
  {
    var c := CacheServer(r);
    if key == "password" { assert c[9].key == key; }
    else if key == "port" { assert c[12].key == key; }
    else if key == "replicaCount" && r.create { assert c[2].key == key; }
    else if key == "hostName" && !r.create { assert c[6].key == key; }
  }

  lemma CacheTlsKeys(r: RedisTemplate.Redis, key: string)
    ensures !SetsKey(CacheTls(r), I1, key)
    ensures SetsKey(CacheTls(r), I2, key) <==> key == "enabled" || (key == "port" && r.tlsEnabled)
    ensures CacheTls(r)[7] == CacheTlsPort(r)
  {
    var d := CacheTls(r);
    if key == "enabled" { assert d[3].key == key; }
    else if key == "port" && r.tlsEnabled { assert d[7].key == key; }
  }

  /**
   * The keys set under `cache:`: `type`, `create`, `password` and `port` always, `image`
   * (as `{}`) exactly when the image is not expanded, `replicaCount` exactly when the
   * cache is created and `hostName` exactly when it is not. Under `cache.tls`,
   * `enabled` always and `port` exactly when TLS is enabled.
   */
  lemma CacheKeys(r: RedisTemplate.Redis, key: string)
    ensures SetsKey(CacheLines(r), I1, key) <==>
              key in {"type", "create", "password", "port"} || (key == "image" && !ImageExpanded(r))
              || (key == "replicaCount" && r.create) || (key == "hostName" && !r.create)
    ensures SetsKey(CacheTls(r), I2, key) <==> key == "enabled" || (key == "port" && r.tlsEnabled)
  {
    CacheHeadKeys(r, key);
    CacheImageKeys(r, key);
    CacheServerKeys(r, key);
    CacheTlsKeys(r, key);
    SetsKeyAppend4(CacheHead(r), CacheImage(r), CacheServer(r), CacheTls(r), I1, key);
  }

  /**
   * With a created cache and an image, the image's entries follow a bare `image` line,
   * which has no colon, so no `image` key is set; the replica count is set for a created
   * cache, the host name for one that is not, and the TLS port only with TLS.
   */
  lemma CacheSettings(r: RedisTemplate.Redis)
    ensures ImageExpanded(r) ==> !SetsKey(CacheLines(r), I1, "image") && Bare(I1, "image") in CacheLines(r)
    ensures r.create ==> Setting(I1, "replicaCount", IntToString(r.replicaCount)) in CacheLines(r)
    ensures !r.create ==> Setting(I1, "hostName", Q(r.hostName)) in CacheLines(r)
    ensures r.tlsEnabled ==> Setting(I2, "port", Q(r.tlsPort)) in CacheLines(r)
    ensures !r.tlsEnabled ==> Disabled(I2, "port", Q("<TLS Port (Ex. 6380)>")) in CacheLines(r)
  {
    var a, b, c, d := CacheHead(r), CacheImage(r), CacheServer(r), CacheTls(r);
    CacheKeys(r, "image");
    CacheImageKeys(r, "image");
    CacheServerKeys(r, "image");
    CacheTlsKeys(r, "image");
    if ImageExpanded(r) {
      InAppend4(Bare(I1, "image"), a, b, c, d);
    }
    InAppend4(CacheReplicas(r), a, b, c, d);
    InAppend4(CacheHostName(r), a, b, c, d);
    InAppend4(CacheTlsPort(r), a, b, c, d);
  }

  /**
   * The cache ConfigMap reads `.Values.cache.hostname` when the cache is not created,
   * but the section sets `hostName`: the lower-case key is never set.
   */
  lemma CacheHostnameMismatch(r: RedisTemplate.Redis)
    ensures !SetsKey(CacheLines(r), I1, "hostname")
    ensures CacheTemplate.ConfigMap(RedisTemplate.CacheType(), RedisTemplate.DefaultHostname()).data[3]
            == Entry("hostname", ValuesRef("cache.hostname"))
  {
    CacheKeys(r, "hostname");
    CacheTemplate.HostnameChoice(RedisTemplate.CacheType(), RedisTemplate.DefaultHostname());
  }

  /** The builder: the fixed lines, with a loop over the image's entries when it is expanded. */
  method CreateCacheSection(ts: seq<Template>) returns (res: Result<string>)
    ensures res == YamlOf(CacheSection(ts))
  {
    var t := Next(ts, RedisClass);
    if t.Failure? {
      return Failure(t.error);
    }
    var r := t.value.redis;
    var image: seq<YamlLine>;
    if r.create && |r.image| > 0 {
      var items := CreateImageItems(r.image);
      image := [Bare(I1, "image")] + items;
    } else {
      image := [Setting(I1, "image", "{}")];
    }
    image := image + [Blank(I1)];
    return Success(Yaml(CacheHead(r) + image + CacheServer(r) + CacheTls(r)));
  }

  /** The loop over the image's entries. */
  method CreateImageItems(image: seq<(string, string)>) returns (output: seq<YamlLine>)
    ensures output == ImageItems(image)
  {
    output := [];
    for i := 0 to |image|
      invariant output == ImageItems(image[..i])
    {
      assert image[..i + 1][..i] == image[..i];
      output := output + [Setting(I2, image[i].0, Q(image[i].1))];
    }
    assert image[..|image|] == image;
  }

  // ---------------------------------------------------------------------------
  // Third-party services
  // ---------------------------------------------------------------------------

  /** The lines that open one service: its name as a key, then its switch. */
  function ServiceHead(s: ThirdPartyTemplate.ThirdPartyService): seq<YamlLine>
  {
    [ Comment(I1, "Configurations for the " + Capitalize(s.name) + " integration"),
      Key(I1, s.name),
      Comment(I2, "If the integration " + "is enabled"),
      Setting(I2, "enabled", BoolLower(s.enabled)),
      Blank(I2) ]
  }

  /** One line per variable, its name camelCased on `_`, its value unquoted. */
  function VarLines(vars: seq<(string, string)>): seq<YamlLine>
  {
    if vars == [] then [] else VarLines(vars[..|vars| - 1]) + [Setting(I2, CamelCase(vars[|vars| - 1].0, '_'), vars[|vars| - 1].1)]
  }

  function ServiceLines(s: ThirdPartyTemplate.ThirdPartyService): seq<YamlLine>
  {
    ServiceHead(s) + VarLines(s.vars) + [Blank(I2)]
  }

  function ThirdPartyHeader(): seq<YamlLine>
  {
    [Comment("", "third-party services"), Key("", "thirdParty")]
  }

  /** The text the third-party builder accumulates: a header, then every service template in order. */
  function ThirdPartyLines(ts: seq<Template>): seq<YamlLine>
  {
    if ts == [] then ThirdPartyHeader()
    else ThirdPartyLines(ts[..|ts| - 1]) + (if ts[|ts| - 1].ThirdPartyT? then ServiceLines(ts[|ts| - 1].service) else [])
  }

  /**
   * Each variable line the builder accumulates sets the key the service's Secret reads
   * (`thirdParty.<service>.<camelCase on '_'>`).
   */
  lemma {:induction false} VarLinesFeedSecret(name: string, vars: seq<(string, string)>)
    ensures |VarLines(vars)| == |vars|
    ensures forall i :: 0 <= i < |vars| ==>
              VarLines(vars)[i] == Setting(I2, CamelCase(vars[i].0, '_'), vars[i].1) &&
              ThirdPartyTemplate.VarValuesPath(name, vars[i].0) == "thirdParty." + name + "." + VarLines(vars)[i].key
  {
    if vars != [] {
      var n := |vars| - 1;
      VarLinesFeedSecret(name, vars[..n]);
      forall i | 0 <= i < n ensures VarLines(vars)[i] == Setting(I2, CamelCase(vars[i].0, '_'), vars[i].1) {
        assert vars[..n][i] == vars[i];
      }
    }
  }

  /**
   * `create_third_party_service_section_of_values_yaml`: it builds the section over every
   * service template, but has no `return`, so its result is `None`; `built` is what it drops.
   */
  method CreateThirdPartySection(ts: seq<Template>) returns (r: Option<string>, ghost built: seq<YamlLine>)
    ensures r == None
    ensures built == ThirdPartyLines(ts)
  {
    var output := ThirdPartyHeader();
    for i := 0 to |ts|
      invariant output == ThirdPartyLines(ts[..i])
    {
      assert ts[..i + 1][..i] == ts[..i];
      if ts[i].ThirdPartyT? {
        var s := ts[i].service;
        var vars := CreateVarLines(s.vars);
        output := output + (ServiceHead(s) + vars + [Blank(I2)]);
      }
    }
    assert ts[..|ts|] == ts;
    return None, output;
  }

  /** The loop over one service's variables, camelCasing each name on `_`. */
  method CreateVarLines(vars: seq<(string, string)>) returns (output: seq<YamlLine>)
    ensures output == VarLines(vars)
  {
    output := [];
    for j := 0 to |vars|
      invariant output == VarLines(vars[..j])
    {
      assert vars[..j + 1][..j] == vars[..j];
      var camel := CamelCaseName(vars[j].0, '_');
      output := output + [Setting(I2, camel, vars[j].1)];
    }
    assert vars[..|vars|] == vars;
  }

  // ---------------------------------------------------------------------------
  // The builders, and `write_values_yaml`
  // ---------------------------------------------------------------------------

  /** A builder's result as the text it returns. */
  function YamlOf(r: Result<seq<YamlLine>>): Result<string>
  {
    match r
    case Success(ls) => Success(Yaml(ls))
    case Failure(e) => Failure(e)
  }

  /** The section the first template of a class the optional sections read. */
  function SectionOf(t: Template): seq<YamlLine>
  {
    match t
    case OAuthT(o) => OAuthLines(o)
    case DatabaseT(db) => DatabaseLines(db)
    case NoSQLT(n) => NoSQLLines(n)
    case RedisT(r) => CacheLines(r)
    case _ => []
  }

  function ReplicasSection(ts: seq<Template>): Result<seq<YamlLine>>
  {
    match Next(ts, DeploymentClass)
    case Failure(e) => Failure(e)
    case Success(t) => Success(ReplicasLines(t.deployment))
  }

  function ImageSection(ts: seq<Template>): Result<seq<YamlLine>>
  {
    match Next(ts, DeploymentClass)
    case Failure(e) => Failure(e)
    case Success(t) => Success(ImageLines(t.deployment))
  }

  function ContainerSection(ts: seq<Template>): Result<seq<YamlLine>>
  {
    match Next(ts, DeploymentClass)
    case Failure(e) => Failure(e)
    case Success(t) => Success(ContainerLines(t.deployment))
  }

  function IngressSection(ts: seq<Template>): Result<seq<YamlLine>>
  {
    match Next(ts, IngressClass)
    case Failure(e) => Failure(e)
    case Success(t) => Success(IngressLines(t.ingress))
  }

  function ExtraVarsSection(ts: seq<Template>): Result<seq<YamlLine>>
  {
    match Next(ts, DeploymentClass)
    case Failure(e) => Failure(e)
    case Success(t) => Success(ExtraVarsLines(t.deployment.extraEnvVars))
  }

  /** The OAuth, database, NoSQL and cache builders: the section of the first template of the class. */
  function OptionalSection(ts: seq<Template>, c: Class): Result<seq<YamlLine>>
  {
    match Next(ts, c)
    case Failure(e) => Failure(e)
    case Success(t) => Success(SectionOf(t))
  }

  function NoSQLSection(ts: seq<Template>): Result<seq<YamlLine>> { OptionalSection(ts, NoSQLClass) }
  function CacheSection(ts: seq<Template>): Result<seq<YamlLine>> { OptionalSection(ts, RedisClass) }

  /** The pieces `values.yaml` receives, one per section, and how the writer ends. */
  datatype Run = Run(written: seq<string>, outcome: Outcome)

  /** `f.write(builder())`: nothing happens after a failure; a builder that raises writes nothing. */
  function Then(r: Run, s: Result<seq<YamlLine>>): Run
  {
    if r.outcome.Fail? then r
    else match s
      case Success(ls) => Run(r.written + [Yaml(ls)], Pass)
      case Failure(e) => Run(r.written, Fail(e))
  }

  function ThenIf(r: Run, c: bool, s: Result<seq<YamlLine>>): Run
  {
    if c then Then(r, s) else r
  }

  /** The message `f.write(None)` raises. */
  const WriteNoneMessage: string := "write() argument must be str, not None"

  /** The five sections every chart has, read from its first Deployment and its first Ingress. */
  function BaseRun(ts: seq<Template>): Run
  {
    Then(Then(Then(Then(Then(Run([], Pass),
      ReplicasSection(ts)), ImageSection(ts)), ContainerSection(ts)), IngressSection(ts)), ExtraVarsSection(ts))
  }

  /** The sections written only when the chart has a template of their class. */
  function OptionalRun(r: Run, ts: seq<Template>): Run
  {
    var r := ThenIf(r, Any(ts, OAuthClass), OptionalSection(ts, OAuthClass));
    var r := ThenIf(r, Any(ts, DatabaseClass), OptionalSection(ts, DatabaseClass));
    var r := ThenIf(r, Any(ts, NoSQLClass), OptionalSection(ts, NoSQLClass));
    ThenIf(r, Any(ts, RedisClass), OptionalSection(ts, RedisClass))
  }

  /** `write_values_yaml`, as the pieces it writes and how it ends. */
  function ValuesRun(ts: seq<Template>): Run
  {
    var r := OptionalRun(BaseRun(ts), ts);
    if Any(ts, ThirdPartyClass) && r.outcome.Pass? then Run(r.written, Fail(TypeError(WriteNoneMessage))) else r
  }

  /** The section of the first template of class `c`, when there is one. */
  function Optional(ts: seq<Template>, c: Class): seq<string>
  {
    match Next(ts, c)
    case Failure(_) => []
    case Success(t) => [Yaml(SectionOf(t))]
  }

  /** An optional section never fails: it is written exactly when the chart has a template of its class. */
  lemma OptionalStep(r: Run, ts: seq<Template>, c: Class)
    requires r.outcome.Pass?
    ensures ThenIf(r, Any(ts, c), OptionalSection(ts, c)) == Run(r.written + Optional(ts, c), Pass)
  {
    NextFailsIffNone(ts, c);
  }

  lemma OptionalRunPasses(r: Run, ts: seq<Template>)
    requires r.outcome.Pass?
    ensures OptionalRun(r, ts) ==
              Run(r.written + Optional(ts, OAuthClass) + Optional(ts, DatabaseClass) + Optional(ts, NoSQLClass) + Optional(ts, RedisClass), Pass)
  {
    OptionalStep(r, ts, OAuthClass);
    var r1 := Run(r.written + Optional(ts, OAuthClass), Pass);
    OptionalStep(r1, ts, DatabaseClass);
    var r2 := Run(r1.written + Optional(ts, DatabaseClass), Pass);
    OptionalStep(r2, ts, NoSQLClass);
    var r3 := Run(r2.written + Optional(ts, NoSQLClass), Pass);
    OptionalStep(r3, ts, RedisClass);
  }

  lemma OptionalRunFailed(r: Run, ts: seq<Template>)
    requires r.outcome.Fail?
    ensures OptionalRun(r, ts) == r
  {
  }

  /** The five sections every chart has fail exactly when there is no Deployment or no Ingress. */
  lemma BaseRunOutcome(ts: seq<Template>)
    ensures BaseRun(ts).outcome.Fail? <==> !Any(ts, DeploymentClass) || !Any(ts, IngressClass)
    ensures BaseRun(ts).outcome.Fail? ==> BaseRun(ts).outcome == Fail(StopIteration)
  {
    NextFailsIffNone(ts, DeploymentClass);
    NextFailsIffNone(ts, IngressClass);
  }

  /**
   * Writing `values.yaml` raises `StopIteration` exactly when the chart has no Deployment
   * or no Ingress; otherwise it raises `TypeError` exactly when the chart has a
   * third-party service, and succeeds when it has none.
   */
  lemma ValuesOutcome(ts: seq<Template>)
    ensures ValuesRun(ts).outcome ==
              if !Any(ts, DeploymentClass) || !Any(ts, IngressClass) then Fail(StopIteration)
              else if Any(ts, ThirdPartyClass) then Fail(TypeError(WriteNoneMessage))
              else Pass
  {
    BaseRunOutcome(ts);
    if BaseRun(ts).outcome.Fail? {
      OptionalRunFailed(BaseRun(ts), ts);
    } else {
      OptionalRunPasses(BaseRun(ts), ts);
    }
  }

  /** Without a Deployment the first builder raises, and `values.yaml` is left empty. */
  lemma ValuesWithoutDeployment(ts: seq<Template>)
    requires !Any(ts, DeploymentClass)
    ensures ValuesRun(ts) == Run([], Fail(StopIteration))
  {
    NextFailsIffNone(ts, DeploymentClass);
    OptionalRunFailed(BaseRun(ts), ts);
  }

  /** With a Deployment but no Ingress, the replicas, image and container sections are written before the Ingress builder raises. */
  lemma ValuesWithoutIngress(ts: seq<Template>, d: Deployment)
    requires Next(ts, DeploymentClass) == Success(DeploymentT(d)) && !Any(ts, IngressClass)
    ensures ValuesRun(ts) == Run([Yaml(ReplicasLines(d)), Yaml(ImageLines(d)), Yaml(ContainerLines(d))], Fail(StopIteration))
  {
    NextFailsIffNone(ts, IngressClass);
    OptionalRunFailed(BaseRun(ts), ts);
  }

  lemma DeploymentRun(ts: seq<Template>, d: Deployment)
    requires Next(ts, DeploymentClass) == Success(DeploymentT(d))
    ensures Then(Then(Then(Run([], Pass), ReplicasSection(ts)), ImageSection(ts)), ContainerSection(ts))
            == Run([Yaml(ReplicasLines(d)), Yaml(ImageLines(d)), Yaml(ContainerLines(d))], Pass)
  {
  }

  lemma BaseRunLayout(ts: seq<Template>, d: Deployment, i: IngressTemplate.Ingress)
    requires Next(ts, DeploymentClass) == Success(DeploymentT(d)) && Next(ts, IngressClass) == Success(IngressT(i))
    ensures BaseRun(ts) ==
              Run([Yaml(ReplicasLines(d)), Yaml(ImageLines(d)), Yaml(ContainerLines(d)), Yaml(IngressLines(i)),
                   Yaml(ExtraVarsLines(d.extraEnvVars))], Pass)
  {
    DeploymentRun(ts, d);
  }

  /**
   * With both, `values.yaml` holds the replicas, image, container, Ingress and extra
   * variable sections of the first Deployment and Ingress, then the OAuth, database,
   * NoSQL and cache sections of the first template of each class the chart has; the
   * third-party section is never written.
   */
  lemma ValuesLayout(ts: seq<Template>, d: Deployment, i: IngressTemplate.Ingress)
    requires Next(ts, DeploymentClass) == Success(DeploymentT(d)) && Next(ts, IngressClass) == Success(IngressT(i))
    ensures ValuesRun(ts).written ==
              [Yaml(ReplicasLines(d)), Yaml(ImageLines(d)), Yaml(ContainerLines(d)), Yaml(IngressLines(i)),
               Yaml(ExtraVarsLines(d.extraEnvVars))]
              + Optional(ts, OAuthClass) + Optional(ts, DatabaseClass) + Optional(ts, NoSQLClass) + Optional(ts, RedisClass)
  {
    BaseRunLayout(ts, d, i);
    OptionalRunPasses(BaseRun(ts), ts);
  }
}
