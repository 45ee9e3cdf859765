/**
 * The relational database (`Database`): connection settings for the app and for the
 * `postgres-controller` operator, and the `PostgresDatabase` resource that asks the
 * operator to create the database.
 */
module DatabaseTemplate {
  import opened Text
  import opened Wrappers
  import opened Files
  import opened Resources

  /** The operator's copies carry the operator's namespace in their file names. */
  function OperatorSuffix(): string { "-postgres-controller" }

  function OperatorCredentialsPath(): string
  {
    TemplatePath("db-credentials-config-map" + OperatorSuffix())
  }
  function CredentialsPath(): string { TemplatePath("db-credentials-config-map") }
  function OperatorPasswordPath(): string { TemplatePath("db-password-secret" + OperatorSuffix()) }
  function PasswordPath(): string { TemplatePath("db-password-secret") }
  function CrdPath(): string { TemplatePath("database") }

  /** The five files, in the order `Database.write` opens them. */
  function Paths(): seq<string>
  {
    [OperatorCredentialsPath(), CredentialsPath(), OperatorPasswordPath(), PasswordPath(), CrdPath()]
  }

  /** The condition on the operator's copies and on the database resource. */
  function Creates(): string
  {
    And(Eq(".Values.database.type", "postgres"), ".Values.database.create")
  }

  function CredentialsName(): string { Named("db-credentials") }
  function PasswordName(): string { Named("db-password") }

  function OperatorNamespace(): string { Ln(I1 + "namespace: postgres-controller") }
  function Opaque(): string { Ln("type: Opaque") }

  /** The keys the `PostgresDatabase` resource reads, in order: name, role name, role password. */
  function CrdRefs(): seq<Ref>
  {
    [ Ref(ConfigMap, CredentialsName(), "db-name"),
      Ref(ConfigMap, CredentialsName(), "db-user"),
      Ref(Secret, PasswordName(), "password") ]
  }

  /** `envFrom: <kind>KeyRef: - name … namespace … key …` under one field of the resource's spec. */
  function RefBlock(field: string, r: Ref): seq<string>
  {
    [ Ln(I1 + field + ":"),
      Ln(I2 + "envFrom:"),
      Ln(I3 + (if r.kind == ConfigMap then "configMapKeyRef:" else "secretKeyRef:")),
      Ln(I4 + "- name: " + r.name),
      Ln(I5 + "namespace: postgres-controller"),
      Ln(I5 + "key: " + r.key) ]
  }

  function InstanceIdCond(): string { Ln("{{- if " + ".Values.database.instance_id" + " }}") }
  function InstanceIdLine(): string
  {
    Ln(I1 + "dbInstanceId: " + ValuesRef("database.instance_id"))
  }

  /** A `Database` template. The Python constructor's defaults are the field defaults here. */
  datatype Database = Database(name: string, host: string, user: string, password: string,
                               create: bool := true, port: int := 5432, instanceId: string := "")
  {
    /** `self.type`: the only relational database supported. */
    function Type(): string { "postgres" }

    /** `db-port` is the configured port, or `"5432"` when none is configured. */
    function PortEntries(): seq<DataLine>
    {
      IfElse(".Values.database.port", [Entry("db-port", QuoteRef("database.port"))],
             [Entry("db-port", "\"5432\"")])
    }

    function CredentialsData(): seq<DataLine>
    {
      [ Entry("db-host", ValuesRef("database.host")),
        Entry("db-name", ValuesRef("database.name")),
        Entry("db-user", ValuesRef("database.user")) ] + PortEntries()
    }

    function PasswordData(): seq<DataLine> { [Entry("password", B64Ref("database.password"))] }

    /** The ConfigMap for the operator's namespace, under `Creates()`. */
    function OperatorCredentials(): Manifest
    {
      Manifest(Some(Creates()), ConfigMap, CredentialsName(), [OperatorNamespace()], CredentialsData(), [EndLine])
    }

    /** The ConfigMap in the app's namespace, written whatever the settings. */
    function Credentials(): Manifest
    {
      Manifest(None, ConfigMap, CredentialsName(), [], CredentialsData(), [])
    }

    function OperatorPassword(): Manifest
    {
      Manifest(Some(Creates()), Secret, PasswordName(), [OperatorNamespace(), Opaque()], PasswordData(), [EndLine])
    }

    function Password(): Manifest
    {
      Manifest(None, Secret, PasswordName(), [Opaque()], PasswordData(), [])
    }

    /** The `PostgresDatabase` resource. */
    function Crd(): (doc: seq<string>)
      ensures |doc| == 29
    {
      [ GateLine(Creates()),
        Ln("apiVersion: postgresql.org/v1"),
        Ln("kind: PostgresDatabase"),
        Ln("metadata:"),
        NameLine(Named("db")),
        Ln(I1 + "namespace: " + Namespace),
        Ln("spec:") ]
      + RefBlock("dbName", CrdRefs()[0]) + RefBlock("dbRoleName", CrdRefs()[1]) + RefBlock("dbRolePassword", CrdRefs()[2])
      + [ InstanceIdCond(), InstanceIdLine(), Ln("{{- end }}"), EndLine ]
    }

    /**
     * The credentials ConfigMap declares exactly db-host, db-name, db-user and db-port
     * (db-port once in each branch of its conditional).
     */
    lemma CredentialsKeys(r: Ref)
      ensures KeysOf(CredentialsData()) == ["db-host", "db-name", "db-user", "db-port", "db-port"]
      ensures Declares(Credentials(), r) <==>
                r.kind == ConfigMap && r.name == CredentialsName() && r.key in {"db-host", "db-name", "db-user", "db-port"}
      ensures Declares(OperatorCredentials(), r) <==> Declares(Credentials(), r)
    {
      var first := [ Entry("db-host", ValuesRef("database.host")),
                     Entry("db-name", ValuesRef("database.name")),
                     Entry("db-user", ValuesRef("database.user")) ];
      KeysOfAppend(first, PortEntries());
      IfElseKeys(".Values.database.port", [Entry("db-port", QuoteRef("database.port"))],
                 [Entry("db-port", "\"5432\"")]);
    }

    /** The password Secrets hold the single key `password`, base64-encoded. */
    lemma PasswordKeys(r: Ref)
      ensures KeysOf(PasswordData()) == ["password"] && PasswordData()[0].value == B64Ref("database.password")
      ensures Declares(Password(), r) <==> r == Ref(Secret, PasswordName(), "password")
      ensures Declares(OperatorPassword(), r) <==> Declares(Password(), r)
    {
    }

    /** Without a configured port, `db-port` falls back to the PostgreSQL default, quoted. */
    lemma PortFallback()
      ensures PortEntries()[0] == Directive("{{- if " + ".Values.database.port" + " }}")
      ensures PortEntries()[1] == Entry("db-port", QuoteRef("database.port"))
      ensures PortEntries()[2] == Directive("{{- else }}") && PortEntries()[3] == Entry("db-port", "\"5432\"")
      ensures |PortEntries()| == 5 && PortEntries()[4] == Directive("{{- end }}")
    {
    }

    /** The operator's copies and the resource sit under `Creates()`; the app's copies are always rendered. */
    lemma Gating()
      ensures Gated(Render(OperatorCredentials()), Creates()) && Gated(Render(OperatorPassword()), Creates())
      ensures Gated(Crd(), Creates())
      ensures !Gated(Render(Credentials()), Creates()) && !Gated(Render(Password()), Creates())
      ensures OperatorNamespace() in Render(OperatorCredentials()) && OperatorNamespace() in Render(OperatorPassword())
    {
      RenderGated(OperatorCredentials(), Creates());
      RenderGated(OperatorPassword(), Creates());
      RenderUngated(Credentials(), Creates());
      RenderUngated(Password(), Creates());
    }

    /**
     * Every key the resource reads exists in the operator-namespace copy it names, and the
     * resource's text names that document and key.
     */
    lemma CrdRefsResolve(r: Ref)
      requires r in CrdRefs()
      ensures Declares(OperatorCredentials(), r) || Declares(OperatorPassword(), r)
      ensures Ln(I4 + "- name: " + r.name) in Crd() && Ln(I5 + "key: " + r.key) in Crd()
    {
      var doc := Crd();
      var i :| 0 <= i < 3 && CrdRefs()[i] == r;
      CredentialsKeys(r);
      PasswordKeys(r);
      assert doc[7 + 6 * i + 3] == Ln(I4 + "- name: " + r.name);
      assert doc[7 + 6 * i + 5] == Ln(I5 + "key: " + r.key);
    }

    /**
     * `dbInstanceId` is written between `{{- if .Values.database.instance_id }}` and its
     * `{{- end }}`, so it is rendered only when an instance id is configured.
     */
    lemma InstanceIdConditional()
      ensures Crd()[25] == InstanceIdCond() && Crd()[26] == InstanceIdLine() && Crd()[27] == Ln("{{- end }}")
      ensures forall j :: 0 <= j < |Crd()| && j != 26 ==> Crd()[j] != InstanceIdLine()
    {
      var doc := Crd();
      forall j | 0 <= j < |doc| && j != 26 ensures doc[j] != InstanceIdLine() {
        assert InstanceIdLine()[2] == 'd';
        if 7 <= j < 25 {
          var b := (j - 7) / 6;
          assert doc[j] == RefBlock(["dbName", "dbRoleName", "dbRolePassword"][b], CrdRefs()[b])[(j - 7) % 6];
        }
      }
    }

    /** `Database.write`: the five files, in order; no other file changes. */
    method Write(fs: FileStore)
      modifies fs
      ensures fs.files == old(fs.files)[OperatorCredentialsPath() := Render(OperatorCredentials())]
                                       [CredentialsPath() := Render(Credentials())]
                                       [OperatorPasswordPath() := Render(OperatorPassword())]
                                       [PasswordPath() := Render(Password())]
                                       [CrdPath() := Crd()]
      ensures fs.openOrder == old(fs.openOrder) + Paths()
    {
      fs.WriteFile(OperatorCredentialsPath(), Render(OperatorCredentials()));
      fs.WriteFile(CredentialsPath(), Render(Credentials()));
      fs.WriteFile(OperatorPasswordPath(), Render(OperatorPassword()));
      fs.WriteFile(PasswordPath(), Render(Password()));
      fs.WriteFile(CrdPath(), Crd());
    }
  }
}
