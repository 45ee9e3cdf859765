/**
 * NoSQL storage (`NoSQL`, and its `MongoDB` and `AzureTableStorage` variants): the
 * ConfigMap naming the app's tables, and the Azure Table Storage connection documents.
 */
module NoSQLTemplate {
  import opened Wrappers
  import opened Text
  import opened Camel
  import opened Files
  import opened Resources

  /** One entry of the `tables` dictionary: the table's name and the value `values.yaml` gives it. */
  datatype Table = Table(name: string, value: string)

  /**
   * What the variant adds to a `NoSQL`: nothing; the MongoDB settings the values document
   * reads; or the Azure storage account key.
   */
  datatype Flavour =
    | Plain
    | Mongo(replicaCount: int, tlsEnabled: bool, user: string, password: string)
    | AzureTables(key: string)

  /** A `NoSQL` template; `tables` lists the dictionary's items in insertion order. */
  datatype NoSQL = NoSQL(storageType: string, dbName: string, tables: seq<(string, Table)>,
                         create: bool := true, flavour: Flavour := Plain)

  /** `AzureTableStorage(db_name, key, tables)`: always of type `azure`, never created by the chart. */
  function AzureTableStorage(dbName: string, key: string, tables: seq<(string, Table)>): (n: NoSQL)
    ensures n.storageType == "azure" && !n.create && n.flavour == AzureTables(key)
    ensures n.dbName == dbName && n.tables == tables
  {
    NoSQL("azure", dbName, tables, false, AzureTables(key))
  }

  function TablesPath(): string { TemplatePath("storage-tables-config-map") }
  function TablesName(): string { Named("storage-tables") }

  /** The `values.yaml` path a table's entry reads: `tables.<camelCase of its name>`. */
  function TableValuesPath(t: Table): string { "tables." + CamelCase(t.name, '-') }

  /** One data entry per table, in dictionary order, keyed by the table's name. */
  function TableEntries(tables: seq<(string, Table)>): (ds: seq<DataLine>)
    ensures |ds| == |tables|
    ensures forall i :: 0 <= i < |tables| ==> ds[i] == Entry(tables[i].1.name, ValuesRef(TableValuesPath(tables[i].1)))
  {
    seq(|tables|, i requires 0 <= i < |tables| => Entry(tables[i].1.name, ValuesRef(TableValuesPath(tables[i].1))))
  }

  /** The ConfigMap `NoSQL.write` produces. */
  function StorageTables(tables: seq<(string, Table)>): Manifest
  {
    Manifest(None, ConfigMap, TablesName(), [Ln(I1 + "labels:"), Ln(I2 + "app: " + Release)], TableEntries(tables), [])
  }

  /** The table names, in dictionary order. */
  function TableNames(tables: seq<(string, Table)>): (names: seq<string>)
    ensures |names| == |tables| && forall i :: 0 <= i < |tables| ==> names[i] == tables[i].1.name
  {
    seq(|tables|, i requires 0 <= i < |tables| => tables[i].1.name)
  }

  /**
   * The ConfigMap `{{ .Release.Name }}-storage-tables` declares exactly the tables' names,
   * one per table and in order; it is not under any condition.
   */
  lemma StorageTablesDeclares(tables: seq<(string, Table)>, r: Ref)
    ensures KeysOf(StorageTables(tables).data) == TableNames(tables)
    ensures Declares(StorageTables(tables), r) <==>
              r.kind == ConfigMap && r.name == TablesName() && r.key in TableNames(tables)
    ensures StorageTables(tables).gate == None
  {
    KeysOfEntries(TableEntries(tables));
  }

  /** Each written line reads a `values.yaml` key under `tables:` that contains no `-`. */
  lemma TableValueKeys(t: Table)
    ensures TableValuesPath(t) == "tables." + CamelCase(t.name, '-')
    ensures '-' !in CamelCase(t.name, '-')
  {
    CamelDropsSeparator(t.name, '-');
  }

  /** `NoSQL.write`: the header, then one line per table, each key turned into camelCase in a loop. */
  method WriteStorageTables(fs: FileStore, tables: seq<(string, Table)>)
    modifies fs
    ensures fs.files == old(fs.files)[TablesPath() := Render(StorageTables(tables))]
    ensures fs.openOrder == old(fs.openOrder) + [TablesPath()]
  {
    var m := StorageTables(tables);
    var head := Preamble(m);
    ghost var lines := RenderData(m.data);
    fs.WriteFile(TablesPath(), head);
    assert head + lines[..0] == head;
    for i := 0 to |tables|
      invariant TablesPath() in fs.files
      invariant fs.files == old(fs.files)[TablesPath() := head + lines[..i]]
      invariant fs.openOrder == old(fs.openOrder) + [TablesPath()]
    {
      var camel := CamelCaseName(tables[i].1.name, '-');
      assert lines[i] == RenderLine(m.data[i]) == Ln(I1 + tables[i].1.name + ": " + ValuesRef("tables." + camel));
      fs.Write(TablesPath(), Ln(I1 + tables[i].1.name + ": " + ValuesRef("tables." + camel)));
      assert head + lines[..i + 1] == head + lines[..i] + [lines[i]];
    }
    assert lines[..|tables|] == lines;
    assert Render(m) == head + lines + m.tail && m.tail == [];
    assert head + lines + [] == head + lines;
  }

  /** The condition around both Azure Table Storage documents. */
  function AzureGate(): string { Eq(".Values.nosql.type", "azure") }

  function AzureConfigPath(): string { TemplatePath("azure-tables-configmap") }
  function AzureSecretPath(): string { TemplatePath("azure-tables-credentials-secret") }

  function AzureConfigName(): string { Named("azure-tables-config") }
  function AzureCredentialsName(): string { Named("azure-tables-credentials") }

  /** `AzureTableStorage.write_config_map`: the storage account's name. */
  function AzureConfig(): Manifest
  {
    Manifest(Some(AzureGate()), ConfigMap, AzureConfigName(), [], [Entry("name", ValuesRef("nosql.name"))], [EndLine])
  }

  /** `AzureTableStorage.write_secret`: the storage account's key. */
  function AzureCredentials(): Manifest
  {
    Manifest(Some(AzureGate()), Secret, AzureCredentialsName(), [Ln("type: Opaque")], [Entry("key", B64Ref("nosql.key"))], [EndLine])
  }

  /**
   * Each Azure document declares a single key, `name` and `key` respectively, and both sit
   * under `eq .Values.nosql.type "azure"`.
   */
  lemma AzureDeclares(r: Ref)
    ensures Declares(AzureConfig(), r) <==> r == Ref(ConfigMap, AzureConfigName(), "name")
    ensures Declares(AzureCredentials(), r) <==> r == Ref(Secret, AzureCredentialsName(), "key")
    ensures Gated(Render(AzureConfig()), AzureGate()) && Gated(Render(AzureCredentials()), AzureGate())
  {
    RenderGated(AzureConfig(), AzureGate());
    RenderGated(AzureCredentials(), AzureGate());
  }

  /** `AzureTableStorage.write`: the ConfigMap, then the Secret, and not the storage-tables ConfigMap. */
  method WriteAzure(fs: FileStore)
    modifies fs
    ensures fs.files == old(fs.files)[AzureConfigPath() := Render(AzureConfig())][AzureSecretPath() := Render(AzureCredentials())]
    ensures fs.openOrder == old(fs.openOrder) + [AzureConfigPath(), AzureSecretPath()]
  {
    fs.WriteFile(AzureConfigPath(), Render(AzureConfig()));
    fs.WriteFile(AzureSecretPath(), Render(AzureCredentials()));
  }
}
