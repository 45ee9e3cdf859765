/** The OAuth settings the app reads (`templates/oauth-credentials-config-map.yaml`). */
module OAuthTemplate {
  import opened Wrappers
  import opened Text
  import opened Files
  import opened Resources
  import Camel

  /** An `OAuth` template; the five settings are stored as given and only read by `values.yaml`. */
  datatype OAuth = OAuth(baseAppUrl: string, appAbbreviation: string, appName: string,
                         serviceName: string, devPort: string)

  function Path(): string { TemplatePath("oauth-credentials-config-map") }
  function Name(): string { Named("oauth-credentials") }

  /** The data keys, in the order they are written. */
  function Keys(): seq<string>
  {
    ["base-app-url", "app-abbreviation", "app-name", "service-name", "dev-port"]
  }

  /** The ConfigMap `OAuth.write` produces. */
  function Doc(): Manifest
  {
    Manifest(None, ConfigMap, Name(), [Ln(I1 + "labels:"), Ln(I2 + "app: " + Release)],
             [ Entry("base-app-url", ValuesRef("oauth." + "baseAppUrl")),
               Entry("app-abbreviation", ValuesRef("oauth." + "appAbbreviation")),
               Entry("app-name", ValuesRef("oauth." + "appName")),
               Entry("service-name", ValuesRef("oauth." + "serviceName")),
               Entry("dev-port", QuoteRef("oauth." + "devPort")) ],
             [])
  }

  /**
   * The ConfigMap `{{ .Release.Name }}-oauth-credentials` declares exactly the
   * five keys, in that order, and is not wrapped in a conditional.
   */
  lemma DeclaresExactly(r: Ref)
    ensures KeysOf(Doc().data) == Keys()
    ensures Declares(Doc(), r) <==> r.kind == ConfigMap && r.name == Name() && r.key in Keys()
    ensures Doc().gate == None
  {
  }

  /**
   * Each value reads `.Values.oauth.<camelCase of its key>`, the naming convention of
   * `values.yaml`; only `dev-port` is piped through `quote`.
   */
  lemma ValuesReadOAuthSection()
    ensures |Doc().data| == |Keys()| == |ValuesKeys()|
    ensures forall i :: 0 <= i < |Keys()| ==> Doc().data[i].key == Keys()[i]
    ensures forall i :: 0 <= i < |Keys()| ==> Camel.CamelCase(Keys()[i], '-') == ValuesKeys()[i]
    ensures forall i :: 0 <= i < 4 ==> Doc().data[i].value == ValuesRef("oauth." + ValuesKeys()[i])
    ensures Doc().data[4].value == QuoteRef("oauth." + ValuesKeys()[4])
  {
    KeysCamelCase();
    DataReadsValuesKeys();
  }

  /** The values the data lines read, key by key. */
  lemma DataReadsValuesKeys()
    ensures forall i :: 0 <= i < 4 ==> Doc().data[i].value == ValuesRef("oauth." + ValuesKeys()[i])
    ensures Doc().data[4].value == QuoteRef("oauth." + ValuesKeys()[4])
  {
  }

  /** The `values.yaml` key of each data key is its camelCase. */
  lemma KeysCamelCase()
    ensures forall i :: 0 <= i < |Keys()| ==> Camel.CamelCase(Keys()[i], '-') == ValuesKeys()[i]
  {
    forall i | 0 <= i < |Keys()| ensures Camel.CamelCase(Keys()[i], '-') == ValuesKeys()[i] {
      KeyCamelCase(i);
    }
  }

  lemma KeyCamelCase(i: int)
    requires 0 <= i < 5
    ensures Camel.CamelCase(Keys()[i], '-') == ValuesKeys()[i]
  {
    var k := Keys()[i];
    var v := ValuesKeys()[i];
    if i == 0 {
      assert k == "base-app-url" && v == "baseAppUrl";
      Camel.CamelOfBaseAppUrl(k);
    } else if i == 1 {
      assert k == "app-abbreviation" && v == "appAbbreviation";
      Camel.CamelOfAppAbbreviation(k);
    } else if i == 2 {
      assert k == "app-name" && v == "appName";
      Camel.CamelOfAppName(k);
    } else if i == 3 {
      assert k == "service-name" && v == "serviceName";
      Camel.CamelOfServiceName(k);
    } else {
      assert k == "dev-port" && v == "devPort";
      Camel.CamelOfDevPort(k);
    }
  }

  /** The `values.yaml` keys under `oauth:` that the data values read. */
  function ValuesKeys(): seq<string>
  {
    ["baseAppUrl", "appAbbreviation", "appName", "serviceName", "devPort"]
  }

  /** `OAuth.write`. */
  method Write(fs: FileStore)
    modifies fs
    ensures fs.files == old(fs.files)[Path() := Render(Doc())] && fs.openOrder == old(fs.openOrder) + [Path()]
  {
    fs.WriteFile(Path(), Render(Doc()));
  }
}
