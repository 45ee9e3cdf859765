/** An external service the app integrates with (`ThirdPartyService`): its credentials Secret. */
module ThirdPartyTemplate {
  import opened Wrappers
  import opened Text
  import opened Camel
  import opened Files
  import opened Resources

  /** A `ThirdPartyService`; `vars` lists the keyword arguments in the order they were passed. */
  datatype ThirdPartyService = ThirdPartyService(name: string, enabled: bool, vars: seq<(string, string)>)

  function Path(name: string): string { TemplatePath(name + "-secret") }

  function SecretName(name: string): string { Named(name + "-secret") }

  /** The values switch of the service; the whole Secret sits under it. */
  function Enabled(name: string): string { ".Values.thirdParty." + name + ".enabled" }

  /** The data key for a variable: its name with `_` turned into `-`. */
  function DataKey(v: string): string { ReplaceChar(v, '_', '-') }

  /** The `values.yaml` path the variable's entry reads: `thirdParty.<service>.<camelCase on '_'>`. */
  function VarValuesPath(name: string, v: string): string { "thirdParty." + name + "." + CamelCase(v, '_') }

  function VarEntries(name: string, vars: seq<(string, string)>): (ds: seq<DataLine>)
    ensures |ds| == |vars|
    ensures forall i :: 0 <= i < |vars| ==> ds[i] == Entry(DataKey(vars[i].0), B64Ref(VarValuesPath(name, vars[i].0)))
  {
    seq(|vars|, i requires 0 <= i < |vars| => Entry(DataKey(vars[i].0), B64Ref(VarValuesPath(name, vars[i].0))))
  }

  /** The Secret `ThirdPartyService.write` produces. */
  function Doc(s: ThirdPartyService): Manifest
  {
    Manifest(Some(Enabled(s.name)), Secret, SecretName(s.name),
             [Ln(I1 + "labels:"), Ln(I2 + "app: " + Release), Ln("type: Opaque")],
             VarEntries(s.name, s.vars), [EndLine])
  }

  function DataKeys(vars: seq<(string, string)>): (keys: seq<string>)
    ensures |keys| == |vars| && forall i :: 0 <= i < |vars| ==> keys[i] == DataKey(vars[i].0)
  {
    seq(|vars|, i requires 0 <= i < |vars| => DataKey(vars[i].0))
  }

  /**
   * The Secret `{{ .Release.Name }}-<name>-secret` declares one key per variable, in order,
   * and the whole document is under `.Values.thirdParty.<name>.enabled`.
   */
  lemma DocDeclares(s: ThirdPartyService, r: Ref)
    ensures KeysOf(Doc(s).data) == DataKeys(s.vars)
    ensures Declares(Doc(s), r) <==> r.kind == Secret && r.name == SecretName(s.name) && r.key in DataKeys(s.vars)
    ensures Gated(Render(Doc(s)), Enabled(s.name))
  {
    KeysOfEntries(VarEntries(s.name, s.vars));
    RenderGated(Doc(s), Enabled(s.name));
  }

  /** Data keys hold no `_`, and the values keys they read hold no `_` either. */
  lemma KeysWithoutUnderscore(name: string, v: string)
    ensures '_' !in DataKey(v)
    ensures '_' !in CamelCase(v, '_')
  {
    CamelDropsSeparator(v, '_');
  }

  /** `ThirdPartyService.write`: the header, one line per variable, then the closing `{{- end -}}`. */
  method Write(fs: FileStore, s: ThirdPartyService)
    modifies fs
    ensures fs.files == old(fs.files)[Path(s.name) := Render(Doc(s))]
    ensures fs.openOrder == old(fs.openOrder) + [Path(s.name)]
  {
    var m := Doc(s);
    var path := Path(s.name);
    var head := Preamble(m);
    ghost var lines := RenderData(m.data);
    fs.WriteFile(path, head);
    assert head + lines[..0] == head;
    for i := 0 to |s.vars|
      invariant path in fs.files
      invariant fs.files == old(fs.files)[path := head + lines[..i]]
      invariant fs.openOrder == old(fs.openOrder) + [path]
    {
      var key := s.vars[i].0;
      var camel := CamelCaseName(key, '_');
      var piece := Ln(I1 + ReplaceChar(key, '_', '-') + ": " + B64Ref("thirdParty." + s.name + "." + camel));
      assert lines[i] == RenderLine(m.data[i]) == piece;
      fs.Write(path, piece);
      assert head + lines[..i + 1] == head + lines[..i] + [lines[i]];
    }
    fs.Write(path, EndLine);
    assert lines[..|s.vars|] == lines;
    assert Render(m) == head + lines + [EndLine];
  }
}
