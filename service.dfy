/** The app's Service (`templates/service.yaml`). */
module ServiceTemplate {
  import opened Text
  import opened Files
  import opened Resources

  function Path(): string { TemplatePath("service") }

  /** The selector line: pods labelled `app: {{ .Release.Name }}` receive the traffic. */
  function Selector(): string { Ln(I2 + ReleaseLabel()) }

  function Doc(): (doc: seq<string>)
    ensures |doc| == 11
    ensures doc[1] == Ln("kind: Service") && doc[3] == NameLine(Release)
    ensures doc[4] == Ln("spec:") && doc[5] == Ln(I1 + "selector:") && doc[6] == Selector() && doc[7] == Ln(I1 + "ports:")
    ensures doc[8] == Ln(I2 + "- protocol: TCP") && doc[9] == Ln(I3 + "port: 80")
    ensures doc[10] == Ln(I3 + "targetPort: " + ValuesRef("container.port"))
  {
    [ Ln("apiVersion: v1"),
      Ln("kind: Service"),
      Ln("metadata:"),
      Ln(I1 + "name: " + Release),
      Ln("spec:"),
      Ln(I1 + "selector:"),
      Selector(),
      Ln(I1 + "ports:"),
      Ln(I2 + "- protocol: TCP"),
      Ln(I3 + "port: 80"),
      Ln(I3 + "targetPort: " + ValuesRef("container.port")) ]
  }

  /** `Service.write`. */
  method Write(fs: FileStore)
    modifies fs
    ensures fs.files == old(fs.files)[Path() := Doc()] && fs.openOrder == old(fs.openOrder) + [Path()]
  {
    fs.WriteFile(Path(), Doc());
  }
}
