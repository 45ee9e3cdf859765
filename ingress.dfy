/** The app's Ingress (`templates/ingress.yaml`). */
module IngressTemplate {
  import opened Text
  import opened Files
  import opened Resources

  /** An `Ingress` template; the hostname is only read when `values.yaml` is written. */
  datatype Ingress = Ingress(hostname: string)

  function Path(): string { TemplatePath("ingress") }

  /** The condition the whole document sits under. */
  function Enabled(): string { ".Values.ingress.enabled" }

  /** The line naming the Service that receives the traffic, and the line giving its port. */
  function BackendName(): string { Ln(I6 + "name: " + Release) }
  function BackendPort(): string { Ln(I7 + "number: 80") }

  function HostLine(): string { Ln(I1 + "- host: " + ValuesRef("ingress.host")) }
  function ClassLine(): string { Ln(I1 + "ingressClassName: " + ValuesRef("ingress.class")) }

  /** The routing rules: one host, one `/` prefix path, sent to the app's Service on port 80. */
  function Rules(): (r: seq<string>)
    ensures |r| == 12 && r[2] == HostLine()
    ensures r[5] == Ln(I3 + "- path: /") && r[6] == Ln(I4 + "pathType: Prefix")
    ensures r[9] == BackendName() && r[10] == Ln(I6 + "port:") && r[11] == BackendPort()
  {
    [ Ln("spec:"),
      Ln(I1 + "rules:"),
      HostLine(),
      Ln(I2 + "http:"),
      Ln(I3 + "paths:"),
      Ln(I3 + "- path: /"),
      Ln(I4 + "pathType: Prefix"),
      Ln(I4 + "backend:"),
      Ln(I5 + "service:"),
      BackendName(),
      Ln(I6 + "port:"),
      BackendPort() ]
  }

  /** The pieces `Ingress.write` puts in the file; the closing `{{- end -}}` has no newline. */
  function Doc(): (doc: seq<string>)
    ensures |doc| == 21 && Gated(doc, Enabled())
    ensures doc[3] == Ln("metadata:") && doc[4] == NameLine(Release)
    ensures doc[7..19] == Rules() && doc[19] == ClassLine()
  {
    [ GateLine(Enabled()),
      Ln("apiVersion: " + "networking.k8s.io/v1"),
      Ln("kind: Ingress"),
      Ln("metadata:"),
      NameLine(Release),
      Ln(I1 + "annotations:"),
      Ln(I2 + "nginx.ingress.kubernetes.io" + "/rewrite-target: /") ]
    + Rules() + [ClassLine(), EndPiece]
  }

  /** `Ingress.write`: replaces `templates/ingress.yaml` and touches no other file. */
  method Write(fs: FileStore)
    modifies fs
    ensures fs.files == old(fs.files)[Path() := Doc()] && fs.openOrder == old(fs.openOrder) + [Path()]
  {
    fs.WriteFile(Path(), Doc());
  }
}
