/**
 * How the app's own manifests find each other: the Ingress sends traffic to the Service,
 * the Service selects the Deployment's pods and forwards to the container's port, and
 * `values.yaml` sets the port both of them read.
 */
module AppRouting {
  import opened Text
  import opened Resources
  import IngressTemplate
  import ServiceTemplate
  import DeploymentTemplate
  import Values

  /** The Ingress backend names the Service `{{ .Release.Name }}` and uses its port, 80. */
  lemma AppIngressReachesService()
    ensures IngressTemplate.Doc()[15] == Ln(I5 + "service:")
    ensures IngressTemplate.Doc()[16] == Ln(I6 + "name: " + Release) && ServiceTemplate.Doc()[3] == NameLine(Release)
    ensures IngressTemplate.Doc()[18] == Ln(I7 + "number: 80") && ServiceTemplate.Doc()[9] == Ln(I3 + "port: 80")
  {
    var doc := IngressTemplate.Doc();
    assert doc[7..19] == IngressTemplate.Rules();
    assert doc[16] == IngressTemplate.Rules()[9] && doc[18] == IngressTemplate.Rules()[11];
  }

  /**
   * The Service's selector holds the single label `app: {{ .Release.Name }}`, which is the
   * single label of the Deployment's pods and of the Deployment's own `matchLabels`.
   */
  lemma AppServiceSelectsPods(d: DeploymentTemplate.Deployment)
    ensures ServiceTemplate.Doc()[5..8] == [Ln(I1 + "selector:"), Ln(I2 + ReleaseLabel()), Ln(I1 + "ports:")]
    ensures DeploymentTemplate.Doc(d)[13..16] == [Ln(I3 + "labels:"), Ln(I4 + ReleaseLabel()), Ln(I2 + "spec:")]
    ensures DeploymentTemplate.Doc(d)[9..12] == [Ln(I2 + "matchLabels:"), Ln(I3 + ReleaseLabel()), Ln(I1 + "template:")]
  {
    DeploymentTemplate.DocStart(d);
    var h := DeploymentTemplate.Header();
    assert h[..17] == DeploymentTemplate.HeaderTop();
    var doc := DeploymentTemplate.Doc(d);
    assert doc[13..16] == h[13..16];
    assert doc[9..12] == h[9..12];
  }

  /**
   * The Service forwards to `.Values.container.port`, the port the Deployment's container
   * listens on, and `values.yaml` sets that key to the Deployment's port.
   */
  lemma AppServiceReachesContainer(d: DeploymentTemplate.Deployment)
    ensures ServiceTemplate.Doc()[10] == Ln(I3 + "targetPort: " + ValuesRef("container.port"))
    ensures DeploymentTemplate.Doc(d)[21] == Ln(I4 + "- containerPort: " + ValuesRef("container.port"))
    ensures Values.ContainerLines(d)[0] == Values.Key("", "container")
    ensures Values.ContainerLines(d)[2] == Values.Setting(I1, "port", IntToString(d.port))
  {
    DeploymentTemplate.DocStart(d);
    Values.DeploymentSettings(d);
  }
}
