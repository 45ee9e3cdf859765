/**
 * The app's secrets vault: a HashiCorp Vault the chart can run itself (`HashicorpVault`),
 * or an Azure Key Vault it only connects to (`AzureKeyVault`). Both describe the vault to
 * the app through the same Secret, `{{ .Release.Name }}-vault-secret`.
 */
module VaultTemplate {
  import opened Wrappers
  import opened Text
  import opened Files
  import opened Resources

  function IngressPath(): string { TemplatePath("vault-ingress") }
  function ServicePath(): string { TemplatePath("vault-service") }
  function ClaimPath(): string { TemplatePath("vault-role-vars-persistent-volume-claim") }
  function DeploymentPath(): string { TemplatePath("vault-deployment") }
  function SecretPath(): string { TemplatePath("vault-hashicorp-secret") }
  function KeyVaultPath(): string { TemplatePath("vault-keyvault-secret") }

  /** The five files `HashicorpVault.write` writes, in order. */
  function Paths(): seq<string>
  {
    [IngressPath(), ServicePath(), ClaimPath(), DeploymentPath(), SecretPath()]
  }

  /** The name of the vault's Service, Deployment and pods. */
  function VaultName(): string { Named("vault") }
  function ClaimName(): string { Named("vault-role-vars") }
  function SecretName(): string { Named("vault-secret") }

  function Created(): string { ".Values.vault.create.enabled" }
  function IngressEnabled(): string { ".Values.vault.create.ingress.enabled" }
  function RunsHashicorp(): string { And(Created(), Eq(".Values.vault.type", "hashicorp")) }
  function UsesHashicorp(): string
  {
    And(".Values.vault.enabled", Eq(".Values.vault.type", "hashicorp"))
  }
  function UsesAzure(): string { And(".Values.vault.enabled", Eq(".Values.vault.type", "azure")) }

  function AppLabel(): string { "app: " + VaultName() }

  /** A `HashicorpVault` template. The Python constructor's defaults are the field defaults here. */
  datatype HashicorpVault = HashicorpVault(create: bool := true, image: Option<map<string, string>> := None,
                                           hostname: Option<string> := None, port: int := 8200,
                                           storageClass: Option<string> := None, storageSize: string := "512Mi")
  {
    /** The vault type handed to the `SecretsVault` parent. */
    function VaultType(): string { "hashicorp" }

    /** `write_ingress`: outside traffic for the vault's host goes to its Service, port 80. */
    function Ingress(): (doc: seq<string>)
      ensures |doc| == 21 && Gated(doc, IngressEnabled())
      ensures doc[17] == Ln(I7 + "name: " + VaultName()) && doc[19] == Ln(I8 + "number: 80")
    {
      [ GateLine(IngressEnabled()),
        Ln("apiVersion: " + "networking.k8s.io/v1"),
        Ln("kind: Ingress"),
        Ln("metadata:"),
        NameLine(Named("vault-ingress")),
        Ln(I1 + "labels:"),
        Ln(I2 + AppLabel()),
        Ln("spec:"),
        Ln(I1 + "ingressClassName: " + "nginx"),
        Ln(I1 + "rules:"),
        Ln(I2 + "- host: " + ValuesRef("vault.create.ingress.host")) ]
      + [ Ln(I3 + "http:"),
          Ln(I4 + "paths:"),
          Ln(I4 + "- path: /"),
          Ln(I5 + "pathType: Prefix"),
          Ln(I5 + "backend:"),
          Ln(I6 + "service:"),
          Ln(I7 + "name: " + VaultName()),
          Ln(I7 + "port:"),
          Ln(I8 + "number: 80"),
          EndPiece ]
    }

    /** `write_service`: port 80 of `{{ .Release.Name }}-vault` forwards to the vault's port 8200. */
    function Service(): (doc: seq<string>)
      ensures |doc| == 15 && Gated(doc, Created())
      ensures doc[4] == NameLine(VaultName()) && doc[9] == Ln(I2 + AppLabel())
      ensures doc[12] == Ln(I3 + "port: 80") && doc[13] == Ln(I3 + "targetPort: 8200")
    {
      [ GateLine(Created()),
        Ln("apiVersion: v1"),
        Ln("kind: Service"),
        Ln("metadata:"),
        NameLine(VaultName()),
        Ln(I1 + "labels:"),
        Ln(I2 + AppLabel()),
        Ln("spec:"),
        Ln(I1 + "selector:"),
        Ln(I2 + AppLabel()),
        Ln(I1 + "ports:"),
        Ln(I2 + "- protocol: TCP"),
        Ln(I3 + "port: 80"),
        Ln(I3 + "targetPort: 8200"),
        EndPiece ]
    }

    /** `write_role_vars_persistent_volume_claim`. */
    function Claim(): (doc: seq<string>)
      ensures |doc| == 15 && Gated(doc, Created()) && doc[4] == NameLine(ClaimName())
    {
      [ GateLine(Created()),
        Ln("apiVersion: v1"),
        Ln("kind: " + "PersistentVolumeClaim"),
        Ln("metadata:"),
        NameLine(ClaimName()),
        Ln(I1 + "labels:"),
        Ln(I2 + AppLabel()),
        Ln("spec:"),
        Ln(I1 + "storageClassName: " + ValuesRef("vault.create.storage.storageClass")),
        Ln(I1 + "accessModes:"),
        Ln(I2 + "- ReadWriteMany"),
        Ln(I1 + "resources:"),
        Ln(I2 + "requests:"),
        Ln(I3 + "storage: " + ValuesRef("vault.create.storage.size")),
        EndPiece ]
    }

    /** The Deployment's metadata and pod labels, up to `containers:`. */
    function DeploymentHead(): (h: seq<string>)
      ensures |h| == 18 && h[0] == GateLine(RunsHashicorp()) && h[15] == Ln(I4 + AppLabel())
    {
      [ GateLine(RunsHashicorp()),
        Ln("apiVersion: apps/v1"),
        Ln("kind: Deployment"),
        Ln("metadata:"),
        NameLine(VaultName()),
        Ln(I1 + "labels:"),
        Ln(I2 + AppLabel()),
        Ln("spec:"),
        Ln(I1 + "replicas: 1"),
        Ln(I1 + "selector:"),
        Ln(I2 + "matchLabels:"),
        Ln(I3 + AppLabel()),
        Ln(I1 + "template:"),
        Ln(I2 + "metadata:"),
        Ln(I3 + "labels:"),
        Ln(I4 + AppLabel()),
        Ln(I2 + "spec:"),
        Ln(I3 + "containers:") ]
    }

    /** The vault container: image, the ports 8200 and 8201, its environment and mounts. */
    function Container(): (c: seq<string>)
      ensures |c| == 23 && c[3] == Ln(I4 + "- containerPort: 8200")
      ensures c[19] == Ln(I4 + "- name: vault-role-vars")
    {
      [ Ln(I3 + "- name: " + VaultName()),
        Ln(I4 + "image: " + ValuesRef("vault.create.image.repository") + ":" + ValuesRef("vault.create.image.tag")),
        Ln(I4 + "ports:"),
        Ln(I4 + "- containerPort: 8200"),
        Ln(I4 + "- containerPort: 8201"),
        Ln(I4 + "env:"),
        Ln(I4 + "- name: VAULT_ADDR"),
        Ln(I5 + "value: " + "http://0.0.0.0:8200"),
        Ln(I4 + "- name: " + "ROLE_ID_SECRET_NAME"),
        Ln(I5 + "value: VAULT_ROLE_ID"),
        Ln(I4 + "- name: " + "SECRET_ID_SECRET_NAME"),
        Ln(I5 + "value: " + "VAULT_SECRET_ID") ]
      + [ Ln(I4 + "volumeMounts:"),
          Ln(I4 + "- name: vault-data"),
          Ln(I5 + "mountPath: " + "/vault/data"),
          Ln(I4 + "- name: vault-log"),
          Ln(I5 + "mountPath: " + "/vault/logs"),
          Ln(I4 + "- name: vault-creds"),
          Ln(I5 + "mountPath: " + "/vault/creds"),
          Ln(I4 + "- name: vault-role-vars"),
          Ln(I5 + "mountPath: " + "/role_vars"),
          Ln(I4 + "capAdd:"),
          Ln(I4 + "- IPC_LOCK") ]
    }

    /** The pod's volumes; the role variables live on the claim `write_role_vars_persistent_volume_claim` makes. */
    function Volumes(): (v: seq<string>)
      ensures |v| == 11 && v[7] == Ln(I3 + "- name: vault-role-vars") && v[9] == Ln(I5 + "claimName: " + ClaimName())
      ensures v[10] == EndPiece
    {
      [ Ln(I3 + "volumes:"),
        Ln(I3 + "- name: vault-data"),
        Ln(I4 + "emptyDir: {}"),
        Ln(I3 + "- name: vault-log"),
        Ln(I4 + "emptyDir: {}"),
        Ln(I3 + "- name: vault-creds"),
        Ln(I4 + "emptyDir: {}"),
        Ln(I3 + "- name: vault-role-vars"),
        Ln(I4 + "persistentVolumeClaim:"),
        Ln(I5 + "claimName: " + ClaimName()),
        EndPiece ]
    }

    /** `write_deployment`. */
    function Deployment(): (doc: seq<string>)
      ensures |doc| == 52 && Gated(doc, RunsHashicorp())
    {
      DeploymentHead() + Container() + Volumes()
    }

    /** The comments ahead of `vault-name` when the chart runs the vault. */
    function CreatedNameNotes(): seq<DataLine>
    {
      [ Directive("# Because we create " + "the Hashicorp Vault " + "instance as part of " + "the Helm chart, "),
        Directive("# we can use the " + "name of the created " + "resource (utilizing " + "k8s built-in " + "container " + "connections)"),
        Directive("# to connect to the " + "Vault instance " + "without having to " + "hard-code the Vault " + "name.") ]
    }
    /** The comments ahead of `vault-port` when the chart runs the vault. */
    function CreatedPortNotes(): seq<DataLine>
    {
      [ Directive("# Because we create " + "the Hashicorp Vault " + "instance as part of " + "the Helm chart,"),
        Directive("# We know the port " + "that the Vault " + "instance is running " + "on.") ]
    }
    function ExternalNameNotes(): seq<DataLine>
    {
      [ Directive("# Because the Vault " + "wasn't created as " + "part of the Helm " + "chart,"),
        Directive("# we need the " + "deployer to specify " + "the name of the " + "Vault instance to " + "connect to.") ]
    }
    function ExternalPortNotes(): seq<DataLine>
    {
      [ Directive("# Because the Vault " + "wasn't created as " + "part of the Helm " + "chart,"),
        Directive("# we need the " + "deployer to specify " + "the port that the " + "Vault instance is " + "running on.") ]
    }

    /** The vault's coordinates when the chart runs it: its Service's name and port. */
    function CreatedEntries(): seq<DataLine>
    {
      CreatedNameNotes() + [Entry("vault-name", "{{ printf \"%s-vault\" " + ".Release.Name | b64enc }}")]
      + CreatedPortNotes() + [Entry("vault-port", "{{ printf \"%d\" 80 " + "| b64enc }}")]
    }

    /** The vault's coordinates when it runs elsewhere: read from the values (the port from `passVault`). */
    function ExternalEntries(): seq<DataLine>
    {
      ExternalNameNotes() + [Entry("vault-name", B64Ref("vault.vaultName"))]
      + ExternalPortNotes() + [Entry("vault-port", B64Ref("passVault.vaultPort"))]
    }

    /** `write_secret`. */
    function Secret(): Manifest
    {
      Manifest(Some(UsesHashicorp()), Kind.Secret, SecretName(), [Ln("type: opaque")],
               IfElse(Created(), CreatedEntries(), ExternalEntries()), [EndPiece])
    }

    /** The vault Ingress routes to the vault Service, on the port that Service listens on. */
    lemma IngressReachesService()
      ensures Ingress()[17] == Ln(I7 + "name: " + VaultName()) && Service()[4] == NameLine(VaultName())
      ensures Ingress()[19] == Ln(I8 + "number: 80") && Service()[12] == Ln(I3 + "port: 80")
    {
    }

    /** The Service forwards to 8200, the vault container's first port, and selects the Deployment's pods. */
    lemma ServiceReachesContainer()
      ensures Service()[13] == Ln(I3 + "targetPort: 8200") && Deployment()[21] == Ln(I4 + "- containerPort: 8200")
      ensures Service()[9] == Ln(I2 + AppLabel()) && Deployment()[15] == Ln(I4 + AppLabel())
    {
      assert Deployment()[18..41] == Container();
    }

    /** The claim the Deployment mounts is the one `write_role_vars_persistent_volume_claim` makes. */
    lemma ClaimMounted()
      ensures Claim()[4] == NameLine(ClaimName())
      ensures Deployment()[48] == Ln(I3 + "- name: vault-role-vars") && Deployment()[50] == Ln(I5 + "claimName: " + ClaimName())
    {
      assert Deployment()[41..52] == Volumes();
    }

    /**
     * The Secret declares `vault-name` and `vault-port` in both branches of `Created()`: inside
     * it, the vault's own release-prefixed name and port 80; outside it, values the deployer gives.
     */
    lemma SecretKeys(r: Ref)
      ensures KeysOf(Secret().data) == ["vault-name", "vault-port", "vault-name", "vault-port"]
      ensures Declares(Secret(), r) <==> r.kind == Kind.Secret && r.name == SecretName() && r.key in {"vault-name", "vault-port"}
      ensures Secret().data[0] == Directive("{{- if " + Created() + " }}")
      ensures Secret().data[4] == Entry("vault-name", "{{ printf \"%s-vault\" " + ".Release.Name | b64enc }}")
      ensures Secret().data[7] == Entry("vault-port", "{{ printf \"%d\" 80 " + "| b64enc }}")
      ensures Secret().data[11] == Entry("vault-name", B64Ref("vault.vaultName"))
      ensures Secret().data[14] == Entry("vault-port", B64Ref("passVault.vaultPort"))
    {
      NotedEntriesKeys(CreatedNameNotes(), Entry("vault-name", "{{ printf \"%s-vault\" " + ".Release.Name | b64enc }}"),
                       CreatedPortNotes(), Entry("vault-port", "{{ printf \"%d\" 80 " + "| b64enc }}"));
      NotedEntriesKeys(ExternalNameNotes(), Entry("vault-name", B64Ref("vault.vaultName")),
                       ExternalPortNotes(), Entry("vault-port", B64Ref("passVault.vaultPort")));
      IfElseKeys(Created(), CreatedEntries(), ExternalEntries());
    }

    /** `HashicorpVault.write`: ingress, service, claim, deployment and secret, in that order. */
    method Write(fs: FileStore)
      modifies fs
      ensures fs.files == old(fs.files)[IngressPath() := Ingress()][ServicePath() := Service()][ClaimPath() := Claim()]
                                       [DeploymentPath() := Deployment()][SecretPath() := Render(Secret())]
      ensures fs.openOrder == old(fs.openOrder) + Paths()
    {
      fs.WriteFile(IngressPath(), Ingress());
      fs.WriteFile(ServicePath(), Service());
      fs.WriteFile(ClaimPath(), Claim());
      fs.WriteFile(DeploymentPath(), Deployment());
      fs.WriteFile(SecretPath(), Render(Secret()));
    }
  }

  /** An `AzureKeyVault` template. */
  datatype AzureKeyVault = AzureKeyVault(name: string, clientId: string, clientSecret: string, tenantId: string)
  {
    function VaultType(): string { "azure" }

    /** `AzureKeyVault.write`: the Key Vault's identity, every value base64-encoded from `.Values.vault`. */
    function KeyVaultSecret(): Manifest
    {
      Manifest(Some(UsesAzure()), Kind.Secret, SecretName(), [Ln("type: opaque")],
               [ Entry("client-id", B64Ref("vault.clientId")),
                 Entry("client-secret", B64Ref("vault.clientSecret")),
                 Entry("name", B64Ref("vault.vaultName")),
                 Entry("tenant-id", B64Ref("vault.tenantId")) ],
               [EndPiece])
    }

    /** `AzureKeyVault.write`: its one Secret. */
    method Write(fs: FileStore)
      modifies fs
      ensures fs.files == old(fs.files)[KeyVaultPath() := Render(KeyVaultSecret())]
      ensures fs.openOrder == old(fs.openOrder) + [KeyVaultPath()]
    {
      fs.WriteFile(KeyVaultPath(), Render(KeyVaultSecret()));
    }
  }

  /** Two entries, each after its comments, declare their two keys. */
  lemma NotedEntriesKeys(n1: seq<DataLine>, e1: DataLine, n2: seq<DataLine>, e2: DataLine)
    requires forall i :: 0 <= i < |n1| ==> n1[i].Directive?
    requires forall i :: 0 <= i < |n2| ==> n2[i].Directive?
    requires e1.Entry? && e2.Entry?
    ensures KeysOf(n1 + [e1] + n2 + [e2]) == [e1.key, e2.key]
  {
    KeysOfDirectives(n1);
    KeysOfDirectives(n2);
    KeysOfAppend(n1 + [e1] + n2, [e2]);
    KeysOfAppend(n1 + [e1], n2);
    KeysOfAppend(n1, [e1]);
  }

  /**
   * The Key Vault Secret declares exactly client-id, client-secret, name and tenant-id, under
   * the same name as the HashiCorp Secret; the two are gated on different vault types.
   */
  lemma KeyVaultSecretKeys(k: AzureKeyVault, v: HashicorpVault, r: Ref)
    ensures KeysOf(k.KeyVaultSecret().data) == ["client-id", "client-secret", "name", "tenant-id"]
    ensures Declares(k.KeyVaultSecret(), r) <==>
              r.kind == Kind.Secret && r.name == SecretName() && r.key in {"client-id", "client-secret", "name", "tenant-id"}
    ensures k.KeyVaultSecret().name == v.Secret().name
    ensures Gated(Render(k.KeyVaultSecret()), UsesAzure()) && Gated(Render(v.Secret()), UsesHashicorp())
  {
    RenderGated(k.KeyVaultSecret(), UsesAzure());
    RenderGated(v.Secret(), UsesHashicorp());
  }

}
