/**
 * What the rendered Kubernetes documents say about each other: the release-
 * prefixed names, the ConfigMaps and Secrets that hold the app's settings, the
 * keys other documents read from them, and the `{{- if … -}}` conditionals
 * wrapped around whole documents.
 */
module Resources {
  import opened Wrappers
  import opened Text

  /** The Helm release name placeholder every resource name starts from. */
  const Release: string := "{{ .Release.Name }}"

  /** The label the app's Deployment gives its pods and the app's Service selects them by. */
  function ReleaseLabel(): string { "app: " + Release }

  /** `{{ .Release.Name }}-<suffix>`. */
  function Named(suffix: string): string { Release + "-" + suffix }

  /** `{{ .Values.<path> }}`, a reference into `values.yaml`. */
  function ValuesRef(path: string): string { "{{ .Values." + path + " }}" }

  /** `{{ .Values.<path> | b64enc }}`, the form Secret data takes. */
  function B64Ref(path: string): string { "{{ .Values." + path + " | b64enc }}" }

  /** `{{ .Values.<path> | quote }}`. */
  function QuoteRef(path: string): string { "{{ .Values." + path + " | quote }}" }

  /** `{{ .Values.<path> | default "<d>" }}`. */
  function DefaultRef(path: string, d: string): string { "{{ .Values." + path + " | default \"" + d + "\" }}" }

  /** `{{ .Release.Namespace }}`. */
  const Namespace: string := "{{ .Release.Namespace }}"

  /** `templates/<file>.yaml`, where the writers put every chart document. */
  function TemplatePath(file: string): string { "templates/" + file + ".yaml" }

  /** A path under the chart's `templates/` folder. */
  predicate IsTemplateFile(path: string)
  {
    StartsWith(path, "templates/")
  }

  lemma TemplatePathIsTemplateFile(file: string)
    ensures IsTemplateFile(TemplatePath(file))
  {
    assert TemplatePath(file)[..10] == "templates/";
  }

  /** The template conditions `and (a) (b)` and `eq a "b"`. */
  function And(a: string, b: string): string { "and (" + a + ") (" + b + ")" }
  function Eq(a: string, b: string): string { "eq " + a + " \"" + b + "\"" }

  datatype Kind = ConfigMap | Secret

  function KindName(k: Kind): string
  {
    match k
    case ConfigMap => "ConfigMap"
    case Secret => "Secret"
  }

  /** One key of a named ConfigMap or Secret, as an env binding names it. */
  datatype Ref = Ref(kind: Kind, name: string, key: string)

  const DataHeader: string := Ln("data:")

  function KindLine(k: Kind): string { Ln("kind: " + KindName(k)) }

  function NameLine(name: string): string { Ln(I1 + "name: " + name) }

  /** The opening and closing lines of a document-wide conditional. */
  function GateLine(cond: string): string { Ln("{{- if " + cond + " -}}") }
  const EndLine: string := Ln("{{- end -}}")
  /** The closing line as the writers that omit the final newline leave it. */
  const EndPiece: string := "{{- end -}}"

  /** The whole document is wrapped in `{{- if <cond> -}}` … `{{- end -}}`. */
  predicate Gated(doc: seq<string>, cond: string)
  {
    |doc| >= 2 && doc[0] == GateLine(cond) && doc[|doc| - 1] in {EndLine, EndPiece}
  }

  /** A line of a `data:` block: a `key: value` entry, or a comment or template directive. */
  datatype DataLine = Entry(key: string, value: string) | Directive(text: string)

  function RenderLine(d: DataLine): string
  {
    match d
    case Entry(key, value) => Ln(I1 + key + ": " + value)
    case Directive(text) => Ln(I1 + text)
  }

  function RenderData(ds: seq<DataLine>): (lines: seq<string>)
    ensures |lines| == |ds|
    ensures forall i :: 0 <= i < |ds| ==> lines[i] == RenderLine(ds[i])
  {
    seq(|ds|, i requires 0 <= i < |ds| => RenderLine(ds[i]))
  }

  /** `{{- if <cond> }}` … `{{- else }}` … `{{- end }}` inside a data block. */
  function IfElse(cond: string, yes: seq<DataLine>, no: seq<DataLine>): seq<DataLine>
  {
    [Directive("{{- if " + cond + " }}")] + yes + [Directive("{{- else }}")] + no + [Directive("{{- end }}")]
  }

  /** The keys a `data:` block defines, in order (both branches of a conditional count). */
  function KeysOf(ds: seq<DataLine>): seq<string>
  {
    if ds == [] then []
    else (if ds[0].Entry? then [ds[0].key] else []) + KeysOf(ds[1..])
  }

  /** A key is listed exactly when some entry of the block defines it. */
  lemma {:induction false} KeysOfMember(ds: seq<DataLine>, k: string)
    ensures k in KeysOf(ds) <==> exists v :: Entry(k, v) in ds
  {
    if ds != [] {
      KeysOfMember(ds[1..], k);
      assert forall d :: d in ds <==> d == ds[0] || d in ds[1..];
    }
  }

  lemma {:induction false} KeysOfAppend(a: seq<DataLine>, b: seq<DataLine>)
    ensures KeysOf(a + b) == KeysOf(a) + KeysOf(b)
  {
    if a != [] {
      assert (a + b)[1..] == a[1..] + b;
      KeysOfAppend(a[1..], b);
    } else {
      assert a + b == b;
    }
  }

  /** A block of entries only declares their keys, in order. */
  lemma {:induction false} KeysOfEntries(ds: seq<DataLine>)
    requires forall i :: 0 <= i < |ds| ==> ds[i].Entry?
    ensures KeysOf(ds) == seq(|ds|, i requires 0 <= i < |ds| => ds[i].key)
  {
    if ds != [] {
      KeysOfEntries(ds[1..]);
    }
  }

  /** Comments and template directives declare no key. */
  lemma {:induction false} KeysOfDirectives(ds: seq<DataLine>)
    requires forall i :: 0 <= i < |ds| ==> ds[i].Directive?
    ensures KeysOf(ds) == []
  {
    if ds != [] {
      KeysOfDirectives(ds[1..]);
    }
  }

  /** A conditional declares the keys of both of its branches; its directives declare none. */
  lemma IfElseKeys(cond: string, yes: seq<DataLine>, no: seq<DataLine>)
    ensures KeysOf(IfElse(cond, yes, no)) == KeysOf(yes) + KeysOf(no)
  {
    BranchKeys(Directive("{{- if " + cond + " }}"), yes, Directive("{{- else }}"), no, Directive("{{- end }}"));
  }

  /** Two blocks separated by three directives declare the keys of the two blocks. */
  lemma BranchKeys(d1: DataLine, yes: seq<DataLine>, d2: DataLine, no: seq<DataLine>, d3: DataLine)
    requires d1.Directive? && d2.Directive? && d3.Directive?
    ensures KeysOf([d1] + yes + [d2] + no + [d3]) == KeysOf(yes) + KeysOf(no)
  {
    var a := [d1] + yes;
    var b := a + [d2];
    var c := b + no;
    DirectiveKeys(d1);
    DirectiveKeys(d2);
    DirectiveKeys(d3);
    KeysOfAppend([d1], yes);
    assert KeysOf(a) == KeysOf(yes);
    KeysOfAppend(a, [d2]);
    assert KeysOf(b) == KeysOf(yes);
    KeysOfAppend(b, no);
    KeysOfAppend(c, [d3]);
  }

  /** A single directive declares no key. */
  lemma DirectiveKeys(d: DataLine)
    requires d.Directive?
    ensures KeysOf([d]) == []
  {
    assert [d][1..] == [];
  }

  /**
   * A ConfigMap or Secret document: an optional document-wide condition, the kind
   * and name, the metadata and `type:` lines after the name, the `data:` block, and
   * the lines after it.
   */
  datatype Manifest = Manifest(gate: Option<string>, kind: Kind, name: string,
                               meta: seq<string>, data: seq<DataLine>, tail: seq<string>)

  /** The lines before the data entries: condition, kind, name, metadata, `data:`. */
  function Preamble(m: Manifest): seq<string>
  {
    (if m.gate.Some? then [GateLine(m.gate.value)] else [])
    + [Ln("apiVersion: v1"), KindLine(m.kind), Ln("metadata:"), NameLine(m.name)]
    + m.meta + [DataHeader]
  }

  /** The lines the writer puts in the file. */
  function Render(m: Manifest): seq<string>
  {
    Preamble(m) + RenderData(m.data) + m.tail
  }

  /** The document provides the key another document reads. */
  predicate Declares(m: Manifest, r: Ref)
  {
    m.kind == r.kind && m.name == r.name && r.key in KeysOf(m.data)
  }

  /** A declaration is visible in the written text: kind line, name line and entry line. */
  lemma RenderShowsDeclaration(m: Manifest, r: Ref, v: string)
    requires m.kind == r.kind && m.name == r.name && Entry(r.key, v) in m.data
    ensures Declares(m, r)
    ensures KindLine(r.kind) in Render(m) && NameLine(r.name) in Render(m)
    ensures Ln(I1 + r.key + ": " + v) in Render(m)
  {
    KeysOfMember(m.data, r.key);
    var i :| 0 <= i < |m.data| && m.data[i] == Entry(r.key, v);
    var pre := Preamble(m);
    assert Render(m) == pre + RenderData(m.data) + m.tail;
    assert Render(m)[|pre| + i] == RenderLine(m.data[i]);
  }

  /** A gated manifest that closes its conditional renders as a gated document. */
  lemma RenderGated(m: Manifest, cond: string)
    requires m.gate == Some(cond) && m.tail != [] && m.tail[|m.tail| - 1] in {EndLine, EndPiece}
    ensures Gated(Render(m), cond)
  {
  }

  /** An ungated manifest starts with its `apiVersion` line and is not gated. */
  lemma RenderUngated(m: Manifest, cond: string)
    requires m.gate == None
    ensures Render(m)[0] == Ln("apiVersion: v1") && !Gated(Render(m), cond)
  {
    assert GateLine(cond)[0] == '{';
  }
}
