/**
 * `HelmChart`: the chart's metadata and templates, and the writers that lay the chart
 * out on disk: the `templates/` folder, `Chart.yaml`, `values.yaml` and `.helmignore`,
 * and the `helm package` / `helm push` steps.
 */
module Chart {
  import opened Wrappers
  import opened Text
  import opened Files
  import opened Resources
  import opened Templates
  import opened Values

  /** One entry of the `maintainers` list: its `email` and `name`. */
  datatype Maintainer = Maintainer(email: string, name: string)

  const ChartPath: string := "Chart.yaml"
  const ValuesPath: string := "values.yaml"
  const IgnorePath: string := ".helmignore"

  /** None of the chart's own files lives under `templates/`. */
  lemma ChartFilesOutsideTemplates()
    ensures !IsTemplateFile(ChartPath) && !IsTemplateFile(ValuesPath) && !IsTemplateFile(IgnorePath)
  {
    assert ChartPath[0] != 't' && ValuesPath[1] != 'e' && IgnorePath[0] != 't';
  }

  // ---------------------------------------------------------------------------
  // Chart.yaml
  // ---------------------------------------------------------------------------

  /** The two lines of one maintainer: `  - email: E` and `    name: N`. */
  function MaintainerEntry(m: Maintainer): seq<string>
  {
    [Ln(I1 + "- email: " + m.email), Ln(I2 + "name: " + m.name)]
  }

  function MaintainerLines(ms: seq<Maintainer>): (ls: seq<string>)
    ensures |ls| == 2 * |ms|
  {
    if ms == [] then [] else MaintainerLines(ms[..|ms| - 1]) + MaintainerEntry(ms[|ms| - 1])
  }

  function SourceLine(source: string): string { Ln("- " + source) }

  function SourceLines(ss: seq<string>): (ls: seq<string>)
    ensures |ls| == |ss|
  {
    if ss == [] then [] else SourceLines(ss[..|ss| - 1]) + [SourceLine(ss[|ss| - 1])]
  }

  /** The maintainers are listed in order, two lines each. */
  lemma {:induction false} MaintainerLinesAt(ms: seq<Maintainer>, i: int)
    requires 0 <= i < |ms|
    ensures MaintainerLines(ms)[2 * i] == Ln(I1 + "- email: " + ms[i].email)
    ensures MaintainerLines(ms)[2 * i + 1] == Ln(I2 + "name: " + ms[i].name)
  {
    var n := |ms| - 1;
    if i < n {
      MaintainerLinesAt(ms[..n], i);
    }
  }

  /** The sources are listed in order, one line each. */
  lemma {:induction false} SourceLinesAt(ss: seq<string>, j: int)
    requires 0 <= j < |ss|
    ensures SourceLines(ss)[j] == SourceLine(ss[j])
  {
    var n := |ss| - 1;
    if j < n {
      SourceLinesAt(ss[..n], j);
    }
  }

  // ---------------------------------------------------------------------------
  // .helmignore
  // ---------------------------------------------------------------------------

  /** What `os.path.exists` answers for the five paths `write_helmignore` probes. */
  datatype Probes = Probes(git: bool, gitignore: bool, readme: bool, requirements: bool, script: bool)

  /** One pattern of `.helmignore`, with the comment line written before it, if any. */
  datatype IgnoreEntry = IgnoreEntry(comment: Option<string>, pattern: string)

  const SameDirectory: string := " (In case done in the same directory as code)"

  const SelfEntry: IgnoreEntry := IgnoreEntry(Some("# Ignore the ignore file"), ".helmignore")
  const TarballEntry: IgnoreEntry := IgnoreEntry(Some("# Ignore the Helm chart's packaged tarball"), "*.tgz")
  const GitEntry: IgnoreEntry := IgnoreEntry(Some("# Ignore git files" + SameDirectory), ".git")
  const GitignoreEntry: IgnoreEntry := IgnoreEntry(None, ".gitignore")
  const ReadmeEntry: IgnoreEntry := IgnoreEntry(Some("# Ignore the README file" + SameDirectory), "README.md")
  const RequirementsEntry: IgnoreEntry :=
    IgnoreEntry(Some("# Ignore the requirements file" + SameDirectory), "requirements.txt")
  const ScriptEntry: IgnoreEntry := IgnoreEntry(Some("# Ignore this file" + SameDirectory), "create-helm-chart.py")

  function OptionalEntry(present: bool, e: IgnoreEntry): seq<IgnoreEntry>
  {
    if present then [e] else []
  }

  /** The entries of `.helmignore`, in the order they are written. */
  function IgnoreEntries(p: Probes): seq<IgnoreEntry>
  {
    Layout(p, SelfEntry, TarballEntry, GitEntry, GitignoreEntry, ReadmeEntry, RequirementsEntry, ScriptEntry)
  }

  /** An entry's lines: its comment, when it has one, then its pattern. */
  function EntryLines(e: IgnoreEntry): seq<string>
  {
    match e.comment
    case Some(c) => [Ln(c), Ln(e.pattern)]
    case None => [Ln(e.pattern)]
  }

  function IgnoreLines(es: seq<IgnoreEntry>): seq<string>
  {
    if es == [] then [] else IgnoreLines(es[..|es| - 1]) + EntryLines(es[|es| - 1])
  }

  /** The lines of `.helmignore`. */
  function Helmignore(p: Probes): seq<string>
  {
    IgnoreLines(IgnoreEntries(p))
  }

  /** A line that does not start with `#` is a pattern. */
  predicate IsPattern(s: string)
  {
    |s| == 0 || s[0] != '#'
  }

  predicate CommentsMarked(es: seq<IgnoreEntry>)
  {
    forall e | e in es :: e.comment.Some? ==> !IsPattern(e.comment.value)
  }

  /** The patterns of `es`, in order. */
  function PatternsOf(es: seq<IgnoreEntry>): (ps: seq<string>)
    ensures |ps| == |es| && forall i :: 0 <= i < |es| ==> ps[i] == es[i].pattern
  {
    seq(|es|, i requires 0 <= i < |es| => es[i].pattern)
  }

  lemma PatternsOfAppend(a: seq<IgnoreEntry>, b: seq<IgnoreEntry>)
    ensures PatternsOf(a + b) == PatternsOf(a) + PatternsOf(b)
  {
    assert forall i :: 0 <= i < |a + b| ==> PatternsOf(a + b)[i] == (PatternsOf(a) + PatternsOf(b))[i];
  }

  /** Lines written for a list of entries, one after the other. */
  lemma {:induction false} IgnoreLinesAppend(a: seq<IgnoreEntry>, b: seq<IgnoreEntry>)
    ensures IgnoreLines(a + b) == IgnoreLines(a) + IgnoreLines(b)
  {
    if b == [] {
      assert a + b == a;
    } else {
      var n := |b| - 1;
      assert (a + b)[..|a + b| - 1] == a + b[..n];
      IgnoreLinesAppend(a, b[..n]);
    }
  }

  /** A pattern's line is in the file exactly when some entry carries that pattern. */
  lemma {:induction false} IgnoreLinesHold(es: seq<IgnoreEntry>, pattern: string)
    requires CommentsMarked(es) && IsPattern(pattern)
    ensures Ln(pattern) in IgnoreLines(es) <==> pattern in PatternsOf(es)
  {
    if es != [] {
      var n := |es| - 1;
      var e := es[n];
      assert forall x | x in es[..n] :: x in es;
      IgnoreLinesHold(es[..n], pattern);
      assert PatternsOf(es) == PatternsOf(es[..n]) + [e.pattern];
      var line := Ln(pattern);
      if e.comment.Some? {
        var c := Ln(e.comment.value);
        assert line != c by {
          assert c[0] == '#';
          if |pattern| > 0 {
            assert line[0] == pattern[0];
          } else {
            assert line[0] == '\n';
          }
        }
      }
      assert line == Ln(e.pattern) <==> pattern == e.pattern by {
        if line == Ln(e.pattern) {
          assert pattern == line[..|pattern|] && e.pattern == Ln(e.pattern)[..|e.pattern|];
        }
      }
    }
  }

  lemma EntriesCommentsMarked(p: Probes)
    ensures CommentsMarked(IgnoreEntries(p))
  {
  }

  /** The entries of `.helmignore`, given the seven entries it may hold. */
  function Layout(p: Probes, e0: IgnoreEntry, e1: IgnoreEntry, e2: IgnoreEntry, e3: IgnoreEntry,
                  e4: IgnoreEntry, e5: IgnoreEntry, e6: IgnoreEntry): seq<IgnoreEntry>
  {
    [e0, e1] + OptionalEntry(p.git, e2) + OptionalEntry(p.gitignore, e3)
    + OptionalEntry(p.readme, e4) + OptionalEntry(p.requirements, e5) + OptionalEntry(p.script, e6)
  }

  /** A pattern is among those of the layout exactly when its entry is always there or its probe answered yes. */
  lemma LayoutPatterns(p: Probes, pattern: string, e0: IgnoreEntry, e1: IgnoreEntry, e2: IgnoreEntry,
                       e3: IgnoreEntry, e4: IgnoreEntry, e5: IgnoreEntry, e6: IgnoreEntry)
    ensures pattern in PatternsOf(Layout(p, e0, e1, e2, e3, e4, e5, e6)) <==>
              pattern == e0.pattern || pattern == e1.pattern || (p.git && pattern == e2.pattern)
              || (p.gitignore && pattern == e3.pattern) || (p.readme && pattern == e4.pattern)
              || (p.requirements && pattern == e5.pattern) || (p.script && pattern == e6.pattern)
  {
    var a0 := [e0, e1];
    var a1 := a0 + OptionalEntry(p.git, e2);
    var a2 := a1 + OptionalEntry(p.gitignore, e3);
    var a3 := a2 + OptionalEntry(p.readme, e4);
    var a4 := a3 + OptionalEntry(p.requirements, e5);
    assert PatternsOf(a0) == [e0.pattern, e1.pattern];
    PatternsOfOptional(a0, p.git, e2, pattern);
    PatternsOfOptional(a1, p.gitignore, e3, pattern);
    PatternsOfOptional(a2, p.readme, e4, pattern);
    PatternsOfOptional(a3, p.requirements, e5, pattern);
    PatternsOfOptional(a4, p.script, e6, pattern);
  }

  lemma PatternsOfOptional(a: seq<IgnoreEntry>, present: bool, e: IgnoreEntry, pattern: string)
    ensures pattern in PatternsOf(a + OptionalEntry(present, e)) <==> pattern in PatternsOf(a) || (present && pattern == e.pattern)
  {
    PatternsOfAppend(a, OptionalEntry(present, e));
    if present {
      assert PatternsOf([e]) == [e.pattern];
    } else {
      assert PatternsOf([]) == [];
    }
  }

  /**
   * `.helmignore` always ignores itself and packaged tarballs, and ignores `.git`,
   * `.gitignore`, `README.md`, `requirements.txt` and `create-helm-chart.py` exactly
   * when they exist; it ignores no other pattern.
   */
  lemma HelmignorePatterns(p: Probes, pattern: string)
    requires IsPattern(pattern)
    ensures Ln(pattern) in Helmignore(p) <==>
              pattern == ".helmignore" || pattern == "*.tgz" || (p.git && pattern == ".git")
              || (p.gitignore && pattern == ".gitignore") || (p.readme && pattern == "README.md")
              || (p.requirements && pattern == "requirements.txt") || (p.script && pattern == "create-helm-chart.py")
  {
    EntriesCommentsMarked(p);
    IgnoreLinesHold(IgnoreEntries(p), pattern);
    LayoutPatterns(p, pattern, SelfEntry, TarballEntry, GitEntry, GitignoreEntry, ReadmeEntry, RequirementsEntry, ScriptEntry);
  }

  // ---------------------------------------------------------------------------
  // Packaging and pushing
  // ---------------------------------------------------------------------------

  const PackageCommand: seq<string> := ["helm", "package", "."]
  const PackageFailed: string := "Failed to package the Helm chart."
  const NotPackaged: string := "The Helm chart has not been packaged yet."

  /**
   * `package`: `helm package .` exits with `exitCode` (the command itself is not part of
   * this model); a nonzero code raises.
   */
  function Package(exitCode: int): (out: Outcome)
    ensures out.Pass? <==> exitCode == 0
    ensures out.Fail? ==> out.error == Exception(PackageFailed)
  {
    if exitCode != 0 then Fail(Exception(PackageFailed)) else Pass
  }

  /** The chart's metadata and its templates. The Python constructor's defaults are the field defaults here. */
  datatype HelmChart = HelmChart(chartName: string, chartDescription: string, maintainers: seq<Maintainer>,
                                 chartHomepage: string, sources: seq<string>, appVersion: string := "1.0.0",
                                 chartVersion: string := "1.0.0", apiVersion: string := "v1",
                                 templates: seq<Template> := [])
  {
    function ChartHead(): seq<string>
    {
      [ Ln("apiVersion: " + apiVersion), Ln("appVersion: \"" + appVersion + "\""),
        Ln("description: " + chartDescription), Ln("home: " + chartHomepage), Ln("maintainers:") ]
    }

    function NameLine(): string { Ln("name: " + chartName) }
    function VersionLine(): string { Ln("version: \"" + chartVersion + "\"") }

    /** The lines of `Chart.yaml`. */
    function ChartYaml(): seq<string>
    {
      ChartHead() + MaintainerLines(maintainers) + [NameLine(), Ln("sources:")] + SourceLines(sources) + [VersionLine()]
    }

    /**
     * `Chart.yaml` starts with the API and app versions, the description, the home page and
     * the maintainers, two lines each in order; then the name, the sources one line each in
     * order, and the chart version last.
     */
    lemma ChartYamlLayout()
      ensures |ChartYaml()| == 8 + 2 * |maintainers| + |sources|
      ensures ChartYaml()[0] == Ln("apiVersion: " + apiVersion) && ChartYaml()[1] == Ln("appVersion: \"" + appVersion + "\"")
      ensures ChartYaml()[4] == Ln("maintainers:")
      ensures forall i :: 0 <= i < |maintainers| ==>
                ChartYaml()[5 + 2 * i] == Ln(I1 + "- email: " + maintainers[i].email)
                && ChartYaml()[6 + 2 * i] == Ln(I2 + "name: " + maintainers[i].name)
      ensures ChartYaml()[5 + 2 * |maintainers|] == NameLine()
      ensures forall j :: 0 <= j < |sources| ==> ChartYaml()[7 + 2 * |maintainers| + j] == SourceLine(sources[j])
      ensures ChartYaml()[|ChartYaml()| - 1] == VersionLine()
    {
      var doc := ChartYaml();
      var m := MaintainerLines(maintainers);
      var s := SourceLines(sources);
      forall i | 0 <= i < |maintainers|
        ensures doc[5 + 2 * i] == Ln(I1 + "- email: " + maintainers[i].email)
        ensures doc[6 + 2 * i] == Ln(I2 + "name: " + maintainers[i].name)
      {
        MaintainerLinesAt(maintainers, i);
        assert doc[5 + 2 * i] == m[2 * i];
        assert doc[6 + 2 * i] == m[2 * i + 1];
      }
      forall j | 0 <= j < |sources| ensures doc[7 + 2 * |maintainers| + j] == SourceLine(sources[j]) {
        SourceLinesAt(sources, j);
        assert doc[7 + 2 * |maintainers| + j] == s[j];
      }
    }

    /** `write_yaml`: one `f.write` per line, looping over the maintainers and then the sources. */
    method WriteYaml(fs: FileStore)
      modifies fs
      ensures fs.files == old(fs.files)[ChartPath := ChartYaml()]
      ensures fs.openOrder == old(fs.openOrder) + [ChartPath]
    {
      fs.Open(ChartPath);
      fs.WriteAll(ChartPath, ChartHead());
      assert [] + ChartHead() == ChartHead();
      UpdateTwice(old(fs.files), ChartPath, [], ChartHead());
      assert maintainers[..0] == [] && ChartHead() + MaintainerLines([]) == ChartHead();
      for i := 0 to |maintainers|
        invariant ChartPath in fs.files && fs.openOrder == old(fs.openOrder) + [ChartPath]
        invariant fs.files == old(fs.files)[ChartPath := ChartHead() + MaintainerLines(maintainers[..i])]
      {
        ghost var before := ChartHead() + MaintainerLines(maintainers[..i]);
        assert maintainers[..i + 1][..i] == maintainers[..i] && maintainers[..i + 1][i] == maintainers[i];
        assert ChartHead() + MaintainerLines(maintainers[..i + 1]) == before + MaintainerEntry(maintainers[i]);
        UpdateTwice(old(fs.files), ChartPath, before, before + MaintainerEntry(maintainers[i]));
        fs.WriteAll(ChartPath, MaintainerEntry(maintainers[i]));
      }
      assert maintainers[..|maintainers|] == maintainers;
      ghost var head := ChartHead() + MaintainerLines(maintainers) + [NameLine(), Ln("sources:")];
      UpdateTwice(old(fs.files), ChartPath, ChartHead() + MaintainerLines(maintainers), head);
      fs.WriteAll(ChartPath, [NameLine(), Ln("sources:")]);
      assert sources[..0] == [] && head + SourceLines([]) == head;
      for j := 0 to |sources|
        invariant ChartPath in fs.files && fs.openOrder == old(fs.openOrder) + [ChartPath]
        invariant fs.files == old(fs.files)[ChartPath := head + SourceLines(sources[..j])]
      {
        ghost var before := head + SourceLines(sources[..j]);
        assert sources[..j + 1][..j] == sources[..j] && sources[..j + 1][j] == sources[j];
        assert head + SourceLines(sources[..j + 1]) == before + [SourceLine(sources[j])];
        UpdateTwice(old(fs.files), ChartPath, before, before + [SourceLine(sources[j])]);
        fs.Write(ChartPath, SourceLine(sources[j]));
      }
      assert sources[..|sources|] == sources;
      assert ChartYaml() == head + SourceLines(sources) + [VersionLine()];
      UpdateTwice(old(fs.files), ChartPath, head + SourceLines(sources), ChartYaml());
      fs.Write(ChartPath, VersionLine());
    }

    /**
     * `create_templates_folder`: `os.mkdir('templates')` fails when the folder exists;
     * otherwise every template writes its files, in list order.
     */
    method CreateTemplatesFolder(fs: FileStore, templatesExists: bool, mongo: MongoWriter) returns (out: Outcome)
      modifies fs
      ensures out.Fail? <==> templatesExists
      ensures out.Fail? ==> out.error == FileExists("templates") && fs.files == old(fs.files) && fs.openOrder == old(fs.openOrder)
      ensures out.Pass? ==> Store(fs.files, fs.openOrder) == MergeAll(Store(old(fs.files), old(fs.openOrder)), Owns(templates, mongo))
    {
      if templatesExists {
        return Fail(FileExists("templates"));
      }
      for i := 0 to |templates|
        invariant Store(fs.files, fs.openOrder) == MergeAll(Store(old(fs.files), old(fs.openOrder)), Owns(templates[..i], mongo))
      {
        OwnsSnoc(Store(old(fs.files), old(fs.openOrder)), templates, i, mongo);
        WriteTemplate(fs, templates[i], mongo);
      }
      assert templates[..|templates|] == templates;
      return Pass;
    }

    /** `write_values_yaml`: the pieces `values.yaml` receives, and how the writer ends. */
    method WriteValuesYaml(fs: FileStore) returns (out: Outcome)
      modifies fs
      ensures fs.files == old(fs.files)[ValuesPath := ValuesRun(templates).written]
      ensures fs.openOrder == old(fs.openOrder) + [ValuesPath]
      ensures out == ValuesRun(templates).outcome
    {
      fs.Open(ValuesPath);
      out := WriteBaseSections(fs, templates);
      ghost var base := BaseRun(templates);
      UpdateTwice(old(fs.files), ValuesPath, [], base.written);
      if out.Fail? {
        OptionalRunFailed(base, templates);
        return;
      }
      WriteOptionalSections(fs, base, templates);
      OptionalRunPasses(base, templates);
      UpdateTwice(old(fs.files), ValuesPath, base.written, OptionalRun(base, templates).written);
      if Any(templates, ThirdPartyClass) {
        ghost var built: seq<YamlLine>;
        var piece: Option<string>;
        piece, built := CreateThirdPartySection(templates);
        if piece.None? {
          // `f.write(None)` raises before anything reaches the file.
          out := Fail(TypeError(WriteNoneMessage));
        }
      }
    }

    /** `write_helmignore`: the fixed entries, then one entry per probed path that exists. */
    method WriteHelmignore(fs: FileStore, p: Probes)
      modifies fs
      ensures fs.files == old(fs.files)[IgnorePath := Helmignore(p)]
      ensures fs.openOrder == old(fs.openOrder) + [IgnorePath]
    {
      fs.Open(IgnorePath);
      WriteEntry(fs, old(fs.files), [], true, SelfEntry);
      assert [] + OptionalEntry(true, SelfEntry) == [SelfEntry];
      WriteEntry(fs, old(fs.files), [SelfEntry], true, TarballEntry);
      assert [SelfEntry] + OptionalEntry(true, TarballEntry) == [SelfEntry, TarballEntry];
      ghost var es: seq<IgnoreEntry> := [SelfEntry, TarballEntry];
      WriteEntry(fs, old(fs.files), es, p.git, GitEntry);
      es := es + OptionalEntry(p.git, GitEntry);
      WriteEntry(fs, old(fs.files), es, p.gitignore, GitignoreEntry);
      es := es + OptionalEntry(p.gitignore, GitignoreEntry);
      WriteEntry(fs, old(fs.files), es, p.readme, ReadmeEntry);
      es := es + OptionalEntry(p.readme, ReadmeEntry);
      WriteEntry(fs, old(fs.files), es, p.requirements, RequirementsEntry);
      es := es + OptionalEntry(p.requirements, RequirementsEntry);
      WriteEntry(fs, old(fs.files), es, p.script, ScriptEntry);
      es := es + OptionalEntry(p.script, ScriptEntry);
      assert es == IgnoreEntries(p);
    }

    /** The tarball `helm package` leaves: `<chart name>-<chart version>.tgz`. */
    function Tarball(): string { chartName + "-" + chartVersion + ".tgz" }

    /**
     * `push`: without the tarball it raises; otherwise it runs `helm push` on the tarball
     * and the `oci://` registry (the command itself is not part of this model).
     */
    function Push(registry: string, tarballExists: bool): (r: Result<seq<string>>)
      ensures r.Success? <==> tarballExists
      ensures r.Failure? ==> r.error == Exception(NotPackaged)
      ensures r.Success? ==> |r.value| == 4 && r.value[..2] == ["helm", "push"] && r.value[3] == "oci://" + registry
    {
      if !tarballExists then Failure(Exception(NotPackaged))
      else Success(["helm", "push", Tarball(), "oci://" + registry])
    }

    /** The tarball pushed is named after the `name` and `version` that `Chart.yaml` declares. */
    lemma PushedTarball(registry: string)
      ensures Push(registry, true).value[2] == chartName + "-" + chartVersion + ".tgz"
      ensures NameLine() in ChartYaml() && VersionLine() in ChartYaml()
      ensures NameLine() == Ln("name: " + chartName) && VersionLine() == Ln("version: \"" + chartVersion + "\"")
    {
      ChartYamlLayout();
      assert ChartYaml()[5 + 2 * |maintainers|] == NameLine();
    }
  }

  /** One more template's files merged into the store. */
  lemma OwnsSnoc(s: Written, ts: seq<Template>, i: int, mongo: MongoWriter)
    requires 0 <= i < |ts|
    ensures MergeAll(s, Owns(ts[..i + 1], mongo)) == Merge(MergeAll(s, Owns(ts[..i], mongo)), Own(ts[i], mongo))
  {
    var ws := Owns(ts[..i + 1], mongo);
    assert ws[..i] == Owns(ts[..i], mongo);
  }

  /**
   * Writing the templates folder leaves every file outside `templates/` as it was, and
   * opens only paths under `templates/`, provided the `MongoDB` writer does.
   */
  lemma TemplatesFolderOutside(s: Written, ts: seq<Template>, mongo: MongoWriter, p: string)
    requires MongoWellFormed(mongo) && !IsTemplateFile(p)
    ensures p in MergeAll(s, Owns(ts, mongo)).files <==> p in s.files
    ensures p in s.files ==> MergeAll(s, Owns(ts, mongo)).files[p] == s.files[p]
    ensures forall k :: |s.order| <= k < |MergeAll(s, Owns(ts, mongo)).order| ==> IsTemplateFile(MergeAll(s, Owns(ts, mongo)).order[k])
  {
    OwnsWellFormed(ts, mongo);
    MergeAllOutside(s, Owns(ts, mongo), p);
  }

  /** `f.write(builder())` for a builder whose result is `piece`. */
  method WriteSection(fs: FileStore, ghost r: Run, ghost s: Result<seq<YamlLine>>, piece: Result<string>) returns (out: Outcome)
    requires r.outcome.Pass? && piece == YamlOf(s)
    requires ValuesPath in fs.files && fs.files[ValuesPath] == r.written
    modifies fs
    ensures fs.files == old(fs.files)[ValuesPath := Then(r, s).written]
    ensures fs.openOrder == old(fs.openOrder)
    ensures out == Then(r, s).outcome
  {
    if piece.Failure? {
      assert old(fs.files)[ValuesPath := r.written] == old(fs.files);
      return Fail(piece.error);
    }
    fs.Write(ValuesPath, piece.value);
    return Pass;
  }

  /** The five sections every chart has, stopping at the first builder that raises. */
  method WriteBaseSections(fs: FileStore, ts: seq<Template>) returns (out: Outcome)
    requires ValuesPath in fs.files && fs.files[ValuesPath] == []
    modifies fs
    ensures fs.files == old(fs.files)[ValuesPath := BaseRun(ts).written]
    ensures fs.openOrder == old(fs.openOrder)
    ensures out == BaseRun(ts).outcome
  {
    ghost var r := Run([], Pass);
    out := WriteSection(fs, r, ReplicasSection(ts), YamlOf(ReplicasSection(ts)));
    r := Then(r, ReplicasSection(ts));
    if out.Fail? {
      return;
    }
    UpdateTwice(old(fs.files), ValuesPath, [], r.written);
    out := WriteSection(fs, r, ImageSection(ts), YamlOf(ImageSection(ts)));
    ghost var r0 := r;
    r := Then(r, ImageSection(ts));
    UpdateTwice(old(fs.files), ValuesPath, r0.written, r.written);
    if out.Fail? {
      return;
    }
    out := WriteSection(fs, r, ContainerSection(ts), YamlOf(ContainerSection(ts)));
    r0 := r;
    r := Then(r, ContainerSection(ts));
    UpdateTwice(old(fs.files), ValuesPath, r0.written, r.written);
    if out.Fail? {
      return;
    }
    out := WriteSection(fs, r, IngressSection(ts), YamlOf(IngressSection(ts)));
    r0 := r;
    r := Then(r, IngressSection(ts));
    UpdateTwice(old(fs.files), ValuesPath, r0.written, r.written);
    if out.Fail? {
      return;
    }
    var extra := CreateExtraVarsSection(ts);
    out := WriteSection(fs, r, ExtraVarsSection(ts), extra);
    r0 := r;
    r := Then(r, ExtraVarsSection(ts));
    UpdateTwice(old(fs.files), ValuesPath, r0.written, r.written);
  }

  /** The OAuth, database, NoSQL and cache sections, each written when the chart has a template of its class. */
  method WriteOptionalSections(fs: FileStore, ghost r: Run, ts: seq<Template>)
    requires r.outcome.Pass? && ValuesPath in fs.files && fs.files[ValuesPath] == r.written
    modifies fs
    ensures fs.files == old(fs.files)[ValuesPath := OptionalRun(r, ts).written]
    ensures fs.openOrder == old(fs.openOrder)
  {
    OptionalRunPasses(r, ts);
    ghost var w := r.written;
    WriteOptionalSection(fs, old(fs.files), w, ts, OAuthClass);
    w := w + Optional(ts, OAuthClass);
    WriteOptionalSection(fs, old(fs.files), w, ts, DatabaseClass);
    w := w + Optional(ts, DatabaseClass);
    WriteOptionalSection(fs, old(fs.files), w, ts, NoSQLClass);
    w := w + Optional(ts, NoSQLClass);
    WriteOptionalSection(fs, old(fs.files), w, ts, RedisClass);
  }

  /**
   * `if any(isinstance(t, c) for t in templates): f.write(builder())`; `base` is the store
   * before `values.yaml` received its first piece.
   */
  method WriteOptionalSection(fs: FileStore, ghost base: map<string, seq<string>>, ghost w: seq<string>,
                              ts: seq<Template>, c: Class)
    requires c in {OAuthClass, DatabaseClass, NoSQLClass, RedisClass}
    requires fs.files == base[ValuesPath := w]
    modifies fs
    ensures fs.files == base[ValuesPath := w + Optional(ts, c)]
    ensures fs.openOrder == old(fs.openOrder)
  {
    NextFailsIffNone(ts, c);
    if !Any(ts, c) {
      assert w + [] == w;
      return;
    }
    var piece: Result<string>;
    if c == NoSQLClass {
      piece := CreateNoSQLSection(ts);
    } else if c == RedisClass {
      piece := CreateCacheSection(ts);
    } else {
      piece := YamlOf(OptionalSection(ts, c));
    }
    fs.Write(ValuesPath, piece.value);
    UpdateTwice(base, ValuesPath, w, w + [piece.value]);
  }

  /**
   * `if <present>:` followed by one `.helmignore` entry: its comment line, if any, then its
   * pattern line; `base` is the store before the file was opened.
   */
  method WriteEntry(fs: FileStore, ghost base: map<string, seq<string>>, ghost es: seq<IgnoreEntry>,
                    present: bool, e: IgnoreEntry)
    requires fs.files == base[IgnorePath := IgnoreLines(es)]
    modifies fs
    ensures fs.files == base[IgnorePath := IgnoreLines(es + OptionalEntry(present, e))]
    ensures fs.openOrder == old(fs.openOrder)
  {
    IgnoreLinesAppend(es, OptionalEntry(present, e));
    if !present {
      assert IgnoreLines([]) == [];
      assert IgnoreLines(es) + [] == IgnoreLines(es);
      return;
    }
    assert [e][..0] == [];
    assert IgnoreLines([e]) == EntryLines(e);
    var before := IgnoreLines(es);
    match e.comment {
      case Some(c) =>
        fs.Write(IgnorePath, Ln(c));
        UpdateTwice(base, IgnorePath, before, before + [Ln(c)]);
        fs.Write(IgnorePath, Ln(e.pattern));
        assert before + [Ln(c)] + [Ln(e.pattern)] == before + EntryLines(e);
        UpdateTwice(base, IgnorePath, before + [Ln(c)], before + EntryLines(e));
      case None =>
        fs.Write(IgnorePath, Ln(e.pattern));
        UpdateTwice(base, IgnorePath, before, before + EntryLines(e));
    }
  }
}
