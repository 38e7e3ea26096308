/**
 * Work products of a team session and the collection that gathers them.
 * Writing to disk is abstracted: a `Disk` value says whether creating the
 * target directory fails, what cleaned base name a name reduces to, how a
 * directory and a name join into a path, and whether writing that path
 * fails.
 */
module Artifacts {
  import opened Results
  import opened Text

  const CodeKind: string := "code"
  const DocumentKind: string := "document"
  const ConfigKind: string := "config"
  const TestKind: string := "test"
  const OtherKind: string := "other"

  /** The zero time.Time as RFC 3339 text, for artifacts built without a creation time. */
  const ZeroTime: string := "0001-01-01T00:00:00Z"

  /** An artifact; `createdAt` is its creation time already formatted, `path` is set once saved. */
  datatype Artifact = Artifact(
    name: string,
    kind: string,
    content: string,
    description: string,
    createdBy: string,
    createdAt: string,
    path: string)

  /** NewArtifact: not yet saved. */
  function NewArtifact(name: string, kind: string, content: string, description: string, createdBy: string, now: string): (a: Artifact)
    ensures a.path == "" && a.name == name && a.kind == kind && a.content == content
    ensures a.description == description && a.createdBy == createdBy && a.createdAt == now
  {
    Artifact(name, kind, content, description, createdBy, now, "")
  }

  /**
   * filepath.Ext: the suffix from the last dot of the final path element,
   * or "" when that element has no dot.
   */
  function Ext(name: string): (r: string)
    ensures r == "" || (r[0] == '.' && HasSuffix(name, r) && '/' !in r && '.' !in r[1..])
    ensures r == "" ==> forall i | 0 <= i < |name| && '/' !in name[i..] :: name[i] != '.'
  {
    if |name| == 0 || name[|name| - 1] == '/' then ""
    else if name[|name| - 1] == '.' then
      assert name[|name| - 1..][1..] == [];
      name[|name| - 1..]
    else
      var r := Ext(name[..|name| - 1]);
      if r == "" then
        assert forall i | 0 <= i < |name| - 1 && '/' !in name[i..] :: '/' !in name[..|name| - 1][i..] by {
          forall i | 0 <= i < |name| - 1 && '/' !in name[i..] ensures '/' !in name[..|name| - 1][i..] {
            assert name[..|name| - 1][i..] == name[i..|name| - 1];
            assert forall c | c in name[i..|name| - 1] :: c in name[i..];
          }
        }
        ""
      else
        var r' := r + [name[|name| - 1]];
        assert r'[1..] == r[1..] + [name[|name| - 1]];
        r'
  }

  predicate HasSuffix(s: string, t: string)
  {
    |t| <= |s| && s[|s| - |t|..] == t
  }

  /** GetExtension: by kind; code keeps the name's own extension, or .txt without one. */
  function GetExtension(a: Artifact): (r: string)
    ensures a.kind == DocumentKind ==> r == ".md"
    ensures a.kind == ConfigKind ==> r == ".yaml"
    ensures a.kind == TestKind ==> r == "_test.go"
    ensures a.kind == CodeKind ==> r == (if Ext(a.name) != "" then Ext(a.name) else ".txt")
    ensures a.kind !in {CodeKind, DocumentKind, ConfigKind, TestKind} ==> r == ".txt"
  {
    if a.kind == CodeKind then (if Ext(a.name) != "" then Ext(a.name) else ".txt")
    else if a.kind == DocumentKind then ".md"
    else if a.kind == ConfigKind then ".yaml"
    else if a.kind == TestKind then "_test.go"
    else ".txt"
  }

  /** The file-system behaviour Save depends on. */
  datatype Disk = Disk(
    mkdirError: string -> Option<string>,
    cleanBase: string -> string,
    join: (string, string) -> string,
    writeError: string -> Option<string>)

  /** A cleaned base name Save refuses. */
  predicate InvalidBase(b: string)
  {
    b == "." || b == ".." || b == ""
  }

  /**
   * Save: create the directory, reject a name whose cleaned base is ".",
   * ".." or "" before writing anything, write, and record the path.
   */
  function Save(a: Artifact, dir: string, disk: Disk): (r: Result<Artifact>)
    ensures disk.mkdirError(dir).Some? ==> r == Failure("creating directory: " + disk.mkdirError(dir).value)
    ensures disk.mkdirError(dir).None? && InvalidBase(disk.cleanBase(a.name)) ==>
              r == Failure("invalid artifact name: " + a.name)
    ensures r.Success? <==>
              disk.mkdirError(dir).None? && !InvalidBase(disk.cleanBase(a.name))
              && disk.writeError(disk.join(dir, disk.cleanBase(a.name))).None?
    ensures r.Success? ==> r.value == a.(path := disk.join(dir, disk.cleanBase(a.name)))
  {
    match disk.mkdirError(dir)
    case Some(e) => Failure("creating directory: " + e)
    case None =>
      var safeName := disk.cleanBase(a.name);
      if InvalidBase(safeName) then Failure("invalid artifact name: " + a.name)
      else
        var path := disk.join(dir, safeName);
        match disk.writeError(path)
        case Some(e) => Failure("writing file: " + e)
        case None => Success(a.(path := path))
  }

  /** The artifacts of one kind, in order. */
  function OfKind(arts: seq<Artifact>, kind: string): (r: seq<Artifact>)
    ensures |r| <= |arts|
    ensures forall a | a in r :: a.kind == kind && a in arts
  {
    if |arts| == 0 then []
    else OfKind(arts[..|arts| - 1], kind) + (if arts[|arts| - 1].kind == kind then [arts[|arts| - 1]] else [])
  }

  /** Every artifact of the kind is kept. */
  lemma {:induction false} OfKindComplete(arts: seq<Artifact>, kind: string)
    ensures forall a | a in arts && a.kind == kind :: a in OfKind(arts, kind)
  {
    if |arts| > 0 {
      OfKindComplete(arts[..|arts| - 1], kind);
      assert forall a | a in arts :: a in arts[..|arts| - 1] || a == arts[|arts| - 1];
    }
  }

  /** One Summary line: name, kind, and the path when saved. */
  function SummaryLine(a: Artifact): string
  {
    "  - " + a.name + " (" + a.kind + ")" + (if a.path != "" then " -> " + a.path else "") + "\n"
  }

  function SummaryLines(arts: seq<Artifact>): string
  {
    if |arts| == 0 then "" else SummaryLines(arts[..|arts| - 1]) + SummaryLine(arts[|arts| - 1])
  }

  /** Summary: "No artifacts", or a count header and one line per artifact. */
  function SummaryOf(arts: seq<Artifact>): (r: string)
    ensures |arts| == 0 <==> r == "No artifacts"
  {
    if |arts| == 0 then "No artifacts"
    else
      var header := NatToString(|arts|) + " artifacts:\n";
      assert (header + SummaryLines(arts))[|NatToString(|arts|)|] == ' ';
      header + SummaryLines(arts)
  }

  /** Labelled lines, each label followed by its value and a newline. */
  function Lines(pairs: seq<(string, string)>): string
  {
    if |pairs| == 0 then "" else pairs[0].0 + pairs[0].1 + "\n" + Lines(pairs[1..])
  }

  /** One manifest block: heading, type, description, author, time, the path when saved, a blank line. */
  function ManifestEntry(a: Artifact): string
  {
    Lines([("### ", a.name), ("- **Type:** ", a.kind), ("- **Description:** ", a.description),
           ("- **Created By:** ", a.createdBy), ("- **Created At:** ", a.createdAt)]
          + (if a.path != "" then [("- **Path:** ", a.path)] else []))
    + "\n"
  }

  function ManifestEntries(arts: seq<Artifact>): string
  {
    if |arts| == 0 then "" else ManifestEntries(arts[..|arts| - 1]) + ManifestEntry(arts[|arts| - 1])
  }

  lemma ManifestEntriesStep(arts: seq<Artifact>, i: nat)
    requires i < |arts|
    ensures ManifestEntries(arts[..i + 1]) == ManifestEntries(arts[..i]) + ManifestEntry(arts[i])
  {
    assert arts[..i + 1][..i] == arts[..i];
  }

  /** The manifest's fixed opening, with the generation time. */
  function ManifestHeader(now: string): string
  {
    "# Artifact Manifest\n\n" + "Generated: " + now + "\n\n" + "## Artifacts\n\n"
  }

  class ArtifactCollection {
    var artifacts: seq<Artifact>
    const baseDir: string

    constructor (baseDir: string)
      ensures artifacts == [] && this.baseDir == baseDir
    {
      artifacts := [];
      this.baseDir := baseDir;
    }

    /** Add: the artifact goes at the end. */
    method Add(a: Artifact)
      modifies this
      ensures artifacts == old(artifacts) + [a]
    {
      artifacts := artifacts + [a];
    }

    function List(): (r: seq<Artifact>)
      reads this
      ensures r == artifacts
    {
      artifacts
    }

    /** GetByType: the filter loop. */
    method GetByType(kind: string) returns (r: seq<Artifact>)
      ensures r == OfKind(artifacts, kind)
    {
      r := [];
      var i := 0;
      while i < |artifacts|
        invariant 0 <= i <= |artifacts|
        invariant r == OfKind(artifacts[..i], kind)
      {
        assert artifacts[..i + 1][..i] == artifacts[..i];
        if artifacts[i].kind == kind {
          r := r + [artifacts[i]];
        }
        i := i + 1;
      }
      assert artifacts[..i] == artifacts;
    }

    /** Summary: the accumulation loop. */
    method Summary() returns (s: string)
      ensures s == SummaryOf(artifacts)
    {
      if |artifacts| == 0 {
        return "No artifacts";
      }
      s := NatToString(|artifacts|) + " artifacts:\n";
      var i := 0;
      while i < |artifacts|
        invariant 0 <= i <= |artifacts|
        invariant s == NatToString(|artifacts|) + " artifacts:\n" + SummaryLines(artifacts[..i])
      {
        assert artifacts[..i + 1][..i] == artifacts[..i];
        s := s + SummaryLine(artifacts[i]);
        i := i + 1;
      }
      assert artifacts[..i] == artifacts;
    }

    /** GenerateManifest: a document artifact by "system" listing every artifact; `now` is the formatted clock. */
    method GenerateManifest(now: string) returns (m: Artifact)
      ensures m == NewArtifact("MANIFEST.md", DocumentKind, ManifestHeader(now) + ManifestEntries(artifacts),
                               "Artifact manifest", "system", now)
    {
      var content := ManifestHeader(now);
      var i := 0;
      while i < |artifacts|
        invariant 0 <= i <= |artifacts|
        invariant content == ManifestHeader(now) + ManifestEntries(artifacts[..i])
      {
        ManifestEntriesStep(artifacts, i);
        content := content + ManifestEntry(artifacts[i]);
        i := i + 1;
      }
      assert artifacts[..i] == artifacts;
      m := NewArtifact("MANIFEST.md", DocumentKind, content, "Artifact manifest", "system", now);
    }

    /**
     * SaveAll: fails before saving anything without a base directory;
     * otherwise saves in order and stops at the first failure, leaving the
     * artifacts saved so far with their paths and the rest untouched.
     */
    method SaveAll(disk: Disk) returns (err: Option<string>)
      modifies this
      ensures baseDir == "" ==> err == Some("no base directory set") && artifacts == old(artifacts)
      ensures |artifacts| == |old(artifacts)|
      ensures baseDir != "" && err.None? ==>
                forall i | 0 <= i < |artifacts| :: Save(old(artifacts)[i], baseDir, disk) == Success(artifacts[i])
      ensures baseDir != "" && err.Some? ==>
                exists k | 0 <= k < |artifacts| ::
                  (forall i | 0 <= i < k :: Save(old(artifacts)[i], baseDir, disk) == Success(artifacts[i]))
                  && Save(old(artifacts)[k], baseDir, disk).Failure?
                  && err == Some("saving " + old(artifacts)[k].name + ": " + Save(old(artifacts)[k], baseDir, disk).error)
                  && artifacts[k..] == old(artifacts)[k..]
    {
      if baseDir == "" {
        return Some("no base directory set");
      }
      var i := 0;
      while i < |artifacts|
        invariant 0 <= i <= |artifacts| == |old(artifacts)|
        invariant forall j | 0 <= j < i :: Save(old(artifacts)[j], baseDir, disk) == Success(artifacts[j])
        invariant artifacts[i..] == old(artifacts)[i..]
      {
        assert artifacts[i] == old(artifacts)[i..][0];
        var r := Save(artifacts[i], baseDir, disk);
        if r.Failure? {
          return Some("saving " + artifacts[i].name + ": " + r.error);
        }
        artifacts := artifacts[i := r.value];
        i := i + 1;
        assert artifacts[i..] == old(artifacts)[i..] by {
          assert forall j | i <= j < |artifacts| :: artifacts[j] == old(artifacts)[j];
        }
      }
      return None;
    }
  }
}
