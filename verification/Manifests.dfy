/** What a client may ask for, and the manifest it becomes. */
module Manifests {
  import opened Names
  import opened PathNames
  import opened Model

  /** A manifest entry as it arrives. */
  datatype RawFile = RawFile(relativePath: string, fileName: string, expectedSize: int,
                             target: Option<Id>, expectedVersion: Option<int>, hash: string)

  /** normalizeManifest; None stands for its errors. */
  function Normalized(f: RawFile): Option<Manifest> {
    var rel := Slashed(Trim(f.relativePath));
    if rel == "" || rel[0] == '/' || TrimSlashes(rel) == "" then None
    else
      var trimmed := TrimSlashes(rel);
      var clean := CleanPath(trimmed);
      var parts := Split(clean);
      var given := Trim(f.fileName);
      var name := Sanitize(if given == "" then parts[|parts| - 1] else given);
      if "" in Split(trimmed) || "." in Split(trimmed) || ".." in Split(trimmed) then None
      else if clean == "." || StartsWith(clean, "..") || name == "" || f.expectedSize < 0 then None
      else Some(Manifest(parts, name, f.expectedSize, f.target, f.expectedVersion, f.hash))
  }

  /**
   * A normalised path neither climbs nor is absolute, and spells the relative path that was sent:
   * up to surrounding space, trailing slashes and backslashes, nothing is lost.
   */
  lemma NormalizedSafe(f: RawFile)
    requires Normalized(f).Some?
    ensures PlainPath(Normalized(f).value.path)
    ensures Join(Normalized(f).value.path) == TrimSlashes(Slashed(Trim(f.relativePath)))
    ensures |Normalized(f).value.name| <= 255 && forall c :: c in Normalized(f).value.name ==> Clean(c)
    ensures var m, parts := Normalized(f).value, Split(TrimSlashes(Slashed(Trim(f.relativePath))));
      && m.path == parts
      && m.name == Sanitize(if Trim(f.fileName) == "" then parts[|parts| - 1] else Trim(f.fileName))
      && m.expected == f.expectedSize && m.target == f.target && m.expectedVersion == f.expectedVersion && m.hash == f.hash
  {
    var trimmed := TrimSlashes(Slashed(Trim(f.relativePath)));
    SplitHasNoSlash(trimmed);
    CleanPlain(trimmed);
    JoinSplit(trimmed);
    var given, parts := Trim(f.fileName), Split(trimmed);
    SanitizeSafe(if given == "" then parts[|parts| - 1] else given);
  }

  /**
   * Exactly which paths are refused: absolute or empty ones, those with an empty or dot part, and
   * those whose first part merely starts with two dots, though such a part is allowed further down.
   */
  lemma NormalizedExact(f: RawFile)
    ensures var trimmed := TrimSlashes(Slashed(Trim(f.relativePath)));
      var parts := Split(trimmed);
      var given := Trim(f.fileName);
      Normalized(f).Some? <==>
        PlainPath(parts) && !StartsWith(parts[0], "..")
        && Sanitize(if given == "" then parts[|parts| - 1] else given) != "" && f.expectedSize >= 0
  {
    var sent := Slashed(Trim(f.relativePath));
    var trimmed := TrimSlashes(sent);
    var parts := Split(trimmed);
    SplitHasNoSlash(trimmed);
    TrimSlashesFacts(sent);
    if "" !in parts && "." !in parts && ".." !in parts {
      assert PlainPath(parts);
      CleanPlain(trimmed);
      FirstPart(trimmed);
    }
  }

  lemma {:induction false} TrimSlashesFacts(s: string)
    ensures |TrimSlashes(s)| <= |s| && TrimSlashes(s) == s[..|TrimSlashes(s)|]
    ensures s != "" && s[0] == '/' ==> Split(TrimSlashes(s))[0] == ""
    decreases |s|
  {
    if s != "" && s[|s| - 1] == '/' { TrimSlashesFacts(s[..|s| - 1]); }
  }

  /** A plain path starts with two dots exactly when its first part does, and is no single dot. */
  lemma FirstPart(s: string)
    requires PlainPath(Split(s))
    ensures StartsWith(s, "..") <==> StartsWith(Split(s)[0], "..")
    ensures s != "."
  {
    JoinSplit(s);
    var parts := Split(s);
    if |parts| > 1 {
      assert s == parts[0] + "/" + Join(parts[1..]);
    }
    assert "."[1..] == "";
  }

  function Parsed(raw: seq<RawFile>): seq<Option<Manifest>> {
    seq(|raw|, k requires 0 <= k < |raw| => Normalized(raw[k]))
  }

  /** All files, or None if one is refused. */
  function Gathered(parsed: seq<Option<Manifest>>): Option<seq<Manifest>> {
    if forall k | 0 <= k < |parsed| :: parsed[k].Some?
    then Some(seq(|parsed|, k requires 0 <= k < |parsed| => parsed[k].value))
    else None
  }

  function NormalizedAll(raw: seq<RawFile>): Option<seq<Manifest>> {
    Gathered(Parsed(raw))
  }
}
