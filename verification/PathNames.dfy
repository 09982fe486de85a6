/** Slash-separated paths: splitting, joining and lexical cleaning. */
module PathNames {
  function Slashed(s: string): string {
    seq(|s|, i requires 0 <= i < |s| => if s[i] == '\\' then '/' else s[i])
  }

  function TrimSlashes(s: string): string {
    if s == "" || s[|s| - 1] != '/' then s else TrimSlashes(s[..|s| - 1])
  }

  predicate StartsWith(s: string, prefix: string) {
    |prefix| <= |s| && s[..|prefix|] == prefix
  }

  /** The parts between slashes; never an empty list. */
  function Split(s: string): (parts: seq<string>)
    ensures parts != []
  {
    if s == "" then [""]
    else
      var rest := Split(s[1..]);
      if s[0] == '/' then [""] + rest else [[s[0]] + rest[0]] + rest[1..]
  }

  function Join(parts: seq<string>): string {
    if parts == [] then "" else if |parts| == 1 then parts[0] else parts[0] + "/" + Join(parts[1..])
  }

  predicate PlainPart(part: string) {
    part != "" && part != "." && part != ".." && '/' !in part
  }

  predicate PlainPath(path: seq<string>) {
    path != [] && forall k :: 0 <= k < |path| ==> PlainPart(path[k])
  }

  /** What is left of the parts once empty parts and dots go and each ".." takes back its predecessor. */
  function Resolved(rooted: bool, parts: seq<string>): seq<string> {
    if parts == [] then []
    else
      var kept := Resolved(rooted, parts[..|parts| - 1]);
      var part := parts[|parts| - 1];
      if part == "" || part == "." then kept
      else if part != ".." then kept + [part]
      else if kept != [] && kept[|kept| - 1] != ".." then kept[..|kept| - 1]
      else if rooted then kept
      else kept + [part]
  }

  /** Lexical cleaning: the shortest equivalent path. */
  function CleanPath(s: string): string {
    if s == "" then "."
    else
      var kept := Resolved(s[0] == '/', Split(s));
      if s[0] == '/' then "/" + Join(kept) else if kept == [] then "." else Join(kept)
  }

  /** Drops dot parts, and keeps ".." only as a leading run of a relative path. */
  ghost predicate Climbing(rooted: bool, kept: seq<string>) {
    && (forall k :: 0 <= k < |kept| ==> PlainPart(kept[k]) || (kept[k] == ".." && !rooted))
    && (forall j, k :: 0 <= j < k < |kept| && kept[k] == ".." ==> kept[j] == "..")
  }

  lemma {:induction false} SplitHasNoSlash(s: string)
    ensures forall k :: 0 <= k < |Split(s)| ==> '/' !in Split(s)[k]
  {
    if s != "" { SplitHasNoSlash(s[1..]); }
  }

  lemma {:induction false} ResolvedShape(rooted: bool, parts: seq<string>)
    requires forall k :: 0 <= k < |parts| ==> '/' !in parts[k]
    ensures Climbing(rooted, Resolved(rooted, parts))
    decreases |parts|
  {
    if parts != [] { ResolvedShape(rooted, parts[..|parts| - 1]); }
  }

  lemma {:induction false} ResolvedPlain(rooted: bool, parts: seq<string>)
    requires forall k :: 0 <= k < |parts| ==> PlainPart(parts[k])
    ensures Resolved(rooted, parts) == parts
    decreases |parts|
  {
    if parts != [] {
      ResolvedPlain(rooted, parts[..|parts| - 1]);
      assert parts == parts[..|parts| - 1] + [parts[|parts| - 1]];
    }
  }

  lemma JoinFirst(c: char, rest: seq<string>)
    requires rest != []
    ensures Join([[c] + rest[0]] + rest[1..]) == [c] + Join(rest)
  {
    var longer := [[c] + rest[0]] + rest[1..];
    assert longer[1..] == rest[1..];
    if |rest| > 1 { assert [c] + rest[0] + "/" + Join(rest[1..]) == [c] + (rest[0] + "/" + Join(rest[1..])); }
  }

  lemma {:induction false} JoinSplit(s: string)
    ensures Join(Split(s)) == s
  {
    if s != "" {
      var rest := Split(s[1..]);
      JoinSplit(s[1..]);
      if s[0] == '/' { assert ([""] + rest)[1..] == rest; } else { JoinFirst(s[0], rest); }
    }
  }

  lemma {:induction false} SplitPlain(s: string)
    requires '/' !in s
    ensures Split(s) == [s]
  {
    if s != "" {
      SplitPlain(s[1..]);
      assert [s[0]] + s[1..] == s;
    }
  }

  function Grow(parts: seq<string>, tail: string): seq<string>
    requires parts != []
  {
    parts[..|parts| - 1] + [parts[|parts| - 1] + tail]
  }

  /** Appending text without a slash only lengthens the last part. */
  lemma {:induction false} SplitExtend(s: string, tail: string)
    requires '/' !in tail
    ensures Split(s + tail) == Grow(Split(s), tail)
  {
    if s == "" {
      SplitPlain(tail);
      assert s + tail == tail;
    } else {
      assert (s + tail)[1..] == s[1..] + tail && (s + tail)[0] == s[0];
      SplitExtend(s[1..], tail);
      GrowFirst(s[0], Split(s[1..]), tail);
    }
  }

  lemma GrowFirst(c: char, rest: seq<string>, tail: string)
    requires rest != []
    ensures Grow([""] + rest, tail) == [""] + Grow(rest, tail)
    ensures var more := Grow(rest, tail);
      Grow([[c] + rest[0]] + rest[1..], tail) == [[c] + more[0]] + more[1..]
  {
    assert [c] + (rest[0] + tail) == [c] + rest[0] + tail;
  }

  lemma {:induction false} SplitSlash(s: string, tail: string)
    requires '/' !in s
    ensures Split(s + "/" + tail) == [s] + Split(tail)
    decreases |s|
  {
    var whole := s + "/" + tail;
    if s == "" {
      assert whole[1..] == tail;
    } else {
      assert whole[1..] == s[1..] + "/" + tail;
      SplitSlash(s[1..], tail);
      assert [s[0]] + s[1..] == s;
    }
  }

  lemma {:induction false} SplitJoin(parts: seq<string>)
    requires parts != [] && forall k :: 0 <= k < |parts| ==> '/' !in parts[k]
    ensures Split(Join(parts)) == parts
    decreases |parts|
  {
    if |parts| == 1 {
      SplitExtend("", parts[0]);
      assert "" + parts[0] == parts[0];
    } else {
      SplitSlash(parts[0], Join(parts[1..]));
      SplitJoin(parts[1..]);
      assert [parts[0]] + parts[1..] == parts;
    }
  }

  /** Cleaning leaves a path of plain parts as it is. */
  lemma CleanPlain(s: string)
    requires PlainPath(Split(s))
    ensures CleanPath(s) == s && s != "" && s[0] != '/'
  {
    ResolvedPlain(false, Split(s));
    JoinSplit(s);
    assert PlainPart(Split(s)[0]);
  }

  lemma FirstShows(kept: seq<string>)
    requires kept != [] && kept[0] == ".."
    ensures Join(kept) == ".." || StartsWith(Join(kept), "../")
  {
    if |kept| > 1 { assert Join(kept)[..3] == "../"; }
  }

  /** A cleaned path that neither is nor starts with ".." has no ".." part anywhere. */
  lemma CleanNeverClimbs(s: string)
    requires CleanPath(s) != ".." && !StartsWith(CleanPath(s), "../")
    ensures ".." !in Split(CleanPath(s))
  {
    if s == "" { return; }
    var rooted := s[0] == '/';
    var kept := Resolved(rooted, Split(s));
    SplitHasNoSlash(s);
    ResolvedShape(rooted, Split(s));
    if kept == [] {
      assert CleanPath(s) == (if rooted then "/" else ".");
      assert Split("/") == [""] + Split("");
      assert Split(".") == [['.'] + ""] + [] by { assert "."[1..] == ""; }
    } else {
      if kept[0] == ".." { FirstShows(kept); }
      assert ".." !in kept;
      SplitJoin(kept);
      if rooted { assert ("/" + Join(kept))[1..] == Join(kept); }
    }
  }

  /** Backslashes become slashes and nothing else changes. */
  lemma SlashedExact(s: string)
    ensures |Slashed(s)| == |s| && forall k :: 0 <= k < |s| ==> Slashed(s)[k] == if s[k] == '\\' then '/' else s[k]
  {
  }

  /** Only slashes at the end go. */
  lemma {:induction false} TrimSlashesExact(s: string)
    ensures TrimSlashes(s) <= s && forall k :: |TrimSlashes(s)| <= k < |s| ==> s[k] == '/'
    ensures TrimSlashes(s) != "" ==> TrimSlashes(s)[|TrimSlashes(s)| - 1] != '/'
  {
    if s != "" && s[|s| - 1] == '/' { TrimSlashesExact(s[..|s| - 1]); }
  }

  /** Empty parts and dots add nothing, a plain part is kept, and ".." takes it back. */
  lemma ResolvedLaws(rooted: bool, parts: seq<string>, part: string)
    ensures Resolved(rooted, parts + [""]) == Resolved(rooted, parts)
    ensures Resolved(rooted, parts + ["."]) == Resolved(rooted, parts)
    ensures PlainPart(part) ==> Resolved(rooted, parts + [part]) == Resolved(rooted, parts) + [part]
    ensures PlainPart(part) ==> Resolved(rooted, parts + [part] + [".."]) == Resolved(rooted, parts)
    ensures Resolved(rooted, parts) == [] ==> Resolved(rooted, parts + [".."]) == if rooted then [] else [".."]
  {
    assert (parts + [""])[..|parts|] == parts && (parts + ["."])[..|parts|] == parts;
    assert (parts + [part])[..|parts|] == parts && (parts + [".."])[..|parts|] == parts;
    assert (parts + [part] + [".."])[..|parts| + 1] == parts + [part];
    assert (Resolved(rooted, parts) + [part])[..|Resolved(rooted, parts)|] == Resolved(rooted, parts);
  }
}
