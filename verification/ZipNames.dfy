/** The names under which a folder's files go into an archive. */
module ZipNames {
  import opened Names
  import opened PathNames
  import M = Model

  const TRIES: nat := 10_000

  /** A file of the tree query: its path below the folder, and what it holds. */
  datatype Item = Item(path: string, key: string, size: nat)

  /** sanitizeZipPath; None stands for its error. */
  function ZipPath(rel: string): M.Option<string> {
    var clean := CleanPath(Slashed(rel));
    if clean == "." || clean == ".." || StartsWith(clean, "../") then M.None else M.Some(clean)
  }

  function Candidate(base: string, i: nat): string {
    Numbered(Stem(base), i, Ext(base))
  }

  function Fallback(base: string, nanos: nat): string {
    Stem(base) + "-" + Itoa(nanos) + Ext(base)
  }

  /** The first free candidate from i on, or the name made from the clock. */
  function Deduped(base: string, seen: set<string>, i: nat, nanos: nat): string
    decreases TRIES - i
  {
    if i >= TRIES then Fallback(base, nanos)
    else if Candidate(base, i) !in seen then Candidate(base, i)
    else Deduped(base, seen, i + 1, nanos)
  }

  /** The archive's items for the rows in query order; clock[k] is the time at row k. */
  function Archive(rows: seq<Item>, clock: nat -> nat): (items: seq<Item>) {
    if rows == [] then []
    else
      var last := rows[|rows| - 1];
      var before := Archive(rows[..|rows| - 1], clock);
      var safe := ZipPath(last.path);
      if safe.None? then before
      else
        var seen := Used(before);
        before + [last.(path := if safe.value in seen then Deduped(safe.value, seen, 2, clock(|rows| - 1)) else safe.value)]
  }

  function Used(items: seq<Item>): set<string> {
    set k | 0 <= k < |items| :: items[k].path
  }

  // ---------------------------------------------------------------- a free candidate exists

  ghost function Candidates(base: string, n: nat): set<string> {
    set i: nat | 2 <= i < n :: Candidate(base, i)
  }

  lemma {:induction false} CandidatesDistinct(base: string, n: nat)
    requires n >= 2
    ensures |Candidates(base, n)| == n - 2
  {
    if n > 2 {
      CandidatesDistinct(base, n - 1);
      var fewer, c := Candidates(base, n - 1), Candidate(base, n - 1);
      assert c !in fewer by {
        forall i: nat | 2 <= i < n - 1 ensures Candidate(base, i) != c {
          if Candidate(base, i) == c { NumberedInjective(Stem(base), Ext(base), i, n - 1); }
        }
      }
      assert Candidates(base, n) == fewer + {c};
    } else {
      assert Candidates(base, n) == {};
    }
  }

  lemma SubsetSize(a: set<string>, b: set<string>)
    requires a <= b
    ensures |a| <= |b|
  {
    assert b == a + (b - a);
  }

  /** While fewer than 9998 candidates are taken, the search finds a free one. */
  lemma Pigeonhole(base: string, seen: set<string>)
    requires base in seen && |seen| <= TRIES - 2
    ensures exists i: nat {:trigger Candidate(base, i)} :: 2 <= i < TRIES && Candidate(base, i) !in seen
  {
    if forall i: nat {:trigger Candidate(base, i)} :: 2 <= i < TRIES ==> Candidate(base, i) in seen {
      CandidatesDistinct(base, TRIES);
      assert base !in Candidates(base, TRIES) by {
        forall i: nat ensures Candidate(base, i) != base { CandidateIsLonger(base, i); }
      }
      SubsetSize(Candidates(base, TRIES), seen - {base});
    }
  }

  lemma CandidateIsLonger(base: string, i: nat)
    ensures |Candidate(base, i)| > |base|
  {
    assert base == Stem(base) + Ext(base);
  }

  /** The search ends on a used name exactly when every candidate and the clock's name are used. */
  lemma {:induction false} DedupedExact(base: string, seen: set<string>, i: nat, nanos: nat)
    ensures Deduped(base, seen, i, nanos) in seen <==> Exhausted(base, seen, i, nanos)
    decreases TRIES - i
  {
    if i < TRIES && Candidate(base, i) in seen { DedupedExact(base, seen, i + 1, nanos); }
  }

  /** dedupeZipPath */
  method DedupeZipPath(base: string, seen: set<string>, nanos: nat) returns (name: string)
    ensures name == Deduped(base, seen, 2, nanos)
    ensures base in seen && |seen| <= TRIES - 2 ==> name !in seen
  {
    var i := 2;
    while i < TRIES
      invariant 2 <= i <= TRIES
      invariant forall j: nat {:trigger Candidate(base, j)} :: 2 <= j < i ==> Candidate(base, j) in seen
      invariant Deduped(base, seen, 2, nanos) == Deduped(base, seen, i, nanos)
    {
      if Candidate(base, i) !in seen {
        return Candidate(base, i);
      }
      i := i + 1;
    }
    name := Fallback(base, nanos);
    if base in seen && |seen| <= TRIES - 2 { Pigeonhole(base, seen); }
  }

  /** The search takes the first free number, and the clock's name only when none is free. */
  lemma {:induction false} DedupedFirst(base: string, seen: set<string>, i: nat, nanos: nat)
    ensures var name := Deduped(base, seen, i, nanos);
      || (exists n: nat {:trigger Candidate(base, n)} ::
            i <= n < TRIES && name == Candidate(base, n) && name !in seen
            && forall m: nat {:trigger Candidate(base, m)} :: i <= m < n ==> Candidate(base, m) in seen)
      || (name == Fallback(base, nanos) && forall m: nat {:trigger Candidate(base, m)} :: i <= m < TRIES ==> Candidate(base, m) in seen)
    decreases TRIES - i
  {
    if i < TRIES && Candidate(base, i) in seen { DedupedFirst(base, seen, i + 1, nanos); }
  }

  // ---------------------------------------------------------------- names stay inside the archive

  predicate Inside(name: string) {
    ".." !in Split(name)
  }

  lemma {:induction false} ExtHasNoSlash(s: string, i: nat)
    requires i <= |s| && '/' !in s[i..]
    ensures '/' !in s[ExtAt(s, i)..]
    decreases i
  {
    if i > 0 && s[i - 1] != '/' {
      assert s[i - 1..] == [s[i - 1]] + s[i..];
      if s[i - 1] != '.' { ExtHasNoSlash(s, i - 1); }
    } else {
      assert s[|s|..] == "";
    }
  }

  lemma {:induction false} ItoaDigits(n: nat)
    ensures forall c :: c in Itoa(n) ==> '0' <= c <= '9'
  {
    if n >= 10 { ItoaDigits(n / 10); }
  }

  /** Putting slash-free text before the extension keeps a name inside, if the text has a character that is no dot. */
  lemma InsertedInside(base: string, mark: string)
    requires Inside(base) && '/' !in mark && mark != "" && mark[0] != '.'
    ensures Inside(Stem(base) + mark + Ext(base))
  {
    var stem, ext := Stem(base), Ext(base);
    ExtHasNoSlash(base, |base|);
    assert base == stem + ext;
    SplitExtend(stem, ext);
    SplitExtend(stem, mark + ext);
    assert stem + (mark + ext) == stem + mark + ext;
    var parts := Split(stem);
    var name := Split(stem + mark + ext);
    var last := parts[|parts| - 1];
    assert name == parts[..|parts| - 1] + [last + (mark + ext)];
    assert (last + (mark + ext))[|last|] != '.';
    assert last + (mark + ext) != "..";
    assert forall k :: 0 <= k < |parts| - 1 ==> parts[k] == Split(base)[k];
  }

  lemma {:induction false} DedupedInside(base: string, seen: set<string>, i: nat, nanos: nat)
    requires Inside(base)
    ensures Inside(Deduped(base, seen, i, nanos))
    decreases TRIES - i
  {
    if i >= TRIES {
      ItoaDigits(nanos);
      InsertedInside(base, "-" + Itoa(nanos));
      assert Fallback(base, nanos) == Stem(base) + ("-" + Itoa(nanos)) + Ext(base);
    } else if Candidate(base, i) !in seen {
      ItoaDigits(i);
      InsertedInside(base, " (" + Itoa(i) + ")");
      assert Candidate(base, i) == Stem(base) + (" (" + Itoa(i) + ")") + Ext(base);
    } else {
      DedupedInside(base, seen, i + 1, nanos);
    }
  }

  // ---------------------------------------------------------------- the whole archive

  ghost predicate Distinct(items: seq<Item>) {
    forall j, k :: 0 <= j < k < |items| ==> items[j].path != items[k].path
  }

  /** Whatever the tree holds, no archive name has a ".." part. */
  lemma {:induction false} ArchiveInside(rows: seq<Item>, clock: nat -> nat)
    ensures forall k :: 0 <= k < |Archive(rows, clock)| ==> Inside(Archive(rows, clock)[k].path)
    decreases |rows|
  {
    if rows != [] {
      var last, before := rows[|rows| - 1], Archive(rows[..|rows| - 1], clock);
      ArchiveInside(rows[..|rows| - 1], clock);
      var safe := ZipPath(last.path);
      if safe.Some? {
        CleanNeverClimbs(Slashed(last.path));
        DedupedInside(safe.value, Used(before), 2, clock(|rows| - 1));
      }
    }
  }

  lemma {:induction false} UsedSize(items: seq<Item>)
    ensures |Used(items)| <= |items|
    decreases |items|
  {
    if items != [] {
      var rest, p := items[..|items| - 1], items[|items| - 1].path;
      UsedSize(rest);
      assert Used(items) == Used(rest) + {p};
    } else {
      assert Used(items) == {};
    }
  }

  lemma {:induction false} ArchiveSize(rows: seq<Item>, clock: nat -> nat)
    ensures |Archive(rows, clock)| <= |rows|
    decreases |rows|
  {
    if rows != [] { ArchiveSize(rows[..|rows| - 1], clock); }
  }

  /** The path, every candidate made from it and the clock's name are all used. */
  ghost predicate Exhausted(base: string, seen: set<string>, i: nat, nanos: nat) {
    && Fallback(base, nanos) in seen
    && forall j: nat {:trigger Candidate(base, j)} :: i <= j < TRIES ==> Candidate(base, j) in seen
  }

  /** The last row adds a name that is already used. */
  ghost predicate LastCollides(rows: seq<Item>, clock: nat -> nat)
    requires rows != []
  {
    var n := |rows| - 1;
    var seen, safe := Used(Archive(rows[..n], clock)), ZipPath(rows[n].path);
    safe.Some? && safe.value in seen && Exhausted(safe.value, seen, 2, clock(n))
  }

  ghost predicate NoneCollides(rows: seq<Item>, clock: nat -> nat) {
    rows == [] || (NoneCollides(rows[..|rows| - 1], clock) && !LastCollides(rows, clock))
  }

  lemma LastDecides(rows: seq<Item>, clock: nat -> nat)
    requires rows != []
    ensures var n := |rows| - 1;
      Distinct(Archive(rows, clock)) <==> Distinct(Archive(rows[..n], clock)) && !LastCollides(rows, clock)
  {
    var n := |rows| - 1;
    var before, safe := Archive(rows[..n], clock), ZipPath(rows[n].path);
    if safe.Some? {
      AppendDistinct(before, Archive(rows, clock)[|before|]);
      if safe.value in Used(before) { DedupedExact(safe.value, Used(before), 2, clock(n)); }
    }
  }

  /** Names are pairwise distinct exactly when no row finds its name, all candidates and the clock's name used. */
  lemma {:induction false} DistinctExact(rows: seq<Item>, clock: nat -> nat)
    ensures Distinct(Archive(rows, clock)) <==> NoneCollides(rows, clock)
    decreases |rows|
  {
    if rows != [] {
      DistinctExact(rows[..|rows| - 1], clock);
      LastDecides(rows, clock);
    }
  }

  lemma AppendDistinct(items: seq<Item>, item: Item)
    ensures Distinct(items + [item]) <==> Distinct(items) && item.path !in Used(items)
    ensures Used(items + [item]) == Used(items) + {item.path}
  {
    var more := items + [item];
    assert forall k :: 0 <= k < |items| ==> more[k] == items[k];
    assert more[|items|] == item;
    if Distinct(more) {
      assert forall k :: 0 <= k < |items| ==> items[k].path == more[k].path;
    }
  }

  /** Up to 9999 files, the archive's names are pairwise distinct whatever the clock says. */
  lemma {:induction false} SmallArchiveDistinct(rows: seq<Item>, clock: nat -> nat)
    requires |rows| < TRIES
    ensures Distinct(Archive(rows, clock))
    decreases |rows|
  {
    if rows != [] {
      var rest := rows[..|rows| - 1];
      var before, safe := Archive(rest, clock), ZipPath(rows[|rows| - 1].path);
      SmallArchiveDistinct(rest, clock);
      UsedSize(before);
      ArchiveSize(rest, clock);
      if safe.Some? && safe.value in Used(before) { Pigeonhole(safe.value, Used(before)); }
      LastDecides(rows, clock);
    }
  }

  // ---------------------------------------------------------------- an archive that collides

  const SAMPLE: string := "b"

  /** Plain names with a folder "." above, which cleaning removes. */
  function Dotted(name: string): Item {
    Item("./" + name, "", 0)
  }

  lemma DottedCleans(name: string)
    requires PlainPart(name) && '\\' !in name
    ensures ZipPath(Dotted(name).path) == M.Some(name) && ZipPath(name) == M.Some(name)
  {
    var rel := "./" + name;
    assert Slashed(rel) == rel && Slashed(name) == name;
    SplitSlash(".", name);
    assert "." + "/" + name == rel;
    SplitPlain(name);
    var parts := [".", name];
    assert parts[..1] == ["."] && ["."][..0] == [];
    assert Resolved(false, ["."]) == [];
    assert Resolved(false, parts) == [name];
    assert CleanPath(rel) == name;
    CleanPlain(name);
    NotClimbing(name);
  }

  lemma NotClimbing(name: string)
    requires PlainPart(name)
    ensures !StartsWith(name, "../")
  {
    assert |name| >= 3 ==> name[2] in name;
  }

  /** The candidates of the sample name, as files in the folder ".": the first n - 2 of them. */
  function CandidateRows(n: nat): seq<Item> {
    if n <= 2 then [] else CandidateRows(n - 1) + [Dotted(Candidate(SAMPLE, n - 1))]
  }

  lemma SampleStem()
    ensures Stem(SAMPLE) == SAMPLE && Ext(SAMPLE) == ""
  {
    assert ExtAt(SAMPLE, 0) == 1 && ExtAt(SAMPLE, 1) == 1;
  }

  lemma CandidatePlain(i: nat)
    ensures PlainPart(Candidate(SAMPLE, i)) && '\\' !in Candidate(SAMPLE, i) && |Candidate(SAMPLE, i)| >= 5
    ensures Candidate(SAMPLE, i)[1] == ' '
  {
    SampleStem();
    ItoaDigits(i);
    assert Candidate(SAMPLE, i) == SAMPLE + " (" + Itoa(i) + ")";
  }

  lemma {:induction false} CandidatesUsed(n: nat, clock: nat -> nat)
    requires n >= 2
    ensures Used(Archive(CandidateRows(n), clock)) == Candidates(SAMPLE, n)
  {
    if n == 2 {
      assert Candidates(SAMPLE, 2) == {};
    } else {
      var rows, c := CandidateRows(n), Candidate(SAMPLE, n - 1);
      CandidatesUsed(n - 1, clock);
      assert rows[..|rows| - 1] == CandidateRows(n - 1);
      CandidatePlain(n - 1);
      DottedCleans(c);
      forall i: nat | 2 <= i < n - 1 ensures Candidate(SAMPLE, i) != c {
        if Candidate(SAMPLE, i) == c { NumberedInjective(Stem(SAMPLE), Ext(SAMPLE), i, n - 1); }
      }
      AddFresh(CandidateRows(n - 1), Dotted(c), c, clock);
      assert Candidates(SAMPLE, n) == Candidates(SAMPLE, n - 1) + {c};
    }
  }

  /** A row with an unused name adds that name. */
  lemma AddFresh(rows: seq<Item>, row: Item, name: string, clock: nat -> nat)
    requires ZipPath(row.path) == M.Some(name) && name !in Used(Archive(rows, clock))
    ensures Used(Archive(rows + [row], clock)) == Used(Archive(rows, clock)) + {name}
  {
    assert (rows + [row])[..|rows|] == rows;
    AppendDistinct(Archive(rows, clock), row.(path := name));
  }

  /** All candidates, the base and the clock's name, and then the base once more. */
  function CollidingRows(nanos: nat): seq<Item> {
    CandidateRows(TRIES) + [Dotted(SAMPLE)] + [Dotted(Fallback(SAMPLE, nanos))] + [Item(SAMPLE, "", 0)]
  }

  lemma FallbackPlain(nanos: nat)
    ensures PlainPart(Fallback(SAMPLE, nanos)) && '\\' !in Fallback(SAMPLE, nanos) && |Fallback(SAMPLE, nanos)| >= 3
    ensures Fallback(SAMPLE, nanos)[1] == '-'
  {
    SampleStem();
    ItoaDigits(nanos);
    assert Fallback(SAMPLE, nanos) == SAMPLE + "-" + Itoa(nanos);
  }

  lemma NotACandidate(name: string)
    requires |name| == 1 || (|name| > 1 && name[1] != ' ')
    ensures name !in Candidates(SAMPLE, TRIES)
  {
    forall i: nat ensures Candidate(SAMPLE, i) != name { CandidatePlain(i); }
  }

  /** A clock that shows one time. */
  function Frozen(nanos: nat): nat -> nat {
    _ => nanos
  }

  lemma AllUsed(nanos: nat)
    ensures var rows := CandidateRows(TRIES) + [Dotted(SAMPLE)] + [Dotted(Fallback(SAMPLE, nanos))];
      Used(Archive(rows, Frozen(nanos))) == Candidates(SAMPLE, TRIES) + {SAMPLE, Fallback(SAMPLE, nanos)}
  {
    var clock := Frozen(nanos);
    CandidatesUsed(TRIES, clock);
    NotACandidate(SAMPLE);
    DottedCleans(SAMPLE);
    AddFresh(CandidateRows(TRIES), Dotted(SAMPLE), SAMPLE, clock);
    FallbackPlain(nanos);
    NotACandidate(Fallback(SAMPLE, nanos));
    DottedCleans(Fallback(SAMPLE, nanos));
    AddFresh(CandidateRows(TRIES) + [Dotted(SAMPLE)], Dotted(Fallback(SAMPLE, nanos)), Fallback(SAMPLE, nanos), clock);
  }

  /** Beyond the bound names can collide, whatever the clock shows: 10001 files of which two share a name. */
  lemma LargeArchiveCollides(nanos: nat)
    ensures !Distinct(Archive(CollidingRows(nanos), Frozen(nanos)))
  {
    var clock := Frozen(nanos);
    var rows := CollidingRows(nanos);
    var rest := CandidateRows(TRIES) + [Dotted(SAMPLE)] + [Dotted(Fallback(SAMPLE, nanos))];
    assert rows[..|rows| - 1] == rest && rows[|rows| - 1] == Item(SAMPLE, "", 0);
    AllUsed(nanos);
    DottedCleans(SAMPLE);
    assert LastCollides(rows, clock);
    DistinctExact(rows, clock);
  }

  /** Where no two cleaned paths agree nothing is renamed. */
  lemma {:induction false} NothingRenamed(rows: seq<Item>, clock: nat -> nat)
    requires forall k :: 0 <= k < |rows| ==> ZipPath(rows[k].path).Some?
    requires forall j, k :: 0 <= j < k < |rows| ==> ZipPath(rows[j].path) != ZipPath(rows[k].path)
    ensures var items := Archive(rows, clock);
      |items| == |rows| && forall k :: 0 <= k < |rows| ==> M.Some(items[k].path) == ZipPath(rows[k].path)
    decreases |rows|
  {
    if rows != [] {
      var rest := rows[..|rows| - 1];
      NothingRenamed(rest, clock);
      assert ZipPath(rows[|rows| - 1].path).value !in Used(Archive(rest, clock)) by {
        forall k | 0 <= k < |rest| ensures Archive(rest, clock)[k].path != ZipPath(rows[|rows| - 1].path).value {
          assert ZipPath(rows[k].path) != ZipPath(rows[|rows| - 1].path);
        }
      }
    }
  }

  /** The rows whose path can be used, in order. */
  ghost function Usable(rows: seq<Item>): seq<Item> {
    if rows == [] then []
    else
      Usable(rows[..|rows| - 1]) + if ZipPath(rows[|rows| - 1].path).Some? then [rows[|rows| - 1]] else []
  }

  /** Renaming loses no file and mixes up no contents. */
  lemma {:induction false} ContentsKept(rows: seq<Item>, clock: nat -> nat)
    ensures var items, usable := Archive(rows, clock), Usable(rows);
      |items| == |usable| && forall k :: 0 <= k < |items| ==> items[k].key == usable[k].key && items[k].size == usable[k].size
    decreases |rows|
  {
    if rows != [] { ContentsKept(rows[..|rows| - 1], clock); }
  }

  /** collectZipFiles, on the rows of the tree query. */
  method CollectZipFiles(rows: seq<Item>, clock: nat -> nat) returns (items: seq<Item>)
    ensures items == Archive(rows, clock)
    ensures forall k :: 0 <= k < |items| ==> Inside(items[k].path)
    ensures |rows| < TRIES ==> Distinct(items)
  {
    items := [];
    var seen: set<string> := {};
    for k := 0 to |rows|
      invariant items == Archive(rows[..k], clock) && seen == Used(items)
    {
      assert rows[..k + 1][..k] == rows[..k];
      var safe := ZipPath(rows[k].path);
      if safe.None? { continue; }
      var name := safe.value;
      if name in seen { name := DedupeZipPath(safe.value, seen, clock(k)); }
      seen := seen + {name};
      AppendDistinct(items, rows[k].(path := name));
      items := items + [rows[k].(path := name)];
    }
    assert rows[..|rows|] == rows;
    ArchiveInside(rows, clock);
    if |rows| < TRIES { SmallArchiveDistinct(rows, clock); }
  }
}
