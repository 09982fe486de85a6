/** Name handling shared by the upload and file services: sanitising, case folding, numbering. */
module Names {
  /** Lower-cases ASCII letters, as the unique index does with lower(name). */
  function LowerChar(c: char): char {
    if 'A' <= c <= 'Z' then (c as int + 32) as char else c
  }

  function Lower(s: string): string {
    seq(|s|, i requires 0 <= i < |s| => LowerChar(s[i]))
  }

  predicate IsSpace(c: char) {
    c == ' ' || 9 as char <= c <= 13 as char
  }

  function TrimLeft(s: string): string {
    if s != "" && IsSpace(s[0]) then TrimLeft(s[1..]) else s
  }

  function TrimRight(s: string): string {
    if s != "" && IsSpace(s[|s| - 1]) then TrimRight(s[..|s| - 1]) else s
  }

  function Trim(s: string): string {
    TrimRight(TrimLeft(s))
  }

  /** Replaces both slashes by underscores and drops control characters and double quotes. */
  function Scrub(s: string): string {
    if s == "" then ""
    else
      var c := s[0];
      (if c == '/' || c == '\\' then "_"
       else if c < ' ' || c == 127 as char || c == '\"' then ""
       else [c]) + Scrub(s[1..])
  }

  predicate Clean(c: char) {
    c != '/' && c != '\\' && !(c < ' ') && c != 127 as char && c != '\"'
  }

  function Cut(s: string): string {
    if |s| > 255 then s[..255] else s
  }

  function Sanitize(name: string): string {
    Trim(Cut(Scrub(Trim(name))))
  }

  lemma {:induction false} TrimLeftFacts(s: string)
    ensures |TrimLeft(s)| <= |s|
    ensures forall c :: c in TrimLeft(s) ==> c in s
    ensures TrimLeft(s) != "" ==> !IsSpace(TrimLeft(s)[0])
  {
    if s != "" && IsSpace(s[0]) { TrimLeftFacts(s[1..]); }
  }

  lemma {:induction false} TrimRightFacts(s: string)
    ensures |TrimRight(s)| <= |s| && TrimRight(s) == s[..|TrimRight(s)|]
    ensures TrimRight(s) != "" ==> !IsSpace(TrimRight(s)[|TrimRight(s)| - 1])
  {
    if s != "" && IsSpace(s[|s| - 1]) { TrimRightFacts(s[..|s| - 1]); }
  }

  lemma {:induction false} ScrubFacts(s: string)
    ensures forall c :: c in Scrub(s) ==> Clean(c)
    ensures (forall c :: c in s ==> Clean(c)) ==> Scrub(s) == s
  {
    if s != "" {
      ScrubFacts(s[1..]);
      assert s == [s[0]] + s[1..];
      if forall c :: c in s ==> Clean(c) { assert s[0] in s; }
    }
  }

  lemma TrimFacts(s: string)
    ensures |Trim(s)| <= |s|
    ensures forall c :: c in Trim(s) ==> c in s
    ensures Trim(Trim(s)) == Trim(s)
  {
    TrimLeftFacts(s);
    TrimRightFacts(TrimLeft(s));
    var t := Trim(s);
    assert t != "" ==> t[0] == TrimLeft(s)[0];
  }

  /** Sanitising twice is sanitising once, so a sanitised name is stable. */
  lemma SanitizeIdempotent(name: string)
    ensures Sanitize(Sanitize(name)) == Sanitize(name)
  {
    var cut := Cut(Scrub(Trim(name)));
    var r := Trim(cut);
    ScrubFacts(Trim(name));
    TrimFacts(cut);
    forall c | c in r ensures Clean(c) { assert c in cut; assert c in Scrub(Trim(name)); }
    ScrubFacts(r);
  }

  /** A sanitised name holds no path separator, control character or quote, and fits the column. */
  lemma SanitizeSafe(name: string)
    ensures |Sanitize(name)| <= 255
    ensures forall c :: c in Sanitize(name) ==> Clean(c)
  {
    var cut := Cut(Scrub(Trim(name)));
    ScrubFacts(Trim(name));
    TrimFacts(cut);
    forall c | c in Sanitize(name) ensures Clean(c) { assert c in cut; assert c in Scrub(Trim(name)); }
  }

  function Digit(d: nat): char
    requires d < 10
  {
    ('0' as int + d) as char
  }

  /** Decimal rendering without leading zeros. */
  function Itoa(n: nat): (r: string)
    ensures r != ""
  {
    if n < 10 then [Digit(n)] else Itoa(n / 10) + [Digit(n % 10)]
  }

  lemma {:induction false} ItoaInjective(m: nat, n: nat)
    requires Itoa(m) == Itoa(n)
    ensures m == n
    decreases m
  {
    if m < 10 && n < 10 {
      assert Digit(m) == Itoa(m)[0];
    } else if m >= 10 && n >= 10 {
      var a, b := Itoa(m), Itoa(n);
      assert a[..|a| - 1] == Itoa(m / 10) && b[..|b| - 1] == Itoa(n / 10);
      assert a[|a| - 1] == Digit(m % 10) && b[|b| - 1] == Digit(n % 10);
      ItoaInjective(m / 10, n / 10);
    } else {
    }
  }

  /** Position of the extension: the last dot of a slash-free suffix, or the end. */
  function ExtAt(s: string, i: nat): nat
    requires i <= |s|
    ensures ExtAt(s, i) <= |s|
  {
    if i == 0 || s[i - 1] == '/' then |s| else if s[i - 1] == '.' then i - 1 else ExtAt(s, i - 1)
  }

  function Ext(s: string): string {
    s[ExtAt(s, |s|)..]
  }

  function Stem(s: string): string {
    s[..ExtAt(s, |s|)]
  }

  function Numbered(stem: string, n: nat, ext: string): string {
    stem + " (" + Itoa(n) + ")" + ext
  }

  lemma NumberedInjective(stem: string, ext: string, m: nat, n: nat)
    requires Numbered(stem, m, ext) == Numbered(stem, n, ext)
    ensures m == n
  {
    var a, b := Numbered(stem, m, ext), Numbered(stem, n, ext);
    var k := |stem| + 2;
    assert |a| == k + |Itoa(m)| + 1 + |ext| && |b| == k + |Itoa(n)| + 1 + |ext|;
    assert Itoa(m) == a[k..k + |Itoa(m)|] && Itoa(n) == b[k..k + |Itoa(n)|];
    ItoaInjective(m, n);
  }

  /** The name tried at the n-th attempt when an upload clashes and may be renamed. */
  function NextUniqueName(base: string, n: nat): string {
    if n <= 1 then base
    else if Stem(base) == "" then Numbered(base, n, "")
    else Numbered(Stem(base), n, Ext(base))
  }

  // ---------------------------------------------------------------- what the name functions leave

  predicate SameLetter(c: char, d: char) {
    c == d || ('A' <= c <= 'Z' && d as int == c as int + 32) || ('A' <= d <= 'Z' && c as int == d as int + 32)
  }

  /** Two names fold to one exactly when they differ in the case of ASCII letters only. */
  lemma LowerExact(a: string, b: string)
    ensures Lower(a) == Lower(b) <==> |a| == |b| && forall k :: 0 <= k < |a| ==> SameLetter(a[k], b[k])
  {
    if Lower(a) == Lower(b) {
      assert |Lower(a)| == |Lower(b)|;
      forall k | 0 <= k < |a| ensures SameLetter(a[k], b[k]) { assert Lower(a)[k] == Lower(b)[k]; }
    }
  }

  predicate AllSpace(s: string) {
    forall k :: 0 <= k < |s| ==> IsSpace(s[k])
  }

  lemma {:induction false} TrimLeftExact(s: string) returns (before: string)
    ensures AllSpace(before) && s == before + TrimLeft(s) && (TrimLeft(s) != "" ==> !IsSpace(TrimLeft(s)[0]))
  {
    if s != "" && IsSpace(s[0]) {
      before := TrimLeftExact(s[1..]);
      before := [s[0]] + before;
      assert s == [s[0]] + s[1..];
    } else {
      before := "";
    }
  }

  lemma {:induction false} TrimRightExact(s: string) returns (after: string)
    ensures AllSpace(after) && s == TrimRight(s) + after && (TrimRight(s) != "" ==> !IsSpace(TrimRight(s)[|TrimRight(s)| - 1]))
  {
    if s != "" && IsSpace(s[|s| - 1]) {
      after := TrimRightExact(s[..|s| - 1]);
      assert s == s[..|s| - 1] + [s[|s| - 1]];
      after := after + [s[|s| - 1]];
    } else {
      after := "";
    }
  }

  /** Trimming takes off space at both ends and nothing else. */
  lemma TrimExact(s: string) returns (before: string, after: string)
    ensures AllSpace(before) && AllSpace(after) && s == before + Trim(s) + after
    ensures Trim(s) != "" ==> !IsSpace(Trim(s)[0]) && !IsSpace(Trim(s)[|Trim(s)| - 1])
  {
    before := TrimLeftExact(s);
    after := TrimRightExact(TrimLeft(s));
    assert Trim(s) != "" ==> Trim(s)[0] == TrimLeft(s)[0];
  }

  /** Exactly the clean, trimmed names of at most 255 characters are left as they are. */
  lemma SanitizeExact(name: string)
    ensures Sanitize(name) == name <==>
      && |name| <= 255 && (forall c :: c in name ==> Clean(c))
      && (name != "" ==> !IsSpace(name[0]) && !IsSpace(name[|name| - 1]))
  {
    SanitizeSafe(name);
    if Sanitize(name) == name {
      var before, after := TrimExact(Cut(Scrub(Trim(name))));
    }
    if (forall c :: c in name ==> Clean(c)) && (name != "" ==> !IsSpace(name[0]) && !IsSpace(name[|name| - 1])) {
      assert Trim(name) == name;
      ScrubFacts(name);
    }
  }

  /** Slashes become underscores where nothing has to be dropped. */
  lemma {:induction false} ScrubSlashes(s: string)
    requires forall c :: c in s ==> c >= ' ' && c != 127 as char && c != '\"'
    ensures |Scrub(s)| == |s| && forall k :: 0 <= k < |s| ==> Scrub(s)[k] == if s[k] == '/' || s[k] == '\\' then '_' else s[k]
  {
    if s != "" {
      assert s[0] in s && forall c :: c in s[1..] ==> c in s;
      ScrubSlashes(s[1..]);
    }
  }

  lemma {:induction false} ExtAtExact(s: string, i: nat)
    requires i <= |s| && (forall k :: i <= k < |s| ==> s[k] != '.' && s[k] != '/')
    ensures var e := ExtAt(s, i);
      && (e < |s| ==> s[e] == '.' && forall k :: e < k < |s| ==> s[k] != '.' && s[k] != '/')
      && (e == |s| ==> forall k :: 0 <= k < i && s[k] == '.' ==> exists j :: k < j < i && s[j] == '/')
    decreases i
  {
    if i > 0 && s[i - 1] != '/' && s[i - 1] != '.' { ExtAtExact(s, i - 1); }
  }

  /** The extension starts at the last dot of the last part, if there is one; stem and extension make the name. */
  lemma ExtExact(s: string)
    ensures s == Stem(s) + Ext(s)
    ensures Ext(s) != "" ==> Ext(s)[0] == '.' && forall k :: 0 < k < |Ext(s)| ==> Ext(s)[k] != '.' && Ext(s)[k] != '/'
    ensures Ext(s) == "" ==> forall k :: 0 <= k < |s| && s[k] == '.' ==> exists j :: k < j < |s| && s[j] == '/'
  {
    ExtAtExact(s, |s|);
  }

  /** From the second attempt on the number stands in brackets between stem and extension. */
  lemma NextUniqueNameExact(base: string, n: nat)
    ensures n <= 1 ==> NextUniqueName(base, n) == base
    ensures n >= 2 && Stem(base) != "" ==> NextUniqueName(base, n) == Stem(base) + " (" + Itoa(n) + ")" + Ext(base)
    ensures n >= 2 && Stem(base) == "" ==> NextUniqueName(base, n) == base + " (" + Itoa(n) + ")"
  {
  }
}
