/** Names of saved attachments: extensions, sanitizing and deduplication. */
module AttachmentNames {
  import Sets

  type byte = x: int | 0 <= x < 256

  predicate IsDigit(c: char) {
    '0' <= c <= '9'
  }

  predicate IsSafe(c: char) {
    'A' <= c <= 'Z' || 'a' <= c <= 'z' || IsDigit(c) || c == '.' || c == '_' || c == '-'
  }

  predicate AllSafe(s: string) {
    forall i :: 0 <= i < |s| ==> IsSafe(s[i])
  }

  /** A file name that stays a direct child of its directory. */
  predicate SafeName(s: string) {
    s != "" && s[0] != '.' && AllSafe(s)
  }

  // --- extensions ---

  /** The last position of `c` below `n`, or -1. */
  function LastIndex(s: string, c: char, n: nat): (r: int)
    requires n <= |s|
    ensures -1 <= r < n
    ensures r >= 0 ==> s[r] == c
    ensures forall i :: r < i < n ==> s[i] != c
  {
    if n == 0 then -1 else if s[n - 1] == c then n - 1 else LastIndex(s, c, n - 1)
  }

  predicate IsExtension(e: string) {
    e != "" && forall i :: 0 <= i < |e| ==> 'a' <= e[i] <= 'z' || IsDigit(e[i])
  }

  /** `lower` is the name in lower case. */
  function ExtOf(lower: string): string {
    var dot := LastIndex(lower, '.', |lower|);
    if dot >= 0 && IsExtension(lower[dot + 1..]) then lower[dot + 1..] else ""
  }

  predicate EndsWith(s: string, suffix: string) {
    |suffix| <= |s| && s[|s| - |suffix|..] == suffix
  }

  lemma EndsWithDot(lower: string, e: string)
    requires EndsWith(lower, "." + e)
    ensures var at := |lower| - |e| - 1; lower[at] == '.' && lower[at + 1..] == e
  {
    var at := |lower| - |e| - 1;
    var tail := lower[at..];
    assert tail == "." + e;
    assert lower[at] == tail[0];
    assert lower[at + 1..] == tail[1..];
    assert tail[1..] == e;
  }

  lemma LastIndexIs(s: string, c: char, at: nat)
    requires at < |s| && s[at] == c && forall i :: at < i < |s| ==> s[i] != c
    ensures LastIndex(s, c, |s|) == at
  {
  }

  lemma DotFirst(s: string, at: nat)
    requires at < |s| && s[at] == '.'
    ensures EndsWith(s, "." + s[at + 1..])
  {
    assert s[at..] == "." + s[at + 1..];
  }

  /** Digits and small letters, by code point. */
  predicate Alphanumeric(e: string) {
    forall i :: 0 <= i < |e| ==> var n := e[i] as int; 48 <= n <= 57 || 97 <= n <= 122
  }

  lemma ExtensionsAre(e: string)
    ensures IsExtension(e) <==> e != "" && Alphanumeric(e)
  {
  }

  /** The extension is the one alphanumeric string the name ends in after a dot. */
  lemma ExtOfExactly(lower: string, e: string)
    requires e != ""
    ensures ExtOf(lower) == e <==> Alphanumeric(e) && EndsWith(lower, "." + e)
  {
    ExtensionsAre(e);
    if ExtOf(lower) == e {
      DotFirst(lower, LastIndex(lower, '.', |lower|));
    }
    if IsExtension(e) && EndsWith(lower, "." + e) {
      EndsWithDot(lower, e);
      var at := |lower| - |e| - 1;
      forall i | at < i < |lower| ensures lower[i] != '.' {
        assert lower[i] == lower[at + 1..][i - at - 1];
      }
      LastIndexIs(lower, '.', at);
    }
  }

  datatype Signature = Signature(exts: seq<string>, magic: seq<byte>)

  const SIGNATURES: seq<Signature> := [
    Signature(["png"], [0x89, 0x50, 0x4e, 0x47]),
    Signature(["jpg", "jpeg"], [0xff, 0xd8, 0xff]),
    Signature(["gif"], [0x47, 0x49, 0x46, 0x38]),
    Signature(["pdf"], [0x25, 0x50, 0x44, 0x46]),
    Signature(["zip"], [0x50, 0x4b, 0x03, 0x04]),
    Signature(["gz", "gzip"], [0x1f, 0x8b]),
    Signature(["exe", "dll"], [0x4d, 0x5a]),
    Signature(["elf"], [0x7f, 0x45, 0x4c, 0x46])
  ]

  /** The first signature listing `ext` decides; no signature, no contradiction. */
  predicate ContradictsFrom(signatures: seq<Signature>, ext: string, bytes: seq<byte>) {
    if signatures == [] then false
    else if ext in signatures[0].exts then !(signatures[0].magic <= bytes)
    else ContradictsFrom(signatures[1..], ext, bytes)
  }

  predicate ContradictsExtension(ext: string, bytes: seq<byte>) {
    ContradictsFrom(SIGNATURES, ext, bytes)
  }

  ghost predicate FirstListing(signatures: seq<Signature>, ext: string, i: nat) {
    i < |signatures| && ext in signatures[i].exts && forall j :: 0 <= j < i ==> ext !in signatures[j].exts
  }

  lemma {:induction false} FirstListingDecides(signatures: seq<Signature>, ext: string, bytes: seq<byte>, i: nat)
    requires FirstListing(signatures, ext, i)
    ensures ContradictsFrom(signatures, ext, bytes) <==> !(signatures[i].magic <= bytes)
  {
    if i > 0 {
      assert forall j :: 0 <= j < i - 1 ==> signatures[1..][j] == signatures[j + 1];
      FirstListingDecides(signatures[1..], ext, bytes, i - 1);
    }
  }

  /** An extension no signature lists never contradicts. */
  lemma {:induction false} UnlistedNeverContradicts(signatures: seq<Signature>, ext: string, bytes: seq<byte>)
    requires forall i :: 0 <= i < |signatures| ==> ext !in signatures[i].exts
    ensures !ContradictsFrom(signatures, ext, bytes)
  {
    if signatures != [] { UnlistedNeverContradicts(signatures[1..], ext, bytes); }
  }

  /** What each extension's content must begin with; nothing is asked of others. */
  function MagicOf(ext: string): seq<byte> {
    match ext
    case "png" => [0x89, 0x50, 0x4e, 0x47]
    case "jpg" => [0xff, 0xd8, 0xff]
    case "jpeg" => [0xff, 0xd8, 0xff]
    case "gif" => [0x47, 0x49, 0x46, 0x38]
    case "pdf" => [0x25, 0x50, 0x44, 0x46]
    case "zip" => [0x50, 0x4b, 0x03, 0x04]
    case "gz" => [0x1f, 0x8b]
    case "gzip" => [0x1f, 0x8b]
    case "exe" => [0x4d, 0x5a]
    case "dll" => [0x4d, 0x5a]
    case "elf" => [0x7f, 0x45, 0x4c, 0x46]
    case _ => []
  }

  /** The signature that lists the extension. */
  function ListedAt(ext: string): nat {
    match ext
    case "png" => 0
    case "jpg" => 1
    case "jpeg" => 1
    case "gif" => 2
    case "pdf" => 3
    case "zip" => 4
    case "gz" => 5
    case "gzip" => 5
    case "exe" => 6
    case "dll" => 6
    case "elf" => 7
    case _ => 8
  }

  /** Content contradicts an extension exactly if it does not begin as it must. */
  lemma ContradictsExactly(ext: string, bytes: seq<byte>)
    ensures ContradictsExtension(ext, bytes) <==> !(MagicOf(ext) <= bytes)
  {
    var i := ListedAt(ext);
    if i < |SIGNATURES| {
      FirstListingDecides(SIGNATURES, ext, bytes, i);
    } else {
      UnlistedNeverContradicts(SIGNATURES, ext, bytes);
    }
  }

  // --- sanitizing ---

  function BaseName(s: string): string {
    if s == "" then ""
    else
      var last := s[|s| - 1];
      if IsSeparator(last) then "" else BaseName(s[..|s| - 1]) + [last]
  }

  function Clean(s: string): string {
    seq(|s|, i requires 0 <= i < |s| => if IsSafe(s[i]) then s[i] else '_')
  }

  function LeadingDots(s: string): (n: nat)
    ensures n <= |s| && (forall i :: 0 <= i < n ==> s[i] == '.') && (n < |s| ==> s[n] != '.')
  {
    if s != "" && s[0] == '.' then 1 + LeadingDots(s[1..]) else 0
  }

  function TrimDots(s: string): string {
    s[LeadingDots(s)..]
  }

  function SanitizeName(name: string): string {
    var cleaned := TrimDots(Clean(BaseName(name)));
    if cleaned == "" then "file" else cleaned
  }

  predicate IsSeparator(c: char) {
    c == '/' || c == '\\'
  }

  predicate Dots(s: string) {
    forall i :: 0 <= i < |s| ==> s[i] == '.'
  }

  lemma {:induction false} NoSeparatorInBase(s: string)
    ensures forall c :: c in BaseName(s) ==> !IsSeparator(c)
  {
    if s != "" { NoSeparatorInBase(s[..|s| - 1]); }
  }

  lemma {:induction false} EndsWithBase(s: string)
    ensures EndsWith(s, BaseName(s))
  {
    if s != "" && !IsSeparator(s[|s| - 1]) {
      var init, b := s[..|s| - 1], BaseName(s[..|s| - 1]);
      EndsWithBase(init);
      assert s[|init| - |b|..] == init[|init| - |b|..] + [s[|s| - 1]];
    }
  }

  lemma {:induction false} BaseStopsAtSeparator(s: string)
    ensures var n := |BaseName(s)|; n == |s| || (n < |s| && IsSeparator(s[|s| - n - 1]))
  {
    if s != "" && !IsSeparator(s[|s| - 1]) { BaseStopsAtSeparator(s[..|s| - 1]); }
  }

  /** What follows the last separator of either kind. */
  predicate IsBase(s: string, b: string) {
    && EndsWith(s, b) && '/' !in b && '\\' !in b
    && (|b| == |s| || s[|s| - |b| - 1] in {'/', '\\'})
  }

  /** The code points that survive: "-", ".", digits, capitals, "_", small letters. */
  predicate Kept(c: char) {
    var n := c as int;
    n in {45, 46, 95} || 48 <= n <= 57 || 65 <= n <= 90 || 97 <= n <= 122
  }

  /** `c` is `b` with an underscore for every character that does not survive. */
  predicate IsCleaned(b: string, c: string) {
    |c| == |b| && forall i :: 0 <= i < |b| ==> c[i] == if Kept(b[i]) then b[i] else '_'
  }

  lemma CleanExactly(b: string, c: string)
    ensures IsCleaned(b, c) <==> c == Clean(b)
  {
  }

  lemma SeparatorsAre(b: string)
    ensures (forall c :: c in b ==> !IsSeparator(c)) <==> '/' !in b && '\\' !in b
  {
  }

  lemma NoneInside(s: string, b: string)
    requires IsBase(s, b)
    ensures forall i :: |s| - |b| <= i < |s| ==> !IsSeparator(s[i])
  {
    forall i | |s| - |b| <= i < |s| ensures !IsSeparator(s[i]) {
      assert b[i - |s| + |b|] == s[i];
    }
  }

  lemma OneBase(s: string, a: string, b: string)
    requires IsBase(s, a) && IsBase(s, b)
    ensures |b| <= |a|
  {
    NoneInside(s, b);
  }

  lemma BaseExactly(s: string, b: string)
    ensures IsBase(s, b) <==> b == BaseName(s)
  {
    NoSeparatorInBase(s);
    SeparatorsAre(BaseName(s));
    EndsWithBase(s);
    BaseStopsAtSeparator(s);
    if IsBase(s, b) {
      OneBase(s, b, BaseName(s));
      OneBase(s, BaseName(s), b);
    }
  }

  lemma {:induction false} BaseOfPlain(s: string)
    requires forall i :: 0 <= i < |s| ==> s[i] != '/' && s[i] != '\\'
    ensures BaseName(s) == s
  {
    if s != "" {
      BaseOfPlain(s[..|s| - 1]);
      assert s == s[..|s| - 1] + [s[|s| - 1]];
    }
  }

  /** What follows the leading dots, or "file" when nothing does. */
  predicate IsTail(c: string, r: string) {
    if Dots(c) then r == "file"
    else EndsWith(c, r) && r != "" && r[0] != '.' && forall i :: 0 <= i < |c| - |r| ==> c[i] == '.'
  }

  lemma TailExactly(c: string, r: string)
    ensures IsTail(c, r) <==> r == if TrimDots(c) == "" then "file" else TrimDots(c)
  {
    var n := LeadingDots(c);
    assert n < |c| ==> c[n] != '.';
    if IsTail(c, r) && !Dots(c) { assert c[|c| - |r|] == r[0]; }
  }

  lemma TrimmedIsSafe(s: string)
    requires AllSafe(s)
    ensures AllSafe(TrimDots(s)) && (TrimDots(s) != "" ==> TrimDots(s)[0] != '.')
  {
  }

  /** What is left of a base name that is cleaned to `c`. */
  predicate IsCleanTail(b: string, c: string, r: string) {
    IsCleaned(b, c) && IsTail(c, r)
  }

  lemma SanitizedIs(name: string, r: string)
    ensures r == SanitizeName(name) <==> exists b, c :: IsBase(name, b) && IsCleanTail(b, c, r)
  {
    var base, cleaned := BaseName(name), Clean(BaseName(name));
    BaseExactly(name, base);
    CleanExactly(base, cleaned);
    TailExactly(cleaned, r);
    if r == SanitizeName(name) { assert IsCleanTail(base, cleaned, r); }
    if b, c :| IsBase(name, b) && IsCleanTail(b, c, r) {
      BaseExactly(name, b);
      CleanExactly(b, c);
    }
  }

  lemma SafeNamesAreFixed(name: string)
    ensures SafeName(SanitizeName(name))
    ensures SanitizeName(name) == name <==> SafeName(name)
  {
    TrimmedIsSafe(Clean(BaseName(name)));
    if SafeName(name) {
      BaseOfPlain(name);
      assert Clean(name) == name;
      assert TrimDots(name) == name;
    }
  }

  /** A sanitized name is what follows the leading dots of the cleaned base
      name, or "file" when nothing does, and no other string is; every sanitized
      name is safe, and the safe names are exactly those left alone. */
  lemma SanitizedExactly(name: string, r: string)
    ensures r == SanitizeName(name) <==> exists b, c :: IsBase(name, b) && IsCleanTail(b, c, r)
    ensures SafeName(SanitizeName(name))
    ensures SanitizeName(name) == name <==> SafeName(name)
  {
    SanitizedIs(name, r);
    SafeNamesAreFixed(name);
  }

  /** A safe name names a direct child: it has no separator, and is neither
      directory. */
  lemma SafeNamesStayInside(name: string)
    requires SafeName(name)
    ensures '/' !in name && '\\' !in name && name !in {"", ".", ".."}
    ensures forall i :: 0 <= i < |name| ==> Kept(name[i])
  {
  }

  lemma SanitizeIsIdempotent(name: string)
    ensures SanitizeName(SanitizeName(name)) == SanitizeName(name)
  {
    SanitizedExactly(name, name);
    SanitizedExactly(SanitizeName(name), name);
  }

  // --- deduplication ---

  function Digit(d: nat): char
    requires d < 10
  {
    "0123456789"[d]
  }

  function Decimal(n: nat): string {
    if n < 10 then [Digit(n)] else Decimal(n / 10) + [Digit(n % 10)]
  }

  lemma {:induction false} DecimalLength(n: nat)
    ensures |Decimal(n)| > 0 && AllSafe(Decimal(n)) && (|Decimal(n)| == 1 <==> n < 10)
    ensures forall c :: c in Decimal(n) ==> '0' <= c <= '9'
  {
    if n >= 10 { DecimalLength(n / 10); }
  }

  /** The number a string of digits stands for. */
  function Reads(s: string): int {
    if s == "" then 0 else 10 * Reads(s[..|s| - 1]) + (s[|s| - 1] as int - '0' as int)
  }

  lemma {:induction false} DecimalReads(n: nat)
    ensures Reads(Decimal(n)) == n
  {
    DecimalLength(n);
    var s := Decimal(n);
    assert s[|s| - 1] as int - '0' as int == n % 10;
    if n >= 10 {
      DecimalReads(n / 10);
      assert s[..|s| - 1] == Decimal(n / 10);
    } else {
      assert s[..|s| - 1] == "";
    }
  }

  /** Where the suffix goes: before the last dot, unless that is the first
      character. */
  function SplitPoint(name: string): (at: nat)
    ensures at <= |name| && (forall i :: at < i < |name| ==> name[i] != '.')
    ensures at == |name| ==> forall i :: 1 <= i < |name| ==> name[i] != '.'
    ensures at < |name| ==> at > 0 && name[at] == '.'
  {
    var dot := LastIndex(name, '.', |name|);
    if dot > 0 then dot else |name|
  }

  function Candidate(name: string, i: nat): string {
    name[..SplitPoint(name)] + "-" + Decimal(i) + name[SplitPoint(name)..]
  }

  /** A candidate is the stem, a dash, the number in decimal and the extension
      with its dot; a name without one, or with none but its first dot, is all stem. */
  lemma CandidateExactly(name: string, i: nat, stem: string, ext: string)
    requires name == stem + ext
    requires if ext == "" then forall k :: 1 <= k < |stem| ==> stem[k] != '.'
             else stem != "" && ext[0] == '.' && forall k :: 1 <= k < |ext| ==> ext[k] != '.'
    ensures Candidate(name, i) == stem + "-" + Decimal(i) + ext && Reads(Decimal(i)) == i
  {
    DecimalReads(i);
    assert |ext| > 0 ==> name[|stem|] == ext[0];
    forall k | |stem| < k < |name| ensures name[k] != '.' { assert name[k] == ext[k - |stem|]; }
    assert SplitPoint(name) == |stem|;
    assert name[..|stem|] == stem && name[|stem|..] == ext;
  }

  lemma CandidatesDiffer(name: string, i: nat, j: nat)
    ensures Candidate(name, i) == Candidate(name, j) ==> i == j
    ensures Candidate(name, i) != name
  {
    var at, n := SplitPoint(name), |name|;
    assert |Candidate(name, i)| == n + 1 + |Decimal(i)| && |Candidate(name, j)| == n + 1 + |Decimal(j)|;
    if Candidate(name, i) == Candidate(name, j) {
      assert Decimal(i) == Candidate(name, i)[at + 1..at + 1 + |Decimal(i)|];
      assert Decimal(j) == Candidate(name, j)[at + 1..at + 1 + |Decimal(j)|];
      DecimalReads(i);
      DecimalReads(j);
    }
  }

  lemma CandidateIsSafe(name: string, i: nat)
    requires SafeName(name)
    ensures SafeName(Candidate(name, i))
  {
    DecimalLength(i);
    assert Candidate(name, i)[0] == name[0];
  }

  /** `chosen` is the name itself if free, else the first free candidate, and at
      most |used| candidates are looked at: a counter of 32 bits is enough. */
  ghost predicate Deduped(name: string, used: set<string>, chosen: string) {
    && chosen !in used
    && (name !in used ==> chosen == name)
    && (name in used ==> exists i: nat :: IsFirstFree(name, used, i) && i <= |used| && chosen == Candidate(name, i))
  }

  ghost predicate IsFirstFree(name: string, used: set<string>, i: nat) {
    1 <= i && Candidate(name, i) !in used && forall j :: 1 <= j < i ==> Candidate(name, j) in used
  }

  method Dedupe(name: string, used: set<string>) returns (chosen: string, taken: set<string>)
    ensures Deduped(name, used, chosen) && taken == used + {chosen}
  {
    if name !in used {
      return name, used + {name};
    }
    var at := SplitPoint(name);
    var stem, ext := name[..at], name[at..];
    var i := 1;
    ghost var tried: set<string> := {name};
    while true
      invariant i >= 1
      invariant tried <= used && |tried| == i
      invariant forall j :: 1 <= j < i ==> Candidate(name, j) in tried
      invariant forall s :: s in tried ==> s == name || exists j :: 1 <= j < i && s == Candidate(name, j)
      decreases |used| - i
    {
      Sets.SubsetSize(tried, used);
      var candidate := stem + "-" + Decimal(i) + ext;
      assert candidate == Candidate(name, i);
      if candidate !in used {
        assert IsFirstFree(name, used, i);
        return candidate, used + {candidate};
      }
      CandidatesDiffer(name, i, i);
      forall j: nat | 1 <= j < i ensures Candidate(name, j) != candidate { CandidatesDiffer(name, i, j); }
      tried := tried + {candidate};
      Sets.SubsetSize(tried, used);
      i := i + 1;
    }
  }

  lemma NoDigitIsDot(n: nat)
    ensures '.' !in Decimal(n)
  {
    DecimalLength(n);
  }

  lemma NoDot(s: string)
    requires '.' !in s
    ensures ExtOf(s) == ""
  {
  }

  /** What comes before the last dot does not matter. */
  lemma ExtAfter(stem: string, rest: string)
    requires '.' !in rest
    ensures ExtOf(stem + "." + rest) == if IsExtension(rest) then rest else ""
  {
    var s := stem + "." + rest;
    LastIndexIs(s, '.', |stem|);
    assert s[|stem| + 1..] == rest;
  }

  lemma DottedKeeps(stem: string, rest: string, i: nat)
    requires stem != "" && '.' !in rest
    ensures ExtOf(Candidate(stem + "." + rest, i)) == ExtOf(stem + "." + rest)
  {
    var longer := stem + "-" + Decimal(i);
    assert stem + "." + rest == stem + ("." + rest);
    CandidateExactly(stem + "." + rest, i, stem, "." + rest);
    assert longer + ("." + rest) == longer + "." + rest;
    ExtAfter(stem, rest);
    ExtAfter(longer, rest);
  }

  lemma UndottedKeeps(name: string, i: nat)
    requires '.' !in name
    ensures ExtOf(Candidate(name, i)) == ExtOf(name)
  {
    assert name == name + "";
    CandidateExactly(name, i, name, "");
    NoDigitIsDot(i);
    NoDot(name);
    NoDot(Candidate(name, i));
  }

  /** Deduplication keeps the extension: the suffix goes before it. */
  lemma CandidateKeepsExtension(name: string, i: nat)
    requires SafeName(name)
    ensures ExtOf(Candidate(name, i)) == ExtOf(name)
  {
    var dot := LastIndex(name, '.', |name|);
    if dot >= 0 {
      assert name == name[..dot] + "." + name[dot + 1..];
      DottedKeeps(name[..dot], name[dot + 1..], i);
    } else {
      UndottedKeeps(name, i);
    }
  }

  lemma DedupedIsSafe(name: string, used: set<string>, chosen: string)
    requires SafeName(name) && Deduped(name, used, chosen)
    ensures SafeName(chosen)
  {
    if name in used {
      var i: nat :| IsFirstFree(name, used, i) && i <= |used| && chosen == Candidate(name, i);
      CandidateIsSafe(name, i);
    }
  }
}
