/** File sets: which file names belong together, in what order, and how one steps through them.

    A name is the last component of a path, without NUL and newline characters. */
module FileSet {

  datatype Option<T> = None | Some(value: T)

  // ---- The three patterns

  /** prefix_NNNNN_YYYYMMDDHHMMSS, prefix_YYYYMMDDHHMMSS_NNNNN, and the names of Falco recordings. */
  datatype Pattern = NumThenTime | TimeThenNum | Recording

  /** The width of the first number, and of the second. */
  function Width1(p: Pattern): nat {
    match p case NumThenTime => 5 case TimeThenNum => 14 case Recording => 20
  }

  function Width2(p: Pattern): nat {
    match p case NumThenTime => 14 case TimeThenNum => 5 case Recording => 20
  }

  predicate Digits(s: string) {
    forall k :: 0 <= k < |s| ==> '0' <= s[k] <= '9'
  }

  /** The regular expression, as a relation between a name and its parts. */
  predicate Splits(p: Pattern, stem: string, prefix: string, a: string, b: string) {
    && stem == prefix + "_" + a + "_" + b
    && |a| == Width1(p) && |b| == Width2(p) && Digits(a) && Digits(b)
  }

  function PrefixLength(p: Pattern, stem: string): int {
    |stem| - Width1(p) - Width2(p) - 2
  }

  /** The match of the regular expression, read from the end of the name. */
  predicate Fits(p: Pattern, stem: string) {
    var n := PrefixLength(p, stem);
    && 0 <= n && stem[n] == '_' && Digits(stem[n + 1..n + 1 + Width1(p)])
    && stem[n + 1 + Width1(p)] == '_' && Digits(stem[n + 2 + Width1(p)..])
  }

  function Prefix(p: Pattern, stem: string): string
    requires Fits(p, stem)
  {
    stem[..PrefixLength(p, stem)]
  }

  function First(p: Pattern, stem: string): string
    requires Fits(p, stem)
  {
    var n := PrefixLength(p, stem);
    stem[n + 1..n + 1 + Width1(p)]
  }

  function Second(p: Pattern, stem: string): string
    requires Fits(p, stem)
  {
    stem[PrefixLength(p, stem) + 2 + Width1(p)..]
  }

  /** A name matches exactly when it can be split, and then in one way only, although the expression for the
      prefix also matches underscores and digits. */
  lemma OneSplit(p: Pattern, stem: string, prefix: string, a: string, b: string)
    ensures Splits(p, stem, prefix, a, b) <==>
            Fits(p, stem) && prefix == Prefix(p, stem) && a == First(p, stem) && b == Second(p, stem)
  {
    if Splits(p, stem, prefix, a, b) {
      var n := |prefix|;
      assert stem[..n] == prefix && stem[n + 1..n + 1 + |a|] == a && stem[n + 2 + |a|..] == b;
    } else if Fits(p, stem) {
      assert stem == Prefix(p, stem) + "_" + First(p, stem) + "_" + Second(p, stem);
    }
  }

  /** No name matches two of the patterns. */
  lemma PatternsExclude(p: Pattern, q: Pattern, stem: string)
    requires Fits(p, stem) && Fits(q, stem)
    ensures p == q
  {
    Underscores(p, stem);
    Underscores(q, stem);
  }

  /** Counted from the end, the first character that is not a digit is the underscore between the numbers. */
  lemma Underscores(p: Pattern, stem: string)
    requires Fits(p, stem)
    ensures |stem| > Width2(p) && stem[|stem| - 1 - Width2(p)] == '_'
    ensures forall k :: |stem| - Width2(p) <= k < |stem| ==> '0' <= stem[k] <= '9'
  {
    var n := PrefixLength(p, stem) + 2 + Width1(p);
    forall k | n <= k < |stem|
      ensures '0' <= stem[k] <= '9'
    {
      assert stem[k] == stem[n..][k - n];
    }
  }

  // ---- Cutting the name

  /** The last position of c in s, or -1. */
  function LastOf(s: string, c: char): (i: int)
    ensures -1 <= i < |s| && (i >= 0 ==> s[i] == c)
  {
    if s == [] then -1 else if s[|s| - 1] == c then |s| - 1 else LastOf(s[..|s| - 1], c)
  }

  function Lower(s: string): (r: string)
    ensures |r| == |s|
  {
    seq(|s|, k requires 0 <= k < |s| => if 'A' <= s[k] <= 'Z' then s[k] - 'A' + 'a' else s[k])
  }

  /** The name without its extension, and without the one before a compression extension; and whether a
      position is left to read the suffix from. */
  function Cut(exts: seq<string>, name: string): (string, bool) {
    var dot := LastOf(name, '.');
    if dot < 0 then (name, true)
    else if Lower(name[dot + 1..]) !in exts then (name[..dot], true)
    else
      var dot2 := LastOf(name[..dot], '.');
      if dot2 < 0 then (name[..dot], false) else (name[..dot2], true)
  }

  function Stem(exts: seq<string>, name: string): string {
    Cut(exts, name).0
  }

  datatype Kind = TimeNum | NumTime

  /** What fileset_filename_match_pattern returns. */
  datatype Match = NoMatch | Match(kind: Kind, prefix: string, suffix: Option<string>, time: string)

  function MatchOf(exts: seq<string>, name: string): Match {
    var (stem, hasSuffix) := Cut(exts, name);
    var suffix := if hasSuffix then Some("") else None;
    if Fits(NumThenTime, stem) then
      Match(NumTime, Prefix(NumThenTime, stem), suffix, Second(NumThenTime, stem))
    else if Fits(TimeThenNum, stem) then
      Match(TimeNum, Prefix(TimeThenNum, stem), suffix, First(TimeThenNum, stem))
    else if Fits(Recording, stem) then
      Match(TimeNum, Prefix(Recording, stem), suffix, First(Recording, stem)[..14])
    else NoMatch
  }

  /** A C string: the characters before the first NUL. */
  function CString(s: seq<char>): string {
    if s == [] || s[0] == '\0' then [] else [s[0]] + CString(s[1..])
  }

  lemma {:induction false} CStringEnds(s: string, more: seq<char>)
    requires '\0' !in s
    ensures CString(s + ['\0'] + more) == s
  {
    var t := s + ['\0'] + more;
    if s != [] {
      CStringEnds(s[1..], more);
      assert t[1..] == s[1..] + ['\0'] + more;
    }
  }

  /** strrchr. */
  method StrRChr(buf: array<char>, c: char, ghost s: string) returns (i: int)
    requires '\0' !in s && |s| < buf.Length && buf[..|s|] == s && buf[|s|] == '\0' && c != '\0'
    ensures i == LastOf(s, c)
  {
    i := -1;
    var k := 0;
    assert s[..0] == [];
    while buf[k] != '\0'
      invariant k <= |s| && i == LastOf(s[..k], c)
      invariant forall j :: 0 <= j < |s| ==> buf[j] == s[j]
      decreases |s| - k
    {
      assert s[..k + 1][..k] == s[..k];
      assert k < |s|;
      if buf[k] == c {
        i := k;
      }
      k := k + 1;
    }
    assert k == |s| && s[..k] == s;
  }

  /** The copy of the name is cut in place, at the extension and then, behind a compression extension, at the
      one before; the position of the cut, or -1, is what the suffix is read from. */
  method CutName(exts: seq<string>, fname: string, filename: array<char>) returns (sfx: int)
    requires '\0' !in fname && filename.Length == |fname| + 1
    requires filename[..|fname|] == fname && filename[|fname|] == '\0'
    modifies filename
    ensures CString(filename[..]) == Stem(exts, fname)
    ensures -1 <= sfx <= |fname| && (sfx >= 0 <==> Cut(exts, fname).1) && (sfx >= 0 ==> filename[sfx] == '\0')
  {
    hide LastOf, Lower, CString;
    sfx := StrRChr(filename, '.', fname);
    if sfx < 0 {
      StringInBuffer(filename[..], fname);
      return |fname|;
    }
    filename[sfx] := '\0';
    ghost var stem := fname[..sfx];
    var ext := Lower(filename[sfx + 1..|fname|]);
    assert filename[sfx + 1..|fname|] == fname[sfx + 1..];
    var found := IsExtension(exts, ext);
    if found {
      sfx := StrRChr(filename, '.', stem);
      if sfx >= 0 {
        filename[sfx] := '\0';
        assert stem[..sfx] == fname[..sfx];
        stem := stem[..sfx];
      }
    }
    StringInBuffer(filename[..], stem);
  }

  /** The loop over the compression extensions. */
  method IsExtension(exts: seq<string>, ext: string) returns (found: bool)
    ensures found == (ext in exts)
  {
    var k := 0;
    while k < |exts|
      invariant k <= |exts| && ext !in exts[..k]
    {
      if exts[k] == ext {
        return true;
      }
      k := k + 1;
    }
    assert exts[..k] == exts;
    return false;
  }

  /** fileset_filename_match_pattern. */
  method FilenameMatchPattern(exts: seq<string>, fname: string) returns (m: Match)
    requires '\0' !in fname
    ensures m == MatchOf(exts, fname)
  {
    hide Fits, CString, Prefix, First, Second, Cut;
    var filename := new char[|fname| + 1](k requires 0 <= k <= |fname| => if k < |fname| then fname[k] else '\0');
    var sfx := CutName(exts, fname, filename);
    var name := CString(filename[..]);
    var suffix := None;
    if sfx >= 0 {
      EmptyAt(filename[..], sfx);
      assert filename[..][sfx..] == filename[sfx..];
      suffix := Some(CString(filename[sfx..]));
    }
    if Fits(NumThenTime, name) {
      m := Match(NumTime, Prefix(NumThenTime, name), suffix, Second(NumThenTime, name));
    } else if Fits(TimeThenNum, name) {
      m := Match(TimeNum, Prefix(TimeThenNum, name), suffix, First(TimeThenNum, name));
    } else if Fits(Recording, name) {
      LongEnough(name);
      m := Match(TimeNum, Prefix(Recording, name), suffix, First(Recording, name)[..14]);
    } else {
      m := NoMatch;
    }
  }

  lemma LongEnough(stem: string)
    requires Fits(Recording, stem)
    ensures |First(Recording, stem)| == 20
  {
  }

  lemma StringInBuffer(buf: seq<char>, s: string)
    requires '\0' !in s && |s| < |buf| && buf[..|s|] == s && buf[|s|] == '\0'
    ensures CString(buf) == s
  {
    assert buf == s + ['\0'] + buf[|s| + 1..];
    CStringEnds(s, buf[|s| + 1..]);
  }

  lemma EmptyAt(buf: seq<char>, i: nat)
    requires i < |buf| && buf[i] == '\0'
    ensures CString(buf[i..]) == ""
  {
  }

  /** The suffix that is returned never carries the extension: it is empty, or missing when the only
      extension is one of a compression type. */
  lemma {:induction false} SuffixIsLost(exts: seq<string>, name: string)
    requires MatchOf(exts, name).Match?
    ensures var dot := LastOf(name, '.');
            MatchOf(exts, name).suffix ==
            if dot >= 0 && Lower(name[dot + 1..]) in exts && LastOf(name[..dot], '.') < 0 then None else Some("")
  {
    hide Fits, LastOf, Lower, Prefix, First, Second;
  }

  /** What a match by each pattern says. */
  function KindOf(p: Pattern): Kind {
    if p.NumThenTime? then NumTime else TimeNum
  }

  /** The time among the two numbers. */
  function TimeOf(p: Pattern, a: string, b: string): string
    requires |a| == Width1(p)
  {
    match p case NumThenTime => b case TimeThenNum => a case Recording => a[..14]
  }

  /** The name carries an extension besides one of a compression type, or has none at all. */
  predicate KeepsSuffix(exts: seq<string>, name: string) {
    var dot := LastOf(name, '.');
    dot >= 0 && Lower(name[dot + 1..]) in exts ==> LastOf(name[..dot], '.') >= 0
  }

  /** A name that can be split by a pattern is matched with that pattern's kind, prefix and time. */
  lemma {:induction false} MatchIsSplit(exts: seq<string>, name: string, p: Pattern, prefix: string, a: string, b: string)
    requires Splits(p, Stem(exts, name), prefix, a, b)
    ensures MatchOf(exts, name)
            == Match(KindOf(p), prefix, if KeepsSuffix(exts, name) then Some("") else None, TimeOf(p, a, b))
  {
    hide Fits, Splits, LastOf, Lower, Prefix, First, Second;
    var stem := Stem(exts, name);
    OneSplit(p, stem, prefix, a, b);
    forall q | Fits(q, stem)
      ensures q == p
    {
      PatternsExclude(p, q, stem);
    }
  }

  /** A name is not matched exactly when it cannot be split by any pattern. */
  lemma {:induction false} NoMatchIffNoSplit(exts: seq<string>, name: string)
    ensures MatchOf(exts, name).NoMatch? <==>
            forall p: Pattern, prefix: string, a: string, b: string :: !Splits(p, Stem(exts, name), prefix, a, b)
  {
    hide Fits, Splits, LastOf, Lower, Prefix, First, Second;
    var stem := Stem(exts, name);
    forall p: Pattern | Fits(p, stem)
      ensures Splits(p, stem, Prefix(p, stem), First(p, stem), Second(p, stem))
    {
      OneSplit(p, stem, Prefix(p, stem), First(p, stem), Second(p, stem));
    }
    forall p: Pattern, prefix: string, a: string, b: string | Splits(p, stem, prefix, a, b)
      ensures MatchOf(exts, name).Match?
    {
      OneSplit(p, stem, prefix, a, b);
      match p case NumThenTime => case TimeThenNum => case Recording =>
    }
  }

  /** The last dot splits a name. */
  lemma {:induction false} LastDot(base: string, ext: string)
    requires '.' !in ext
    ensures LastOf(base + "." + ext, '.') == |base|
    decreases |ext|
  {
    var name := base + "." + ext;
    if ext != [] {
      assert ext[|ext| - 1] in ext;
      LastDot(base, ext[..|ext| - 1]);
      assert name[..|name| - 1] == base + "." + ext[..|ext| - 1];
    } else {
      assert name == base + ".";
    }
  }

  lemma {:induction false} NoDot(name: string)
    requires '.' !in name
    ensures LastOf(name, '.') == -1
  {
    if name != [] {
      assert name[|name| - 1] in name;
      NoDot(name[..|name| - 1]);
    }
  }

  /** What is cut off a name: nothing without a dot; the extension; or, if that is one of a compression type,
      the one before it too. */
  lemma {:induction false} StemOfName(exts: seq<string>, base: string, mid: string, ext: string)
    requires '.' !in mid && '.' !in ext
    ensures '.' !in base ==> Stem(exts, base) == base && KeepsSuffix(exts, base)
    ensures Lower(ext) !in exts ==> Stem(exts, base + "." + ext) == base && KeepsSuffix(exts, base + "." + ext)
    ensures Lower(ext) in exts && '.' !in base ==>
              Stem(exts, base + "." + ext) == base && !KeepsSuffix(exts, base + "." + ext)
    ensures Lower(ext) in exts ==>
              var name := base + "." + mid + "." + ext;
              Stem(exts, name) == base && KeepsSuffix(exts, name)
  {
    hide LastOf, Lower;
    var name1, name2 := base + "." + ext, base + "." + mid + "." + ext;
    LastDot(base, ext);
    assert name1[..|base|] == base && name1[|base| + 1..] == ext;
    LastDot(base + "." + mid, ext);
    var d := |base + "." + mid|;
    assert name2[..d] == base + "." + mid && name2[d + 1..] == ext && name2[..|base|] == base;
    LastDot(base, mid);
    if '.' !in base {
      NoDot(base);
    }
  }

  /** Capital letters in an extension do not matter. */
  lemma LowerIsCaseless(s: string, t: string)
    requires |s| == |t|
    requires forall k :: 0 <= k < |s| ==> t[k] == s[k] || ('A' <= s[k] <= 'Z' && t[k] as int == s[k] as int + 32)
    ensures Lower(s) == Lower(t)
    ensures (forall k :: 0 <= k < |t| ==> !('A' <= t[k] <= 'Z')) ==> Lower(s) == t
  {
  }

  // ---- Membership

  /** Both names match, with the same kind of pattern, prefix and suffix. */
  predicate SameSet(exts: seq<string>, name1: string, name2: string) {
    var m1, m2 := MatchOf(exts, name1), MatchOf(exts, name2);
    m1.Match? && m2.Match? && m1.kind == m2.kind && m1.prefix == m2.prefix && m1.suffix == m2.suffix
  }

  /** fileset_is_file_in_set. */
  method IsFileInSet(exts: seq<string>, name1: string, name2: string) returns (r: bool)
    requires '\0' !in name1 && '\0' !in name2 && MatchOf(exts, name2).Match?
    ensures r == SameSet(exts, name1, name2)
  {
    hide MatchOf;
    var m1 := FilenameMatchPattern(exts, name1);
    if m1 == NoMatch {
      return false;
    }
    var m2 := FilenameMatchPattern(exts, name2);
    assert m2 != NoMatch;
    r := m1.kind == m2.kind && m1.prefix == m2.prefix && m1.suffix == m2.suffix;
  }

  /** Two names that can be split are in one set exactly when the patterns are of one kind, the prefixes are
      equal, and both or neither have lost their only extension to a compression type. */
  lemma {:induction false} SameSetIff(exts: seq<string>, name1: string, p: Pattern, prefix1: string, a1: string, b1: string,
                                      name2: string, q: Pattern, prefix2: string, a2: string, b2: string)
    requires Splits(p, Stem(exts, name1), prefix1, a1, b1) && Splits(q, Stem(exts, name2), prefix2, a2, b2)
    ensures SameSet(exts, name1, name2) <==>
            KindOf(p) == KindOf(q) && prefix1 == prefix2 && KeepsSuffix(exts, name1) == KeepsSuffix(exts, name2)
  {
    hide MatchOf, Splits, KeepsSuffix;
    MatchIsSplit(exts, name1, p, prefix1, a1, b1);
    MatchIsSplit(exts, name2, q, prefix2, a2, b2);
  }

  /** On the names that match, membership is an equivalence. */
  lemma MembershipIsEquivalence(exts: seq<string>, a: string, b: string, c: string)
    requires MatchOf(exts, a).Match? && MatchOf(exts, b).Match? && MatchOf(exts, c).Match?
    ensures SameSet(exts, a, a)
    ensures SameSet(exts, a, b) <==> SameSet(exts, b, a)
    ensures SameSet(exts, a, b) && SameSet(exts, b, c) ==> SameSet(exts, a, c)
  {
    hide MatchOf;
  }

  // ---- The order of names

  /** strcmp, as -1, 0 or 1. */
  function Strcmp(a: string, b: string): int {
    if a == [] then (if b == [] then 0 else -1)
    else if b == [] then 1
    else if a[0] != b[0] then (if a[0] < b[0] then -1 else 1)
    else Strcmp(a[1..], b[1..])
  }

  function Sign(x: int): int {
    if x < 0 then -1 else if x == 0 then 0 else 1
  }

  function Pow10(n: nat): nat {
    if n == 0 then 1 else 10 * Pow10(n - 1)
  }

  /** The number that digits denote. */
  function Value(d: string): (v: int)
  {
    if d == [] then 0 else ((d[0] as int) - ('0' as int)) * Pow10(|d| - 1) + Value(d[1..])
  }

  lemma NineTimes(x: int, p: nat)
    requires 0 <= x <= 9
    ensures 0 <= x * p <= 9 * p
  {
  }

  lemma {:induction false} ValueBounds(d: string)
    requires Digits(d)
    ensures 0 <= Value(d) < Pow10(|d|)
  {
    if d != [] {
      ValueBounds(d[1..]);
      NineTimes((d[0] as int) - ('0' as int), Pow10(|d| - 1));
    }
  }

  /** For digits of the same number, the order of the strings is the order of the numbers. */
  lemma {:induction false} DigitsOrder(a: string, b: string)
    requires |a| == |b| && Digits(a) && Digits(b)
    ensures Strcmp(a, b) == Sign(Value(a) - Value(b))
    ensures Value(a) == Value(b) <==> a == b
  {
    if a != [] {
      DigitsOrder(a[1..], b[1..]);
      ValueBounds(a[1..]);
      ValueBounds(b[1..]);
      var x, y, p := (a[0] as int) - ('0' as int), (b[0] as int) - ('0' as int), Pow10(|a| - 1);
      if x < y {
        Gap(x, y, p);
      } else if y < x {
        Gap(y, x, p);
      } else {
        assert a == [a[0]] + a[1..] && b == [b[0]] + b[1..];
      }
    }
  }

  lemma Gap(x: int, y: int, p: nat)
    requires x < y
    ensures x * p + p <= y * p
  {
    var d := y - x;
    assert (x + d) * p == x * p + d * p;
    assert d * p >= p;
  }

  lemma {:induction false} StrcmpSamePrefix(p: string, a: string, b: string)
    ensures Strcmp(p + a, p + b) == Strcmp(a, b)
  {
    if p == [] {
      assert p + a == a && p + b == b;
    } else {
      StrcmpSamePrefix(p[1..], a, b);
      assert (p + a)[1..] == p[1..] + a && (p + b)[1..] == p[1..] + b;
    }
  }

  /** Fields of the same width decide, unless they are equal. */
  lemma {:induction false} StrcmpFields(a: string, b: string, x: string, y: string)
    requires |a| == |b|
    ensures Strcmp(a + x, b + y) == if a == b then Strcmp(x, y) else Strcmp(a, b)
  {
    if a == [] {
      assert a + x == x && b + y == y;
    } else {
      StrcmpFields(a[1..], b[1..], x, y);
      assert (a + x)[1..] == a[1..] + x && (b + y)[1..] == b[1..] + y;
      assert a == [a[0]] + a[1..] && b == [b[0]] + b[1..];
    }
  }

  /** What follows the stem in the name. */
  function Rest(exts: seq<string>, name: string): string {
    name[|Stem(exts, name)|..]
  }

  lemma StemIsPrefix(exts: seq<string>, name: string)
    ensures |Stem(exts, name)| <= |name| && name == Stem(exts, name) + Rest(exts, name)
  {
    hide LastOf, Lower;
  }

  function Lexicographic(x: int, y: int, z: int): int {
    if x != 0 then Sign(x) else if y != 0 then Sign(y) else z
  }

  lemma Regroup(q: string, a: string, b: string, r: string)
    ensures q + "_" + a + "_" + b + r == (q + "_") + (a + ("_" + (b + r)))
  {
    var x := q + "_";
    assert x + a + "_" + b + r == x + a + "_" + (b + r) == x + a + ("_" + (b + r)) == x + (a + ("_" + (b + r)));
  }

  /** For two names of the same pattern and prefix the order of the names is the order of the two numbers in
      them, field by field; only if both are equal does the rest of the name matter. */
  lemma {:induction false} NameOrderIsNumeric(exts: seq<string>, p: Pattern, name1: string, name2: string)
    requires Fits(p, Stem(exts, name1)) && Fits(p, Stem(exts, name2))
    requires Prefix(p, Stem(exts, name1)) == Prefix(p, Stem(exts, name2))
    ensures var s1, s2 := Stem(exts, name1), Stem(exts, name2);
            Strcmp(name1, name2) ==
            Lexicographic(Value(First(p, s1)) - Value(First(p, s2)), Value(Second(p, s1)) - Value(Second(p, s2)),
                          Strcmp(Rest(exts, name1), Rest(exts, name2)))
  {
    hide Strcmp, Value, Cut, Rest, Digits;
    var s1, s2 := Stem(exts, name1), Stem(exts, name2);
    var q, a1, b1, r1 := Prefix(p, s1), First(p, s1), Second(p, s1), Rest(exts, name1);
    var a2, b2, r2 := First(p, s2), Second(p, s2), Rest(exts, name2);
    StemIsPrefix(exts, name1);
    StemIsPrefix(exts, name2);
    OneSplit(p, s1, q, a1, b1);
    OneSplit(p, s2, q, a2, b2);
    Regroup(q, a1, b1, r1);
    Regroup(q, a2, b2, r2);
    StrcmpSamePrefix(q + "_", a1 + ("_" + (b1 + r1)), a2 + ("_" + (b2 + r2)));
    StrcmpFields(a1, a2, "_" + (b1 + r1), "_" + (b2 + r2));
    StrcmpSamePrefix("_", b1 + r1, b2 + r2);
    StrcmpFields(b1, b2, r1, r2);
    DigitsOrder(a1, a2);
    DigitsOrder(b1, b2);
  }

  lemma {:induction false} StrcmpTotal(a: string, b: string)
    ensures Strcmp(a, b) == -Strcmp(b, a)
    ensures Strcmp(a, b) == 0 <==> a == b
  {
    if a != [] && b != [] {
      StrcmpTotal(a[1..], b[1..]);
      assert a == [a[0]] + a[1..] && b == [b[0]] + b[1..];
    }
  }

  lemma {:induction false} StrcmpTransitive(a: string, b: string, c: string)
    requires Strcmp(a, b) <= 0 && Strcmp(b, c) <= 0
    ensures Strcmp(a, c) <= 0
    ensures Strcmp(a, b) < 0 || Strcmp(b, c) < 0 ==> Strcmp(a, c) < 0
  {
    if a != [] && b != [] && c != [] && a[0] == b[0] == c[0] {
      StrcmpTransitive(a[1..], b[1..], c[1..]);
    }
  }

  // ---- The list of entries

  /** fileset_entry, without what the file system says about the file. */
  datatype FileEntry = FileEntry(name: string, current: bool)

  /** No entry comes before an earlier one. */
  ghost predicate Ordered(es: seq<FileEntry>) {
    forall i, j :: 0 <= i < j < |es| ==> Strcmp(es[i].name, es[j].name) <= 0
  }

  /** All names are different. */
  ghost predicate Distinct(es: seq<FileEntry>) {
    forall i, j :: 0 <= i < j < |es| ==> es[i].name != es[j].name
  }

  function Insert(e: FileEntry, es: seq<FileEntry>): seq<FileEntry> {
    if es == [] then [e]
    else if Strcmp(e.name, es[0].name) < 0 then [e] + es
    else [es[0]] + Insert(e, es[1..])
  }

  /** g_list_sort by fileset_sort_compare, which keeps the order of entries with the same name. */
  function Sort(es: seq<FileEntry>): seq<FileEntry> {
    if es == [] then [] else Insert(es[|es| - 1], Sort(es[..|es| - 1]))
  }

  lemma {:induction false} InsertKeeps(e: FileEntry, es: seq<FileEntry>)
    ensures multiset(Insert(e, es)) == multiset(es) + multiset{e}
  {
    hide Strcmp;
    if es != [] {
      assert es == [es[0]] + es[1..];
      InsertKeeps(e, es[1..]);
    }
  }

  lemma {:induction false} InsertOrders(e: FileEntry, es: seq<FileEntry>)
    requires Ordered(es)
    ensures Ordered(Insert(e, es))
  {
    hide Strcmp;
    if es != [] {
      StrcmpTotal(e.name, es[0].name);
      if Strcmp(e.name, es[0].name) < 0 {
        forall j | 0 <= j < |es|
          ensures Strcmp(e.name, es[j].name) <= 0
        {
          if j > 0 {
            StrcmpTransitive(e.name, es[0].name, es[j].name);
          }
        }
      } else {
        var rest := Insert(e, es[1..]);
        InsertOrders(e, es[1..]);
        InsertKeeps(e, es[1..]);
        forall j | 0 <= j < |rest|
          ensures Strcmp(es[0].name, rest[j].name) <= 0
        {
          assert rest[j] in multiset(rest);
          if rest[j] != e {
            assert rest[j] in es[1..];
          }
        }
      }
    }
  }

  /** Sorting keeps the entries and puts them in order. */
  lemma {:induction false} SortSorts(es: seq<FileEntry>)
    ensures Ordered(Sort(es)) && multiset(Sort(es)) == multiset(es)
  {
    if es != [] {
      var before, e := es[..|es| - 1], es[|es| - 1];
      SortSorts(before);
      InsertOrders(e, Sort(before));
      InsertKeeps(e, Sort(before));
      assert es == before + [e];
    }
  }

  /** The entries fileset_add_dir adds for the names in a directory: those of files of the set that can be
      opened. */
  function Members(exts: seq<string>, fname: string, names: seq<string>, readable: set<string>): seq<FileEntry> {
    if names == [] then []
    else
      var before, n := Members(exts, fname, names[..|names| - 1], readable), names[|names| - 1];
      if SameSet(exts, n, fname) && n in readable then before + [FileEntry(n, n == fname)] else before
  }

  /** What fileset_add_dir adds. */
  function Found(exts: seq<string>, fname: string, names: seq<string>, readable: set<string>): seq<FileEntry> {
    if MatchOf(exts, fname).Match? then Members(exts, fname, names, readable)
    else if fname in readable then [FileEntry(fname, true)] else []
  }

  /** The set: its entries in order. */
  class Files {
    var entries: seq<FileEntry>

    constructor ()
      ensures entries == []
    {
      entries := [];
    }

    /** fileset_add_file: a file that cannot be opened is left out. */
    method AddFile(name: string, current: bool, opens: bool)
      modifies this
      ensures entries == if opens then old(entries) + [FileEntry(name, current)] else old(entries)
    {
      if opens {
        entries := entries + [FileEntry(name, current)];
      }
    }

    /** fileset_add_dir: the files of the directory that belong to the set of fname, or fname alone. */
    method AddDir(exts: seq<string>, fname: string, names: seq<string>, readable: set<string>)
      requires '\0' !in fname && forall n :: n in names ==> '\0' !in n
      modifies this
      ensures entries == Sort(old(entries) + Found(exts, fname, names, readable))
    {
      hide MatchOf, Sort, SameSet, Members;
      var m := FilenameMatchPattern(exts, fname);
      if m.Match? {
        AddMembers(exts, fname, names, readable);
      } else {
        AddFile(fname, true, fname in readable);
        assert old(entries) + [] == old(entries);
      }
      entries := Sort(entries);
    }

    /** The loop over the directory. */
    method AddMembers(exts: seq<string>, fname: string, names: seq<string>, readable: set<string>)
      requires '\0' !in fname && MatchOf(exts, fname).Match? && forall n :: n in names ==> '\0' !in n
      modifies this
      ensures entries == old(entries) + Members(exts, fname, names, readable)
    {
      hide MatchOf, SameSet;
      var k := 0;
      while k < |names|
        invariant k <= |names| && entries == old(entries) + Members(exts, fname, names[..k], readable)
      {
        assert names[..k + 1][..k] == names[..k];
        var member := IsFileInSet(exts, names[k], fname);
        if member {
          AddFile(names[k], names[k] == fname, names[k] in readable);
        }
        k := k + 1;
      }
      assert names[..k] == names;
    }

    /** fileset_delete. */
    method Delete()
      modifies this
      ensures entries == []
    {
      entries := [];
    }

    /** A capture file was opened: the old set goes, and the set of the new file takes its place. */
    method FileOpened(exts: seq<string>, fname: string, names: seq<string>, readable: set<string>)
      requires '\0' !in fname && forall n :: n in names ==> '\0' !in n
      requires forall i, j :: 0 <= i < j < |names| ==> names[i] != names[j]
      modifies this
      ensures entries == Sort(Found(exts, fname, names, readable)) && Ordered(entries) && Distinct(entries)
    {
      hide MatchOf, Sort, SameSet, Strcmp, Members;
      Delete();
      AddDir(exts, fname, names, readable);
      var found := Found(exts, fname, names, readable);
      assert [] + found == found;
      MembersDistinct(exts, fname, names, readable);
      SortSorts(found);
      CountNames(found, entries);
    }

    /** fileset_get_current: the index of the first current entry, or -1. */
    method GetCurrent() returns (i: int)
      ensures -1 <= i < |entries|
      ensures forall j :: 0 <= j < (if i < 0 then |entries| else i) ==> !entries[j].current
      ensures i >= 0 ==> entries[i].current
    {
      i := 0;
      while i < |entries|
        invariant 0 <= i <= |entries| && forall j :: 0 <= j < i ==> !entries[j].current
      {
        if entries[i].current {
          return;
        }
        i := i + 1;
      }
      i := -1;
    }

    /** fileset_get_next: the entry with the least name beyond the current one. */
    method GetNext() returns (r: Option<FileEntry>)
      requires Ordered(entries) && Distinct(entries)
      ensures forall c :: c in entries && OnlyCurrent(c) ==> IsNext(c, r)
      ensures (forall e :: e in entries ==> !e.current) ==> r.None?
    {
      hide Strcmp;
      var i := GetCurrent();
      if i < 0 || i + 1 == |entries| {
        r := None;
      } else {
        r := Some(entries[i + 1]);
      }
      forall j, k | 0 <= j < k < |entries|
        ensures Strcmp(entries[j].name, entries[k].name) < 0 && Strcmp(entries[k].name, entries[j].name) > 0
      {
        StrcmpTotal(entries[j].name, entries[k].name);
      }
      Reflexive();
    }

    /** fileset_get_previous: the entry with the greatest name before the current one. */
    method GetPrevious() returns (r: Option<FileEntry>)
      requires Ordered(entries) && Distinct(entries)
      ensures forall c :: c in entries && OnlyCurrent(c) ==> IsPrevious(c, r)
      ensures (forall e :: e in entries ==> !e.current) ==> r.None?
    {
      hide Strcmp;
      var i := GetCurrent();
      if i <= 0 {
        r := None;
      } else {
        r := Some(entries[i - 1]);
      }
      forall j, k | 0 <= j < k < |entries|
        ensures Strcmp(entries[j].name, entries[k].name) < 0 && Strcmp(entries[k].name, entries[j].name) > 0
      {
        StrcmpTotal(entries[j].name, entries[k].name);
      }
      Reflexive();
    }

    /** c is the current entry. */
    ghost predicate OnlyCurrent(c: FileEntry)
      reads this
    {
      c.current && forall e :: e in entries && e.current ==> e == c
    }

    ghost predicate IsNext(c: FileEntry, r: Option<FileEntry>)
      reads this
    {
      && (r.Some? ==> r.value in entries && Strcmp(c.name, r.value.name) < 0)
      && forall e :: e in entries && Strcmp(c.name, e.name) < 0 ==> r.Some? && Strcmp(r.value.name, e.name) <= 0
    }

    ghost predicate IsPrevious(c: FileEntry, r: Option<FileEntry>)
      reads this
    {
      && (r.Some? ==> r.value in entries && Strcmp(r.value.name, c.name) < 0)
      && forall e :: e in entries && Strcmp(e.name, c.name) < 0 ==> r.Some? && Strcmp(e.name, r.value.name) <= 0
    }
  }

  lemma Reflexive()
    ensures forall s: string :: Strcmp(s, s) == 0
  {
    forall s: string
      ensures Strcmp(s, s) == 0
    {
      StrcmpTotal(s, s);
    }
  }

  /** A directory lists each name once; so does the set, and its only current entry is the given file. */
  lemma {:induction false} MembersDistinct(exts: seq<string>, fname: string, names: seq<string>, readable: set<string>)
    requires forall i, j :: 0 <= i < j < |names| ==> names[i] != names[j]
    ensures Distinct(Members(exts, fname, names, readable))
    ensures forall e :: e in Members(exts, fname, names, readable) <==>
              e.name in names && e.name in readable && SameSet(exts, e.name, fname) && e.current == (e.name == fname)
  {
    hide SameSet;
    if names != [] {
      var before, n := names[..|names| - 1], names[|names| - 1];
      MembersDistinct(exts, fname, before, readable);
      assert names == before + [n];
      assert n !in before;
    }
  }

  /** An entry of a distinct list is there once. */
  lemma {:induction false} OnceEach(es: seq<FileEntry>, e: FileEntry)
    requires Distinct(es)
    ensures multiset(es)[e] <= 1
  {
    if es != [] {
      var before, last := es[..|es| - 1], es[|es| - 1];
      OnceEach(before, e);
      assert es == before + [last];
      assert e == last ==> e !in before;
    }
  }

  lemma TwiceThere(es: seq<FileEntry>, i: nat, j: nat)
    requires i < j < |es| && es[i] == es[j]
    ensures multiset(es)[es[i]] >= 2
  {
    var a, b := es[..j], es[j..];
    assert es == a + b && a[i] == es[i] && b[0] == es[j];
    assert es[i] in multiset(a) && es[i] in multiset(b);
  }

  lemma CountNames(es: seq<FileEntry>, fs: seq<FileEntry>)
    requires multiset(es) == multiset(fs) && Distinct(es)
    ensures Distinct(fs)
  {
    forall i, j | 0 <= i < j < |fs|
      ensures fs[i].name != fs[j].name
    {
      assert fs[i] in multiset(es) && fs[j] in multiset(es);
      OnceEach(es, fs[i]);
      if fs[i] == fs[j] {
        TwiceThere(fs, i, j);
      }
    }
  }

  /** Opening a file of a set: the list has exactly the names of its set that are in the directory and can be
      opened, in order, and the file itself, if it is among them, as its only current entry, so that next and
      previous step through it. */
  lemma {:induction false} ListOfTheSet(exts: seq<string>, fname: string, names: seq<string>, readable: set<string>)
    requires forall i, j :: 0 <= i < j < |names| ==> names[i] != names[j]
    requires MatchOf(exts, fname).Match?
    ensures var es := Sort(Found(exts, fname, names, readable));
            && Ordered(es) && Distinct(es)
            && (forall n :: n in names && n in readable && SameSet(exts, n, fname) <==> exists e :: e in es && e.name == n)
            && (fname in names && fname in readable ==> FileEntry(fname, true) in es)
            && (forall e :: e in es && e.current ==> e == FileEntry(fname, true))
  {
    hide MatchOf, Strcmp;
    var ms := Members(exts, fname, names, readable);
    var es := Sort(ms);
    MembersDistinct(exts, fname, names, readable);
    SortSorts(ms);
    CountNames(ms, es);
    forall e: FileEntry
      ensures e in es <==> e in ms
    {
      assert e in multiset(es) <==> e in multiset(ms);
    }
    forall n: string
      ensures n in names && n in readable && SameSet(exts, n, fname) <==> exists e :: e in es && e.name == n
    {
      if n in names && n in readable && SameSet(exts, n, fname) {
        assert FileEntry(n, n == fname) in es;
      }
    }
    assert SameSet(exts, fname, fname);
  }
}
