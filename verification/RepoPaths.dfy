/** Repository-relative paths: splitting, normalising, and ownership by the deepest directory. */
module RepoPaths {
  import opened Prelude
  import opened Sequences

  // ---------------------------------------------------------------- segments

  /** The pieces between slashes; never empty. */
  function Split(s: string): (parts: seq<string>)
    ensures parts != []
  {
    if s == [] then [""]
    else Prepend(s[0], Split(s[1..]))
  }

  /** One more character in front: a slash opens a piece, any other joins the first. */
  function Prepend(c: char, parts: seq<string>): (more: seq<string>)
    requires parts != []
    ensures more != []
  {
    if c == '/' then [""] + parts else [[c] + parts[0]] + parts[1..]
  }

  lemma PrependToFront(c: char, parts: seq<string>, more: seq<string>)
    requires parts != []
    ensures Prepend(c, parts + more) == Prepend(c, parts) + more
  {
    assert (parts + more)[0] == parts[0];
    assert (parts + more)[1..] == parts[1..] + more;
  }

  /** Two pieces with a slash between them. */
  function Glue(a: string, b: string): string { a + "/" + b }

  function Join(parts: seq<string>): string
    requires parts != []
  {
    if |parts| == 1 then parts[0] else Glue(parts[0], Join(parts[1..]))
  }

  lemma {:induction false} JoinOfSplit(s: string)
    ensures Join(Split(s)) == s
  {
    if s != [] {
      JoinOfSplit(s[1..]);
      var rest := Split(s[1..]);
      if s[0] == '/' {
        assert Split(s)[1..] == rest;
      } else {
        assert Split(s)[1..] == rest[1..];
      }
    }
  }

  lemma {:induction false} SplitOfGlue(a: string, b: string)
    ensures Split(Glue(a, b)) == Split(a) + Split(b)
  {
    var x := Glue(a, b);
    if a == [] {
      assert x[0] == '/' && x[1..] == b;
    } else {
      SplitOfGlue(a[1..], b);
      assert x[0] == a[0];
      assert x[1..] == Glue(a[1..], b);
      PrependToFront(a[0], Split(a[1..]), Split(b));
    }
  }

  lemma {:induction false} JoinOfConcat(a: seq<string>, b: seq<string>)
    requires a != [] && b != []
    ensures Join(a + b) == Glue(Join(a), Join(b))
  {
    if |a| == 1 {
      assert (a + b)[1..] == b;
    } else {
      assert (a + b)[1..] == a[1..] + b;
      JoinOfConcat(a[1..], b);
    }
  }

  // ---------------------------------------------------------------- containment

  /** The string test of the code: the directory itself or anything below it. */
  predicate Within(dir: string, path: string) {
    path == dir || dir + "/" <= path
  }

  /** It is exactly "the directory's segments begin the path's segments". */
  lemma WithinIsSegmentPrefix(dir: string, path: string)
    ensures Within(dir, path) <==> Split(dir) <= Split(path)
  {
    if Within(dir, path) { WithinGivesPrefix(dir, path); }
    if Split(dir) <= Split(path) { PrefixGivesWithin(dir, path); }
  }

  lemma WithinGivesPrefix(dir: string, path: string)
    requires Within(dir, path)
    ensures Split(dir) <= Split(path)
  {
    if path != dir {
      assert path == Glue(dir, path[|dir| + 1..]);
      SplitOfGlue(dir, path[|dir| + 1..]);
    }
  }

  lemma PrefixGivesWithin(dir: string, path: string)
    requires Split(dir) <= Split(path)
    ensures Within(dir, path)
  {
    var rest := Split(path)[|Split(dir)|..];
    assert Split(path) == Split(dir) + rest;
    JoinOfSplit(dir);
    JoinOfSplit(path);
    if rest != [] {
      JoinOfConcat(Split(dir), rest);
      assert path == Glue(dir, Join(rest));
    } else {
      assert Split(path) == Split(dir);
    }
  }

  /** Of two directories holding one path, the longer string is strictly deeper. */
  lemma LongerIsDeeper(a: string, b: string, path: string)
    requires Within(a, path) && Within(b, path) && a != b
    ensures |a| != |b|
    ensures |a| < |b| ==> Within(a, b) && |Split(a)| < |Split(b)|
  {
    assert a <= path && b <= path;
    assert a == path[..|a|] && b == path[..|b|];
    if |a| < |b| {
      LongerContains(a, b, path);
      SplitOfGlue(a, b[|a| + 1..]);
    }
  }

  lemma LongerContains(a: string, b: string, path: string)
    requires Within(a, path) && Within(b, path) && |a| < |b|
    ensures Within(a, b) && b == Glue(a, b[|a| + 1..])
  {
    assert b == path[..|b|];
    assert (a + "/")[|a|] == '/' == path[|a|] == b[|a|];
    assert a + "/" <= b;
  }

  /** The package that owns a path: its directory holds the path and is deeper than any other that does. */
  ghost predicate IsOwner(dirs: map<string, string>, path: string, name: string) {
    && name in dirs && Split(dirs[name]) <= Split(path)
    && forall n :: n in dirs && n != name && Split(dirs[n]) <= Split(path) ==>
         |Split(dirs[n])| < |Split(dirs[name])|
  }

  lemma OwnerIsUnique(dirs: map<string, string>, path: string, a: string, b: string)
    requires IsOwner(dirs, path, a) && IsOwner(dirs, path, b)
    ensures a == b
  {
  }

  ghost predicate Injective(dirs: map<string, string>) {
    forall a, b :: a in dirs && b in dirs && a != b ==> dirs[a] != dirs[b]
  }

  /** Distinct directories: whoever wins on string length is the owner. */
  lemma LongestIsOwner(dirs: map<string, string>, path: string, name: string)
    requires Injective(dirs) && name in dirs && Within(dirs[name], path)
    requires forall n :: n in dirs && Within(dirs[n], path) ==> |dirs[n]| <= |dirs[name]|
    ensures IsOwner(dirs, path, name)
  {
    WithinIsSegmentPrefix(dirs[name], path);
    forall n | n in dirs && n != name && Split(dirs[n]) <= Split(path)
      ensures |Split(dirs[n])| < |Split(dirs[name])|
    {
      WithinIsSegmentPrefix(dirs[n], path);
      LongerIsDeeper(dirs[n], dirs[name], path);
    }
  }

  // ---------------------------------------------------------------- the owner scan

  function LengthOf(dirs: map<string, string>, n: string): nat { if n in dirs then |dirs[n]| else 0 }

  /** Longest directory first. */
  function ByLength(dirs: map<string, string>): (string, string) -> bool {
    (a, b) => LengthOf(dirs, a) > LengthOf(dirs, b)
  }

  /** Sort by directory length, longest first, then take the first directory that holds the path. */
  method FindOwner(dirs: map<string, string>, names: seq<string>, path: string) returns (owner: Option<string>)
    requires Injective(dirs) && Elements(names) == dirs.Keys
    ensures owner.Some? ==> IsOwner(dirs, path, owner.value)
    ensures owner.None? ==> forall n :: n in dirs ==> !(Split(dirs[n]) <= Split(path))
  {
    var sorted := Sort(names, ByLength(dirs));
    LongestFirst(dirs, names);
    for k := 0 to |sorted|
      invariant forall j :: 0 <= j < k ==> !Within(dirs[sorted[j]], path)
    {
      if Within(dirs[sorted[k]], path) {
        FirstMatchIsOwner(dirs, sorted, path, k);
        return Some(sorted[k]);
      }
    }
    forall n | n in dirs ensures !(Split(dirs[n]) <= Split(path)) {
      WithinIsSegmentPrefix(dirs[n], path);
    }
    owner := None;
  }

  ghost predicate LongerFirst(dirs: map<string, string>, s: seq<string>) {
    && (forall n :: n in s <==> n in dirs)
    && forall i, j :: 0 <= i < j < |s| ==> |dirs[s[i]]| >= |dirs[s[j]]|
  }

  lemma LongestFirst(dirs: map<string, string>, names: seq<string>)
    requires Elements(names) == dirs.Keys
    ensures LongerFirst(dirs, Sort(names, ByLength(dirs)))
  {
    var sorted := Sort(names, ByLength(dirs));
    SortHas(names, ByLength(dirs));
    SameMembers(sorted, names);
    SortArranges(names, ByLength(dirs), (a, b) => true);
    forall n ensures n in sorted <==> n in dirs { assert n in sorted <==> n in Elements(sorted); }
    forall i, j | 0 <= i < j < |sorted| ensures |dirs[sorted[i]]| >= |dirs[sorted[j]]| {
      assert !ByLength(dirs)(sorted[j], sorted[i]);
    }
  }

  lemma FirstMatchIsOwner(dirs: map<string, string>, sorted: seq<string>, path: string, k: nat)
    requires Injective(dirs) && LongerFirst(dirs, sorted) && k < |sorted| && Within(dirs[sorted[k]], path)
    requires forall j :: 0 <= j < k ==> !Within(dirs[sorted[j]], path)
    ensures IsOwner(dirs, path, sorted[k])
  {
    forall n | n in dirs && Within(dirs[n], path) ensures |dirs[n]| <= |dirs[sorted[k]]| {
      var j :| 0 <= j < |sorted| && sorted[j] == n;
    }
    LongestIsOwner(dirs, path, sorted[k]);
  }

  // ---------------------------------------------------------------- normalising

  predicate IsSpace(c: char) {
    var n := c as int;
    || 0x09 <= n <= 0x0D || n == 0x20 || n == 0xA0 || n == 0x1680 || 0x2000 <= n <= 0x200A
    || n == 0x2028 || n == 0x2029 || n == 0x202F || n == 0x205F || n == 0x3000 || n == 0xFEFF
  }

  function TrimStart(s: string): string { if s != [] && IsSpace(s[0]) then TrimStart(s[1..]) else s }

  function TrimEnd(s: string): string {
    if s != [] && IsSpace(s[|s| - 1]) then TrimEnd(s[..|s| - 1]) else s
  }

  function Trim(s: string): string { TrimEnd(TrimStart(s)) }

  function Slashed(s: string): string { seq(|s|, i requires 0 <= i < |s| => if s[i] == '\\' then '/' else s[i]) }

  predicate IsLetter(c: char) { 'a' <= c <= 'z' || 'A' <= c <= 'Z' }

  predicate IsAbsolute(p: string) { (p != [] && p[0] == '/') || (|p| >= 2 && IsLetter(p[0]) && p[1] == ':') }

  /** Resolve "." and ".." from a stack of segments; climbing above the root fails. */
  function Resolve(parts: seq<string>, stack: seq<string>): Option<seq<string>>
    decreases |parts|
  {
    if parts == [] then Some(stack)
    else if parts[0] == "" || parts[0] == "." then Resolve(parts[1..], stack)
    else if parts[0] == ".." then
      if stack == [] then None else Resolve(parts[1..], stack[..|stack| - 1])
    else Resolve(parts[1..], stack + [parts[0]])
  }

  /** What a raw path means: no leading-dot stripping, only trimming, slashes and segment resolution. */
  function Normalize(raw: string): Option<string> {
    var p := Slashed(Trim(raw));
    if p == "" || IsAbsolute(p) then None
    else match Resolve(Split(p), [])
      case None => None
      case Some(stack) => if stack == [] then None else Some(Join(stack))
  }

  predicate StartsDotSlash(p: string) { |p| >= 2 && p[0] == '.' && p[1] == '/' }

  /** A leading "./" contributes a "." segment, which resolution drops anyway. */
  lemma DotSlashIsNeutral(p: string, stack: seq<string>)
    requires StartsDotSlash(p)
    ensures Resolve(Split(p), stack) == Resolve(Split(p[2..]), stack)
  {
    assert p == Glue(".", p[2..]);
    SplitOfGlue(".", p[2..]);
    SplitOfPlain(".");
    assert (["."] + Split(p[2..]))[1..] == Split(p[2..]);
  }

  method NormalizeRepoRelativePath(raw: string) returns (r: Option<string>)
    ensures r == Normalize(raw)
  {
    var p := Slashed(Trim(raw));
    if p == "" || IsAbsolute(p) { return None; }
    ghost var whole := p;
    while StartsDotSlash(p)
      invariant Resolve(Split(p), []) == Resolve(Split(whole), [])
      decreases |p|
    {
      DotSlashIsNeutral(p, []);
      p := p[2..];
    }
    var parts := Split(p);
    var stack: seq<string> := [];
    for k := 0 to |parts|
      invariant Resolve(parts[k..], stack) == Resolve(Split(whole), [])
    {
      assert parts[k..][1..] == parts[k + 1..];
      var part := parts[k];
      if part == "" || part == "." { continue; }
      if part == ".." {
        if stack == [] { return None; }
        stack := stack[..|stack| - 1];
      } else {
        stack := stack + [part];
      }
    }
    if stack == [] { return None; }
    r := Some(Join(stack));
  }

  predicate PlainSegment(p: string) { p != "" && p != "." && p != ".." && '/' !in p }

  lemma {:induction false} SplitHasNoSlash(s: string)
    ensures forall k :: 0 <= k < |Split(s)| ==> '/' !in Split(s)[k]
  {
    if s != [] { SplitHasNoSlash(s[1..]); }
  }

  lemma {:induction false} ResolveIsPlain(parts: seq<string>, stack: seq<string>)
    requires forall k :: 0 <= k < |parts| ==> '/' !in parts[k]
    requires forall k :: 0 <= k < |stack| ==> PlainSegment(stack[k])
    ensures Resolve(parts, stack).Some? ==>
              forall k :: 0 <= k < |Resolve(parts, stack).value| ==> PlainSegment(Resolve(parts, stack).value[k])
    decreases |parts|
  {
    if parts != [] {
      if parts[0] == "" || parts[0] == "." { ResolveIsPlain(parts[1..], stack); }
      else if parts[0] == ".." {
        if stack != [] { ResolveIsPlain(parts[1..], stack[..|stack| - 1]); }
      } else { ResolveIsPlain(parts[1..], stack + [parts[0]]); }
    }
  }

  lemma {:induction false} SplitOfPlain(s: string)
    requires '/' !in s
    ensures Split(s) == [s]
  {
    if s != [] {
      SplitOfPlain(s[1..]);
      assert s == [s[0]] + s[1..];
    }
  }

  lemma {:induction false} SplitOfJoin(parts: seq<string>)
    requires parts != [] && forall k :: 0 <= k < |parts| ==> '/' !in parts[k]
    ensures Split(Join(parts)) == parts
  {
    SplitOfPlain(parts[0]);
    if |parts| > 1 {
      SplitOfJoin(parts[1..]);
      SplitOfGlue(parts[0], Join(parts[1..]));
    }
  }

  /** A normalised path has only plain segments, and they are exactly the resolved ones. */
  lemma NormalizeIsPlain(raw: string)
    ensures
      Normalize(raw).Some? ==>
        var segments := Split(Normalize(raw).value);
        && Resolve(Split(Slashed(Trim(raw))), []) == Some(segments)
        && forall k :: 0 <= k < |segments| ==> PlainSegment(segments[k])
  {
    var p := Slashed(Trim(raw));
    SplitHasNoSlash(p);
    ResolveIsPlain(Split(p), []);
    if Normalize(raw).Some? {
      SplitOfJoin(Resolve(Split(p), []).value);
    }
  }

  // ---------------------------------------------------------------- what trimming and resolution mean

  /** Trimming takes away the white space before the first and after the last other character, and nothing else. */
  lemma TrimExactly(s: string) returns (i: nat, j: nat)
    ensures i <= j <= |s| && Trim(s) == s[i..j]
    ensures forall k :: 0 <= k < |s| && (k < i || j <= k) ==> IsSpace(s[k])
    ensures i < j ==> !IsSpace(s[i]) && !IsSpace(s[j - 1])
  {
    i := StartTrimmed(s);
    var m := EndTrimmed(s[i..]);
    j := i + m;
    assert s[i..][..m] == s[i..j];
    forall k | j <= k < |s| ensures IsSpace(s[k]) { assert s[k] == s[i..][k - i]; }
    if i < j { assert s[i..][m - 1] == s[j - 1]; }
  }

  lemma {:induction false} StartTrimmed(s: string) returns (i: nat)
    ensures i <= |s| && TrimStart(s) == s[i..] && (i < |s| ==> !IsSpace(s[i]))
    ensures forall k :: 0 <= k < i ==> IsSpace(s[k])
  {
    i := 0;
    if s != [] && IsSpace(s[0]) {
      var n := StartTrimmed(s[1..]);
      i := n + 1;
      assert s[1..][n..] == s[i..];
      forall k | 0 <= k < i ensures IsSpace(s[k]) { if k > 0 { assert s[k] == s[1..][k - 1]; } }
    }
  }

  lemma {:induction false} EndTrimmed(s: string) returns (j: nat)
    ensures j <= |s| && TrimEnd(s) == s[..j] && (j > 0 ==> !IsSpace(s[j - 1]))
    ensures forall k :: j <= k < |s| ==> IsSpace(s[k])
  {
    j := |s|;
    if s != [] && IsSpace(s[|s| - 1]) {
      j := EndTrimmed(s[..|s| - 1]);
      assert s[..|s| - 1][..j] == s[..j];
    }
  }

  /** Backslashes become slashes; a path is refused if it is empty, absolute, on a drive, climbs out or ends at the root. */
  lemma NormalizeExactly(raw: string)
    ensures
      var p := Slashed(Trim(raw));
      && |p| == |Trim(raw)| && (forall k :: 0 <= k < |p| ==> p[k] == if Trim(raw)[k] == '\\' then '/' else Trim(raw)[k])
      && (Normalize(raw).None? <==>
            || p == "" || p[0] == '/'
            || (|p| > 1 && p[1] == ':' && (65 <= p[0] as int <= 90 || 97 <= p[0] as int <= 122))
            || Resolve(Split(p), []) == None || Resolve(Split(p), []) == Some([]))
      && (Normalize(raw).Some? ==> Resolve(Split(p), []) == Some(Split(Normalize(raw).value)))
  {
    NormalizeIsPlain(raw);
  }

  /** Resolution goes segment by segment: a plain one is pushed, ".." takes one away or fails at the root, the others do nothing. */
  lemma ResolveLaws(part: string, stack: seq<string>)
    ensures part == "" || part == "." ==> Resolve([part], stack) == Some(stack)
    ensures part == ".." ==> Resolve([part], stack) == if stack == [] then None else Some(stack[..|stack| - 1])
    ensures part != "" && part != "." && part != ".." ==> Resolve([part], stack) == Some(stack + [part])
  {
    assert [part][1..] == [];
  }

  lemma {:induction false} ResolveConcat(a: seq<string>, b: seq<string>, stack: seq<string>)
    ensures Resolve(a + b, stack) == match Resolve(a, stack) case None => None case Some(s) => Resolve(b, s)
    decreases |a|
  {
    if a == [] {
      assert a + b == b;
    } else {
      assert (a + b)[0] == a[0] && (a + b)[1..] == a[1..] + b;
      if a[0] == "" || a[0] == "." { ResolveConcat(a[1..], b, stack); }
      else if a[0] == ".." { if stack != [] { ResolveConcat(a[1..], b, stack[..|stack| - 1]); } }
      else { ResolveConcat(a[1..], b, stack + [a[0]]); }
    }
  }

  lemma {:induction false} PlainResolves(parts: seq<string>, stack: seq<string>)
    requires forall k :: 0 <= k < |parts| ==> PlainSegment(parts[k])
    ensures Resolve(parts, stack) == Some(stack + parts)
    decreases |parts|
  {
    if parts != [] {
      PlainResolves(parts[1..], stack + [parts[0]]);
      assert stack + [parts[0]] + parts[1..] == stack + parts;
    } else {
      assert stack + parts == stack;
    }
  }

  lemma {:induction false} NothingToTrim(s: string)
    requires s == "" || (!IsSpace(s[0]) && !IsSpace(s[|s| - 1]))
    ensures Trim(s) == s
  {
  }

  lemma SlashOpensEmpty(p: string)
    requires p != ""
    ensures p[0] == '/' ==> Split(p)[0] == ""
  {
  }

  /** A path of plain segments without outer white space, backslash or drive is its own normal form. */
  lemma PlainPathIsNormal(p: string)
    requires p != "" && !IsSpace(p[0]) && !IsSpace(p[|p| - 1]) && '\\' !in p && !(|p| > 1 && p[1] == ':')
    requires forall k :: 0 <= k < |Split(p)| ==> PlainSegment(Split(p)[k])
    ensures Normalize(p) == Some(p)
  {
    NothingToTrim(p);
    assert Slashed(p) == p;
    SlashOpensEmpty(p);
    PlainResolves(Split(p), []);
    assert [] + Split(p) == Split(p);
    JoinOfSplit(p);
  }
}
