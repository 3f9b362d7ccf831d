/** The part of POSIX `pathlib.PurePath` that the config expanders rely on:
    building a path from a string, `str()` of a path, `.parent`, the `/`
    operator, `.name` and `.suffix`.  A path is a flag for the root `/` and
    its parts; `..` is an ordinary part and is never collapsed. */
module PurePaths {

  datatype Path = Path(absolute: bool, parts: seq<string>)

  /** What pathlib keeps as a part: no empty part, no `.`, no separator. */
  predicate IsPart(s: string) {
    s != "" && s != "." && '/' !in s
  }

  predicate WellFormed(p: Path) {
    forall i :: 0 <= i < |p.parts| ==> IsPart(p.parts[i])
  }

  /** Index of the first `/` in `s`, or `|s|` when there is none. */
  function SlashIndex(s: string): (i: nat)
    ensures i <= |s|
    ensures i < |s| ==> s[i] == '/'
    ensures forall j :: 0 <= j < i ==> s[j] != '/'
  {
    if s == [] then 0
    else if s[0] == '/' then 0
    else 1 + SlashIndex(s[1..])
  }

  /** pathlib drops empty segments (`a//b`) and `.` segments (`a/./b`). */
  function Keep(segment: string): (r: seq<string>)
    ensures '/' !in segment ==> forall i :: 0 <= i < |r| ==> IsPart(r[i])
  {
    if segment == "" || segment == "." then [] else [segment]
  }

  function Parts(s: string): (r: seq<string>)
    ensures forall i :: 0 <= i < |r| ==> IsPart(r[i])
    decreases |s|
  {
    if s == [] then []
    else
      var i := SlashIndex(s);
      assert '/' !in s[..i];
      if i == |s| then Keep(s) else Keep(s[..i]) + Parts(s[i + 1..])
  }

  /** `PurePosixPath(s)`: absolute exactly when `s` starts with `/`. */
  function Parse(s: string): (p: Path)
    ensures WellFormed(p)
    ensures p.absolute <==> |s| > 0 && s[0] == '/'
  {
    Path(|s| > 0 && s[0] == '/', Parts(s))
  }

  function JoinParts(parts: seq<string>): string
  {
    if parts == [] then ""
    else if |parts| == 1 then parts[0]
    else parts[0] + "/" + JoinParts(parts[1..])
  }

  /** `str(p)`: the root, then the parts separated by `/`; an empty relative path is `.`. */
  function Format(p: Path): string
  {
    if p.absolute then "/" + JoinParts(p.parts)
    else if p.parts == [] then "."
    else JoinParts(p.parts)
  }

  lemma {:induction false} SlashIndexAppend(a: string, t: string)
    requires '/' !in a
    ensures SlashIndex(a + t) == |a| + SlashIndex(t)
  {
    if a != [] {
      assert (a + t)[1..] == a[1..] + t;
      SlashIndexAppend(a[1..], t);
    } else {
      assert a + t == t;
    }
  }

  /** A single part parses to itself. */
  lemma PartsOfPart(s: string)
    requires IsPart(s)
    ensures Parts(s) == [s]
  {
    SlashIndexAppend(s, "");
    assert s + "" == s;
  }

  /** A part followed by a separator splits off as the first part. */
  lemma PartsOfSlashJoin(head: string, rest: string)
    requires IsPart(head)
    ensures Parts(head + "/" + rest) == [head] + Parts(rest)
  {
    var s := head + "/" + rest;
    SlashIndexAppend(head, "/" + rest);
    assert s == head + ("/" + rest);
    assert s[..|head|] == head;
    assert s[|head| + 1..] == rest;
  }

  /** `Parts` on every string: a slash-free segment is kept unless it is empty or `.`,
      and a string splits at its first `/` into that segment and the parts of the rest. */
  lemma SplitAtFirstSlash(a: string, b: string)
    requires '/' !in a
    ensures Parts(a) == Keep(a)
    ensures Parts(a + "/" + b) == Keep(a) + Parts(b)
  {
    SlashIndexAppend(a, "");
    assert a + "" == a;
    var s := a + "/" + b;
    SlashIndexAppend(a, "/" + b);
    assert s == a + ("/" + b);
    assert s[..|a|] == a;
    assert s[|a| + 1..] == b;
  }

  /** A leading `./` changes nothing about a relative path: `./dims.toml` is `dims.toml`. */
  lemma DotSlashIsIgnored(s: string)
    requires s == [] || s[0] != '/'
    ensures Parse("./" + s) == Parse(s)
  {
    SplitAtFirstSlash(".", s);
    assert "./" + s == "." + "/" + s;
  }

  lemma {:induction false} PartsOfJoinParts(parts: seq<string>)
    requires forall i :: 0 <= i < |parts| ==> IsPart(parts[i])
    ensures Parts(JoinParts(parts)) == parts
  {
    if |parts| == 1 {
      PartsOfPart(parts[0]);
    } else if |parts| > 1 {
      PartsOfSlashJoin(parts[0], JoinParts(parts[1..]));
      PartsOfJoinParts(parts[1..]);
      assert parts == [parts[0]] + parts[1..];
    }
  }

  lemma {:induction false} JoinPartsHead(parts: seq<string>)
    requires parts != [] && IsPart(parts[0])
    ensures JoinParts(parts) != [] && JoinParts(parts)[0] == parts[0][0]
  {
  }

  /** Reading back a printed path gives the same path. */
  lemma {:induction false} ParseFormat(p: Path)
    requires WellFormed(p)
    ensures Parse(Format(p)) == p
  {
    var s := Format(p);
    if p.absolute {
      var j := JoinParts(p.parts);
      assert s[1..] == j;
      assert SlashIndex(s) == 0;
      PartsOfJoinParts(p.parts);
      if s[1..] == [] {
        assert Parts(s) == Keep(s[..0]) + Parts(s[1..]);
      }
    } else if p.parts == [] {
      assert SlashIndex(s) == 1;
    } else {
      JoinPartsHead(p.parts);
      PartsOfJoinParts(p.parts);
    }
  }

  /** `p.parent`: the path without its last part; the root and `.` are their own parent. */
  function Parent(p: Path): (q: Path)
    ensures q.absolute == p.absolute
    ensures p.parts == [] ==> q == p
    ensures p.parts != [] ==> q.parts + [p.parts[|p.parts| - 1]] == p.parts
  {
    if p.parts == [] then p else Path(p.absolute, p.parts[..|p.parts| - 1])
  }

  /** `p / q`: an absolute right operand replaces the left one. */
  function Join(p: Path, q: Path): (r: Path)
    ensures q.absolute ==> r == q
    ensures !q.absolute ==> r.absolute == p.absolute && r.parts == p.parts + q.parts
    ensures WellFormed(p) && WellFormed(q) ==> WellFormed(r)
  {
    if q.absolute then q else Path(p.absolute, p.parts + q.parts)
  }

  /** Joining one relative part and taking the parent gives the directory back. */
  lemma ParentOfJoin(dir: Path, name: string)
    ensures Parent(Join(dir, Path(false, [name]))) == dir
  {
    assert (dir.parts + [name])[..|dir.parts|] == dir.parts;
  }

  /** `p.name`: the last part, or "" for the root and `.`. */
  function Name(p: Path): string
  {
    if p.parts == [] then "" else p.parts[|p.parts| - 1]
  }

  /** Index of the last `.` in `name`, or -1 when there is none. */
  function LastDot(name: string): (i: int)
    ensures -1 <= i < |name|
    ensures i >= 0 ==> name[i] == '.'
    ensures forall j :: i < j < |name| ==> name[j] != '.'
  {
    if name == [] then -1
    else if name[|name| - 1] == '.' then |name| - 1
    else LastDot(name[..|name| - 1])
  }

  /** `p.suffix`: from the last `.` of the name on, but only when that dot is
      neither the first nor the last character of the name. */
  function Suffix(p: Path): (r: string)
    ensures r != "" ==> |r| >= 2 && r[0] == '.' && |r| < |Name(p)|
    ensures r != "" ==> r == Name(p)[|Name(p)| - |r|..]
    ensures forall j :: 0 < j < |r| ==> r[j] != '.'
  {
    var name := Name(p);
    var i := LastDot(name);
    if 0 < i < |name| - 1 then name[i..] else ""
  }

  lemma {:induction false} LastDotAppend(stem: string, ext: string)
    requires '.' !in ext
    ensures LastDot(stem + "." + ext) == |stem|
    decreases |ext|
  {
    var s := stem + "." + ext;
    if ext == [] {
      assert s[|s| - 1] == '.';
    } else {
      assert s[|s| - 1] == ext[|ext| - 1];
      assert s[..|s| - 1] == stem + "." + ext[..|ext| - 1];
      LastDotAppend(stem, ext[..|ext| - 1]);
    }
  }

  /** A name `stem.ext` with a non-empty stem and a dot-free, non-empty `ext` has suffix `.ext`. */
  lemma SuffixOfName(dir: seq<string>, absolute: bool, stem: string, ext: string)
    requires stem != "" && ext != "" && '.' !in ext
    ensures Suffix(Path(absolute, dir + [stem + "." + ext])) == "." + ext
  {
    var name := stem + "." + ext;
    LastDotAppend(stem, ext);
    assert Name(Path(absolute, dir + [name])) == name;
    assert name[|stem|..] == "." + ext;
  }
}
