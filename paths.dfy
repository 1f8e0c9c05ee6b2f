/**
 * POSIX `pathlib.PurePosixPath` reduced to what the plugin uses: a path is read
 * as its sequence of parts; `parts`, `name`, `stem`, `parent`, `/` and `str()`
 * are defined on that sequence.
 */
module Paths {
  import opened Text

  /** `s.split('/')`. */
  function Segments(s: string): (r: seq<string>)
    ensures |r| > 0
    ensures forall i :: 0 <= i < |r| ==> '/' !in r[i]
    decreases |s|
  {
    var k := IndexOf(s, '/');
    if k == |s| then [s] else [s[..k]] + Segments(s[k + 1..])
  }

  /** A part of a path below its root: non-empty, not `.`, no separator. */
  predicate IsComponent(c: string) {
    c != "" && c != "." && '/' !in c
  }

  predicate AreComponents(cs: seq<string>) {
    forall i :: 0 <= i < |cs| ==> IsComponent(cs[i])
  }

  /** The segments pathlib keeps: empty segments (doubled or trailing slashes) and `.` are dropped. */
  function Keep(segs: seq<string>): (r: seq<string>)
    requires forall i :: 0 <= i < |segs| ==> '/' !in segs[i]
    ensures AreComponents(r)
    ensures AreComponents(segs) ==> r == segs
  {
    if segs == [] then []
    else (if segs[0] == "" || segs[0] == "." then [] else [segs[0]]) + Keep(segs[1..])
  }

  /** The root part of an absolute path. */
  function Anchor(absolute: bool): seq<string> {
    if absolute then ["/"] else []
  }

  /** A path that starts at the root. */
  predicate IsAbsolute(p: string) {
    p != "" && p[0] == '/'
  }

  /** `PurePosixPath(p).parts`. */
  function Parts(p: string): (parts: seq<string>)
    ensures IsAbsolute(p) ==> parts != [] && parts[0] == "/" && AreComponents(parts[1..])
    ensures !IsAbsolute(p) ==> AreComponents(parts)
  {
    var rest := Keep(Segments(p));
    assert (["/"] + rest)[1..] == rest;
    Anchor(IsAbsolute(p)) + rest
  }

  /** `str(PurePosixPath(*parts))`; the empty path prints as `.`. */
  function PathString(parts: seq<string>): string {
    if parts == [] then "."
    else if parts[0] == "/" then "/" + JoinWith(parts[1..], "/")
    else JoinWith(parts, "/")
  }

  lemma {:induction false} SegmentsOfJoin(cs: seq<string>)
    requires cs != [] && forall i :: 0 <= i < |cs| ==> '/' !in cs[i]
    ensures Segments(JoinWith(cs, "/")) == cs
    decreases |cs|
  {
    if |cs| > 1 {
      var rest := JoinWith(cs[1..], "/");
      assert JoinWith(cs, "/") == cs[0] + "/" + rest;
      SegmentsOfSplit(cs[0], rest);
      SegmentsOfJoin(cs[1..]);
      assert cs == [cs[0]] + cs[1..];
    }
  }

  /** A first segment without a separator, a separator, then the rest: the first segment comes off as it is. */
  lemma SegmentsOfSplit(a: string, rest: string)
    requires '/' !in a
    ensures Segments(a + "/" + rest) == [a] + Segments(rest)
  {
    var s := a + "/" + rest;
    assert s[|a|] == '/';
    assert IndexOf(s, '/') == |a| by {
      forall i | 0 <= i < |a| ensures s[i] != '/' { assert s[i] == a[i]; }
    }
    assert s[..|a|] == a;
    assert s[|a| + 1..] == rest;
  }

  /** Reading back a relative path printed from components gives the same components. */
  lemma PartsOfRelative(cs: seq<string>)
    requires AreComponents(cs)
    ensures Parts(PathString(cs)) == cs
  {
    var p := PathString(cs);
    if cs == [] {
      assert p == ".";
      assert Segments(".") == ["."];
    } else {
      assert cs[0] != "/" by { assert IsComponent(cs[0]); }
      SegmentsOfJoin(cs);
      assert p[0] != '/' by {
        if |cs| == 1 { assert p == cs[0]; assert p[0] in cs[0]; }
        else { assert p == cs[0] + "/" + JoinWith(cs[1..], "/"); assert p[0] == cs[0][0]; }
      }
    }
  }

  /** Reading back an absolute path printed from components gives the root and the same components. */
  lemma PartsOfAbsolute(cs: seq<string>)
    requires AreComponents(cs)
    ensures Parts(PathString(["/"] + cs)) == ["/"] + cs
  {
    var parts := ["/"] + cs;
    var p := PathString(parts);
    assert parts[1..] == cs;
    var j := JoinWith(cs, "/");
    assert p == "/" + j;
    assert IndexOf(p, '/') == 0;
    assert p[1..] == j;
    if cs == [] {
      assert Segments(j) == [""];
    } else {
      SegmentsOfJoin(cs);
    }
    assert Segments(p) == [""] + Segments(j);
    assert Keep(Segments(p)) == Keep(Segments(j));
  }

  /** Reading back a path printed from parts gives the same parts. */
  lemma PartsOfPathString(absolute: bool, cs: seq<string>)
    requires AreComponents(cs)
    ensures Parts(PathString(Anchor(absolute) + cs)) == Anchor(absolute) + cs
  {
    if absolute {
      PartsOfAbsolute(cs);
    } else {
      assert Anchor(absolute) + cs == cs;
      PartsOfRelative(cs);
    }
  }

  /** `PurePosixPath(p).name`: the last component, or empty for `.` and `/`. */
  function Name(p: string): (name: string)
    ensures '/' !in name
  {
    var parts := Parts(p);
    var k := if IsAbsolute(p) then 1 else 0;
    if |parts| == k then "" else assert parts[|parts| - 1] == parts[k..][|parts| - 1 - k]; parts[|parts| - 1]
  }

  /** `PurePosixPath(p).stem`: the name without its last suffix, a suffix being a final dot that neither starts nor ends the name. */
  function Stem(p: string): (stem: string)
    ensures '/' !in stem
    ensures |stem| <= |Name(p)| && stem == Name(p)[..|stem|]
  {
    var name := Name(p);
    var i := RFind(name, '.');
    if 0 < i < |name| - 1 then
      assert forall c :: c in name[..i] ==> c in name;
      name[..i]
    else name
  }

  /** The stem of a plain file name `<base>.<ext>` is `<base>`. */
  lemma StemOfFileName(base: string, ext: string)
    requires base != "" && base != "." && ext != ""
    requires '/' !in base && '/' !in ext && '.' !in ext
    ensures Stem(base + "." + ext) == base
  {
    var n := base + "." + ext;
    assert '/' !in n by {
      forall i | 0 <= i < |n| ensures n[i] != '/' {
        if i < |base| { assert n[i] == base[i]; } else if i > |base| { assert n[i] == ext[i - |base| - 1]; }
      }
    }
    assert PathString(Anchor(false) + [n]) == n;
    NameOfPathString(false, [n]);
    RFindSeparator(base, '.', ext);
  }

  /** `PurePosixPath(*parts).parent.parts`: the parts without the last; the root and the empty path are their own parents. */
  function ParentParts(parts: seq<string>): (r: seq<string>)
    ensures |r| <= |parts|
  {
    if parts == [] || parts == ["/"] then parts else parts[..|parts| - 1]
  }

  /** `PurePosixPath(a) / b`: an absolute `b` replaces `a`. */
  function JoinPath(a: string, b: string): (p: string)
  {
    var pb := Parts(b);
    if IsAbsolute(b) then PathString(pb) else PathString(Parts(a) + pb)
  }

  /** `(PurePosixPath(a) / b).parts`: the parts of `b` when it is absolute, otherwise those of `a` followed by those of `b`. */
  lemma JoinPathParts(a: string, b: string)
    ensures Parts(JoinPath(a, b)) == if IsAbsolute(b) then Parts(b) else Parts(a) + Parts(b)
  {
    var pb := Parts(b);
    if IsAbsolute(b) {
      assert pb == Anchor(true) + pb[1..];
      PartsOfPathString(true, pb[1..]);
    } else {
      var pa := Parts(a);
      var k := if IsAbsolute(a) then 1 else 0;
      assert pa == Anchor(IsAbsolute(a)) + pa[k..];
      ComponentsConcat(pa[k..], pb);
      assert pa + pb == Anchor(IsAbsolute(a)) + (pa[k..] + pb);
      PartsOfPathString(IsAbsolute(a), pa[k..] + pb);
    }
  }

  /** Components followed by components are components. */
  lemma ComponentsConcat(x: seq<string>, y: seq<string>)
    requires AreComponents(x) && AreComponents(y)
    ensures AreComponents(x + y)
  {
    forall i | 0 <= i < |x + y| ensures IsComponent((x + y)[i]) {
      if i < |x| { assert (x + y)[i] == x[i]; } else { assert (x + y)[i] == y[i - |x|]; }
    }
  }

  /** A page stored below `|cs| - 1` directories has a parent of that many parts. */
  lemma ParentDepth(cs: seq<string>)
    requires AreComponents(cs) && cs != []
    ensures |ParentParts(Parts(PathString(cs)))| == |cs| - 1
  {
    PartsOfPathString(false, cs);
    assert Anchor(false) + cs == cs;
    assert cs != ["/"] by { assert IsComponent(cs[0]); }
  }

  /** The name of a path printed from components is its last component. */
  lemma NameOfPathString(absolute: bool, cs: seq<string>)
    requires AreComponents(cs) && cs != []
    ensures Name(PathString(Anchor(absolute) + cs)) == cs[|cs| - 1]
  {
    var p := PathString(Anchor(absolute) + cs);
    PartsOfPathString(absolute, cs);
    var parts := Parts(p);
    if absolute {
      assert parts[0] == "/" && !IsComponent(parts[0]);
      assert IsAbsolute(p);
      assert parts[1..] == cs;
    } else {
      assert parts == cs;
      assert !IsAbsolute(p);
    }
  }
}
