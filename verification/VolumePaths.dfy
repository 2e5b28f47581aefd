/** Paths an app may write inside a volume, and mountpoints it may not use.

    Both checks resolve `.` and `..` on the text alone: one counts depth, the other builds the
    canonical path. Paths are split into components as the standard library does on Unix. */
module VolumePaths {
  import opened Common

  // ---------------------------------------------------------------------
  // Components
  // ---------------------------------------------------------------------

  datatype Component = RootDir | CurDir | ParentDir | Normal(name: string)

  /** Where the first slash from `i` on is, or the length if there is none. */
  function SlashFrom(s: string, i: nat): (n: nat)
    requires i <= |s|
    ensures i <= n <= |s| && (forall k :: i <= k < n ==> s[k] != '/') && (n < |s| ==> s[n] == '/')
    decreases |s| - i
  {
    if i == |s| || s[i] == '/' then i else SlashFrom(s, i + 1)
  }

  function FirstSlash(s: string): (n: nat)
    ensures n <= |s| && (forall k :: 0 <= k < n ==> s[k] != '/') && (n < |s| ==> s[n] == '/')
  {
    SlashFrom(s, 0)
  }

  /** The text between slashes. */
  function Pieces(s: string): seq<string>
    decreases |s|
  {
    var n := FirstSlash(s);
    if n == |s| then [s] else [s[..n]] + Pieces(s[n + 1..])
  }

  /** Empty pieces and `.` say nothing; `..` goes up; anything else is a name. */
  function Meaning(piece: string): seq<Component> {
    if piece == "" || piece == "." then [] else if piece == ".." then [ParentDir] else [Normal(piece)]
  }

  function Meanings(pieces: seq<string>): seq<Component> {
    if pieces == [] then [] else Meaning(pieces[0]) + Meanings(pieces[1..])
  }

  predicate Absolute(p: string) {
    p != [] && p[0] == '/'
  }

  /** What a path says, its leading slash or dot aside. */
  function Said(p: string): seq<Component> {
    Meanings(Pieces(p))
  }

  function Components(p: string): seq<Component> {
    (if Absolute(p) then [RootDir] else if Pieces(p)[0] == "." then [CurDir] else []) + Said(p)
  }

  // ---------------------------------------------------------------------
  // Resolution
  // ---------------------------------------------------------------------

  /** Depth after the components, or nothing once one of them goes above the root. */
  function Depth(cs: seq<Component>): Option<nat> {
    if cs == [] then Some(0)
    else
      var d := Depth(cs[..|cs| - 1]);
      if d.None? then None
      else match cs[|cs| - 1]
        case Normal(_) => Some(d.value + 1)
        case ParentDir => if d.value == 0 then None else Some(d.value - 1)
        case RootDir => d
        case CurDir => d
  }

  /** The directory stack after the components, where going up from the root stays there. */
  function Resolved(cs: seq<Component>): seq<string> {
    if cs == [] then []
    else
      var st := Resolved(cs[..|cs| - 1]);
      match cs[|cs| - 1]
      case Normal(name) => st + [name]
      case ParentDir => if st == [] then [] else st[..|st| - 1]
      case RootDir => st
      case CurDir => st
  }

  /** Names entered less parents left, over the first `k` components. */
  function Net(cs: seq<Component>, k: nat): int
    requires k <= |cs|
  {
    if k == 0 then 0
    else Net(cs, k - 1) + match cs[k - 1] case Normal(_) => 1 case ParentDir => -1 case RootDir => 0 case CurDir => 0
  }

  /** At no point are there more parents than names. */
  predicate StaysInside(cs: seq<Component>) {
    forall k :: 0 <= k <= |cs| ==> Net(cs, k) >= 0
  }

  lemma {:induction false} NetOfPrefix(cs: seq<Component>, n: nat, k: nat)
    requires k <= n <= |cs|
    ensures Net(cs[..n], k) == Net(cs, k)
  {
    if k > 0 { NetOfPrefix(cs, n, k - 1); }
  }

  lemma StaysInsideSnoc(cs: seq<Component>)
    requires cs != []
    ensures StaysInside(cs) <==> StaysInside(cs[..|cs| - 1]) && Net(cs, |cs|) >= 0
  {
    var n := |cs| - 1;
    forall k | 0 <= k <= n ensures Net(cs[..n], k) == Net(cs, k) {
      NetOfPrefix(cs, n, k);
    }
  }

  /** The counter refines real resolution: it accepts exactly the paths that never leave the root,
      and then counts the length of the resolved path. */
  lemma {:induction false} DepthExactly(cs: seq<Component>)
    ensures Depth(cs).Some? <==> StaysInside(cs)
    ensures Depth(cs).Some? ==> Depth(cs).value == |Resolved(cs)| == Net(cs, |cs|)
  {
    if cs != [] {
      var n := |cs| - 1;
      DepthExactly(cs[..n]);
      StaysInsideSnoc(cs);
      NetOfPrefix(cs, n, n);
      assert StaysInside(cs[..n]) ==> Net(cs[..n], n) >= 0;
    }
  }

  // ---------------------------------------------------------------------
  // The volume checks
  // ---------------------------------------------------------------------

  /** What the check answers: the depth, or nothing for a path it refuses. */
  function PathDepth(path: string): Option<nat> {
    if '\0' in path || !Absolute(path) then None else Depth(Components(path))
  }

  lemma PathDepthExactly(path: string)
    ensures PathDepth(path).Some? <==> '\0' !in path && Absolute(path) && StaysInside(Components(path))
    ensures PathDepth(path).Some? ==> PathDepth(path).value == |Resolved(Components(path))|
  {
    DepthExactly(Components(path));
  }

  lemma DepthStep(cs: seq<Component>, i: nat)
    requires i < |cs| && Depth(cs[..i]).Some?
    ensures var d := Depth(cs[..i]).value;
            Depth(cs[..i + 1]) ==
            if cs[i].Normal? then Some(d + 1)
            else if cs[i].ParentDir? then if d == 0 then None else Some(d - 1)
            else Some(d)
  {
    assert cs[..i + 1][..i] == cs[..i];
  }

  method CountDepth(cs: seq<Component>) returns (r: Option<nat>)
    ensures r == Depth(cs)
  {
    var depth: nat := 0;
    for i := 0 to |cs|
      invariant Depth(cs[..i]) == Some(depth)
    {
      DepthStep(cs, i);
      match cs[i] {
        case Normal(_) =>
          depth := depth + 1;
        case ParentDir =>
          if depth == 0 {
            DepthStops(cs, i + 1);
            return None;
          }
          depth := depth - 1;
        case RootDir =>
        case CurDir =>
      }
    }
    assert cs[..|cs|] == cs;
    return Some(depth);
  }

  method VolumePathDepth(path: string) returns (r: Option<nat>)
    ensures r == PathDepth(path)
    ensures r.Some? <==> '\0' !in path && Absolute(path) && StaysInside(Components(path))
    ensures r.Some? ==> r.value == |Resolved(Components(path))|
  {
    PathDepthExactly(path);
    if '\0' in path {
      return None;
    }
    if !Absolute(path) {
      return None;
    }
    r := CountDepth(Components(path));
  }

  lemma {:induction false} DepthStops(cs: seq<Component>, k: nat)
    requires k <= |cs| && Depth(cs[..k]).None?
    ensures Depth(cs).None?
  {
    if k == |cs| {
      assert cs[..k] == cs;
    } else {
      assert cs[..|cs| - 1][..k] == cs[..k];
      DepthStops(cs[..|cs| - 1], k);
    }
  }

  predicate ValidWritePath(path: string) {
    PathDepth(path).Some? && PathDepth(path).value > 0
  }

  predicate ValidDirPath(path: string) {
    PathDepth(path).Some?
  }

  function JoinVolumePath(dir: string, rel: string): string {
    TrimSlashes(dir) + "/" + rel
  }

  // ---------------------------------------------------------------------
  // Joining
  // ---------------------------------------------------------------------

  lemma FirstSlashIs(s: string, n: nat)
    requires n <= |s| && '/' !in s[..n] && (n < |s| ==> s[n] == '/')
    ensures FirstSlash(s) == n
  {
    forall k | 0 <= k < n ensures s[k] != '/' {
      assert s[k] in s[..n];
    }
  }

  lemma {:induction false} PiecesJoin(a: string, b: string)
    ensures Pieces(a + "/" + b) == Pieces(a) + Pieces(b)
    decreases |a|
  {
    var s := a + "/" + b;
    var n := FirstSlash(a);
    assert s[..n] == a[..n];
    FirstSlashIs(s, n);
    if n == |a| {
      assert s[n + 1..] == b && a[..n] == a;
    } else {
      assert s[n + 1..] == a[n + 1..] + "/" + b;
      PiecesJoin(a[n + 1..], b);
    }
  }

  lemma {:induction false} MeaningsConcat(a: seq<string>, b: seq<string>)
    ensures Meanings(a + b) == Meanings(a) + Meanings(b)
  {
    if a == [] {
      assert a + b == b;
    } else {
      assert (a + b)[1..] == a[1..] + b;
      MeaningsConcat(a[1..], b);
    }
  }

  lemma SaidJoin(a: string, b: string)
    ensures Said(a + "/" + b) == Said(a) + Said(b)
  {
    PiecesJoin(a, b);
    MeaningsConcat(Pieces(a), Pieces(b));
  }

  lemma SaidName(name: string)
    requires '/' !in name
    ensures Said(name) == Meaning(name)
  {
    assert name[..|name|] == name;
    FirstSlashIs(name, |name|);
    assert Pieces(name) == [name];
    assert Meanings([name]) == Meaning(name) + Meanings([]);
  }

  lemma SlashSaysNothing(p: string)
    ensures Said(p + "/") == Said(p)
  {
    assert p + "/" == p + "/" + "";
    SaidJoin(p, "");
    SaidName("");
  }

  lemma {:induction false} TrimSaysSame(p: string)
    ensures Said(TrimSlashes(p)) == Said(p)
    ensures TrimSlashes(p) <= p
  {
    if p != [] && p[|p| - 1] == '/' {
      var q := p[..|p| - 1];
      TrimSaysSame(q);
      SlashSaysNothing(q);
      assert p == q + "/";
    }
  }

  /** A plain name: one a bundle file's path is made of. */
  predicate Plain(name: string) {
    name != "" && name != "." && name != ".." && '/' !in name && '\0' !in name
  }

  function Relative(names: seq<string>): string {
    if names == [] then "" else if |names| == 1 then names[0] else names[0] + "/" + Relative(names[1..])
  }

  function Normals(names: seq<string>): seq<Component> {
    seq(|names|, i requires 0 <= i < |names| => Normal(names[i]))
  }

  lemma {:induction false} RelativeSays(names: seq<string>)
    requires forall n :: n in names ==> Plain(n)
    ensures Said(Relative(names)) == Normals(names)
    ensures '\0' !in Relative(names)
  {
    if names == [] {
      SaidName("");
    } else {
      assert names[0] in names;
      SaidName(names[0]);
      if |names| > 1 {
        var rest := names[1..];
        RelativeSays(rest);
        SaidJoin(names[0], Relative(rest));
        assert Normals(names) == [Normal(names[0])] + Normals(rest);
      }
    }
  }

  lemma {:induction false} DepthOfNormals(cs: seq<Component>, names: seq<string>)
    requires Depth(cs).Some?
    ensures Depth(cs + Normals(names)) == Some(Depth(cs).value + |names|)
  {
    if names == [] {
      assert cs + Normals(names) == cs;
    } else {
      var n := |names| - 1;
      DepthOfNormals(cs, names[..n]);
      NormalsSnoc(cs, names, n);
      DepthOfOne(cs + Normals(names[..n]), names[n]);
    }
  }

  lemma NormalsSnoc(cs: seq<Component>, names: seq<string>, n: nat)
    requires |names| == n + 1
    ensures cs + Normals(names) == cs + Normals(names[..n]) + [Normal(names[n])]
  {
    assert Normals(names) == Normals(names[..n]) + [Normal(names[n])];
  }

  lemma DepthOfOne(cs: seq<Component>, name: string)
    requires Depth(cs).Some?
    ensures Depth(cs + [Normal(name)]) == Some(Depth(cs).value + 1)
  {
    var all := cs + [Normal(name)];
    assert all[..|all| - 1] == cs && all[|all| - 1] == Normal(name);
  }

  /** Writing a directory of files into an accepted place writes only accepted paths: joining an
      accepted directory with a relative path of plain names lands that much deeper. */
  lemma JoinAccepted(dir: string, names: seq<string>)
    requires ValidDirPath(dir)
    requires names != [] && forall n :: n in names ==> Plain(n)
    ensures ValidWritePath(JoinVolumePath(dir, Relative(names)))
    ensures PathDepth(JoinVolumePath(dir, Relative(names))) == Some(PathDepth(dir).value + |names|)
  {
    var rel := Relative(names);
    RelativeSays(names);
    JoinComponents(dir, rel);
    LandsDeeper(dir, JoinVolumePath(dir, rel), names);
  }

  lemma LandsDeeper(dir: string, p: string, names: seq<string>)
    requires ValidDirPath(dir) && names != []
    requires Absolute(p) && '\0' !in p && Components(p) == Components(dir) + Normals(names)
    ensures ValidWritePath(p) && PathDepth(p) == Some(PathDepth(dir).value + |names|)
  {
    DepthOfNormals(Components(dir), names);
  }

  lemma AbsoluteJoin(dir: string, t: string, rel: string)
    requires Absolute(dir) && '\0' !in dir && '\0' !in rel && t <= dir
    ensures Absolute(t + "/" + rel) && '\0' !in t + "/" + rel
  {
  }

  lemma JoinComponents(dir: string, rel: string)
    requires Absolute(dir) && '\0' !in dir && '\0' !in rel
    ensures var p := JoinVolumePath(dir, rel);
            Absolute(p) && '\0' !in p && Components(p) == Components(dir) + Said(rel)
  {
    TrimSaysSame(dir);
    SaidJoin(TrimSlashes(dir), rel);
    AbsoluteJoin(dir, TrimSlashes(dir), rel);
    RootFirst(JoinVolumePath(dir, rel), dir, Said(rel));
  }

  lemma RootFirst(p: string, dir: string, more: seq<Component>)
    requires Absolute(p) && Absolute(dir) && Said(p) == Said(dir) + more
    ensures Components(p) == Components(dir) + more
  {
  }

  /** A relative path made of plain names, as bundle files have. */
  ghost predicate PlainPath(rel: string) {
    exists names :: names != [] && (forall n :: n in names ==> Plain(n)) && rel == Relative(names)
  }

  function JoinedWrites(dir: string, files: seq<(string, string)>): seq<(string, string)> {
    seq(|files|, i requires 0 <= i < |files| => (JoinVolumePath(dir, files[i].0), files[i].1))
  }

  /** A volume definition under construction. */
  class VolumeDef {
    var writes: seq<(string, string)>

    ghost predicate Valid()
      reads this
    {
      forall w :: w in writes ==> ValidWritePath(w.0)
    }

    constructor ()
      ensures writes == [] && Valid()
    {
      writes := [];
    }

    method Write(path: string, contents: string, frozen: bool) returns (ok: bool)
      modifies this
      ensures ok == (!frozen && ValidWritePath(path))
      ensures writes == if ok then old(writes) + [(path, contents)] else old(writes)
      ensures old(Valid()) ==> Valid()
    {
      if frozen || !ValidWritePath(path) {
        return false;
      }
      writes := writes + [(path, contents)];
      return true;
    }

    /** The joined paths are not checked again; for bundle files they need not be. */
    method WriteDir(path: string, files: seq<(string, string)>, frozen: bool) returns (ok: bool)
      modifies this
      ensures ok == (!frozen && ValidDirPath(path))
      ensures writes == if ok then old(writes) + JoinedWrites(path, files) else old(writes)
      ensures old(Valid()) && (forall f :: f in files ==> PlainPath(f.0)) ==> Valid()
    {
      if frozen || !ValidDirPath(path) {
        return false;
      }
      ghost var before := writes;
      for i := 0 to |files|
        invariant writes == before + JoinedWrites(path, files[..i])
        invariant old(Valid()) && (forall f :: f in files ==> PlainPath(f.0)) ==> Valid()
      {
        assert files[i] in files;
        if PlainPath(files[i].0) {
          var names :| names != [] && (forall n :: n in names ==> Plain(n)) && files[i].0 == Relative(names);
          JoinAccepted(path, names);
        }
        writes := writes + [(JoinVolumePath(path, files[i].0), files[i].1)];
      }
      assert files[..|files|] == files;
      return true;
    }
  }

  // ---------------------------------------------------------------------
  // Bundle paths
  // ---------------------------------------------------------------------

  /** Bundle paths resolve the same way, from the bundle root: the text of the resolved path, or
      nothing for one that is absolute, has a NUL or leaves the root. */
  function BundlePath(raw: string): Option<string> {
    if '\0' in raw || Absolute(raw) || Depth(Said(raw)).None? then None else Some(Relative(Resolved(Said(raw))))
  }

  lemma MeaningsSnoc(pieces: seq<string>, piece: string)
    ensures Meanings(pieces + [piece]) == Meanings(pieces) + Meaning(piece)
  {
    MeaningsConcat(pieces, [piece]);
    assert Meanings([piece]) == Meaning(piece) + Meanings([]);
  }

  lemma OneMore(cs: seq<Component>, c: Component)
    ensures (cs + [c])[..|cs|] == cs
    ensures c.Normal? ==> Resolved(cs + [c]) == Resolved(cs) + [c.name]
    ensures c.ParentDir? && Resolved(cs) != [] ==> Resolved(cs + [c]) == Resolved(cs)[..|Resolved(cs)| - 1]
    ensures Depth(cs).Some? ==> (Depth(cs + [c]).None? <==> c.ParentDir? && Resolved(cs) == [])
  {
    DepthExactly(cs);
    assert (cs + [c])[..|cs|] == cs;
  }

  /** One more piece, in terms of the parts collected so far. */
  lemma PartsStep(pieces: seq<string>, piece: string)
    requires Depth(Meanings(pieces)).Some?
    ensures var parts := Resolved(Meanings(pieces)); var cs := Meanings(pieces + [piece]);
            if piece == "" || piece == "." then Depth(cs).Some? && Resolved(cs) == parts
            else if piece == ".." then
              if parts == [] then Depth(cs).None? else Depth(cs).Some? && Resolved(cs) == parts[..|parts| - 1]
            else Depth(cs).Some? && Resolved(cs) == parts + [piece]
  {
    MeaningsSnoc(pieces, piece);
    var before := Meanings(pieces);
    if Meaning(piece) == [] {
      assert before + [] == before;
    } else {
      OneMore(before, Meaning(piece)[0]);
      assert [Meaning(piece)[0]] == Meaning(piece);
    }
  }

  lemma EscapeRefused(pieces: seq<string>, k: nat)
    requires k <= |pieces| && Depth(Meanings(pieces[..k])).None?
    ensures Depth(Meanings(pieces)).None?
  {
    assert pieces == pieces[..k] + pieces[k..];
    MeaningsConcat(pieces[..k], pieces[k..]);
    DepthStops(Meanings(pieces), |Meanings(pieces[..k])|);
  }

  method NormalisePath(raw: string) returns (r: Option<string>)
    ensures r == BundlePath(raw)
  {
    if '\0' in raw {
      return None;
    }
    if Absolute(raw) {
      return None;
    }
    var segments := Pieces(raw);
    var parts: seq<string> := [];
    for i := 0 to |segments|
      invariant Depth(Meanings(segments[..i])).Some? && parts == Resolved(Meanings(segments[..i]))
    {
      PartsStep(segments[..i], segments[i]);
      assert segments[..i + 1] == segments[..i] + [segments[i]];
      if segments[i] == "" || segments[i] == "." {
      } else if segments[i] == ".." {
        if parts == [] {
          EscapeRefused(segments, i + 1);
          return None;
        }
        parts := parts[..|parts| - 1];
      } else {
        parts := parts + [segments[i]];
      }
    }
    assert segments[..|segments|] == segments;
    return Some(Relative(parts));
  }

  lemma {:induction false} PiecesSlashFree(s: string)
    ensures forall p :: p in Pieces(s) ==> '/' !in p
    decreases |s|
  {
    var n := FirstSlash(s);
    if n == |s| {
      assert s[..n] == s;
    } else {
      PiecesSlashFree(s[n + 1..]);
    }
  }

  lemma {:induction false} PiecesNulFree(s: string)
    requires '\0' !in s
    ensures forall p :: p in Pieces(s) ==> '\0' !in p
    decreases |s|
  {
    var n := FirstSlash(s);
    if n < |s| {
      PiecesNulFree(s[n + 1..]);
    }
  }

  /** Every name in the components is plain. */
  predicate PlainNames(cs: seq<Component>) {
    forall i :: 0 <= i < |cs| && cs[i].Normal? ==> Plain(cs[i].name)
  }

  lemma {:induction false} MeaningsPlain(pieces: seq<string>)
    requires forall p :: p in pieces ==> '/' !in p && '\0' !in p
    ensures PlainNames(Meanings(pieces))
  {
    if pieces != [] {
      assert pieces[0] in pieces;
      MeaningsPlain(pieces[1..]);
    }
  }

  lemma {:induction false} ResolvedPlain(cs: seq<Component>)
    requires PlainNames(cs)
    ensures forall n :: n in Resolved(cs) ==> Plain(n)
  {
    if cs != [] {
      ResolvedPlain(cs[..|cs| - 1]);
    }
  }

  lemma {:induction false} PiecesOfRelative(names: seq<string>)
    requires names != [] && forall n :: n in names ==> '/' !in n
    ensures Pieces(Relative(names)) == names
  {
    assert names[0] in names;
    assert names[0][..|names[0]|] == names[0];
    FirstSlashIs(names[0], |names[0]|);
    if |names| > 1 {
      PiecesOfRelative(names[1..]);
      PiecesJoin(names[0], Relative(names[1..]));
    }
  }

  lemma {:induction false} RelativeOfPieces(s: string)
    ensures Pieces(s) != [] && Relative(Pieces(s)) == s
    decreases |s|
  {
    var n := FirstSlash(s);
    if n < |s| {
      var head, tail := s[..n], s[n + 1..];
      RelativeOfPieces(tail);
      SplitAt(s, n);
      RelativeCons(head, Pieces(tail), tail);
      assert Pieces(s) == [head] + Pieces(tail);
    } else {
      assert Pieces(s) == [s];
    }
  }

  lemma SplitAt(s: string, n: nat)
    requires n < |s| && s[n] == '/'
    ensures s == s[..n] + "/" + s[n + 1..]
  {
  }

  lemma RelativeCons(name: string, names: seq<string>, tail: string)
    requires names != [] && Relative(names) == tail
    ensures Relative([name] + names) == name + "/" + tail
  {
    var all := [name] + names;
    assert all[0] == name && all[1..] == names && |all| > 1;
  }

  /** What is left of a plain path when a leading directory is stripped off its text is plain. */
  lemma StrippedPlain(names: seq<string>, dir: seq<string>, rel: string)
    requires names != [] && forall n :: n in names ==> Plain(n)
    requires dir != [] && forall n :: n in dir ==> Plain(n)
    requires Relative(names) == Relative(dir) + "/" + rel
    ensures PlainPath(rel)
  {
    PiecesOfRelative(names);
    PiecesOfRelative(dir);
    PiecesJoin(Relative(dir), rel);
    RelativeOfPieces(rel);
    assert forall n :: n in Pieces(rel) ==> n in dir + Pieces(rel);
  }

  /** The files `app.dir` collects: bundle files whose path starts with the directory's. */
  ghost predicate FileUnder(file: string, dir: string, rel: string) {
    file == if dir == "" then rel else dir + "/" + rel
  }

  lemma BundlePlain(raw: string)
    requires BundlePath(raw).Some?
    ensures forall n :: n in Resolved(Said(raw)) ==> Plain(n)
  {
    PiecesSlashFree(raw);
    PiecesNulFree(raw);
    MeaningsPlain(Pieces(raw));
    ResolvedPlain(Said(raw));
  }

  /** From bundle to volume: wherever in the bundle a file and the directory it is taken from are, the
      path `write_dir` gives it inside an accepted directory is an accepted write. */
  lemma BundleFilesLandInside(rawFile: string, rawDir: string, rel: string, target: string)
    requires BundlePath(rawFile).Some? && BundlePath(rawDir).Some?
    requires Resolved(Said(rawFile)) != []
    requires FileUnder(BundlePath(rawFile).value, BundlePath(rawDir).value, rel)
    requires ValidDirPath(target)
    ensures ValidWritePath(JoinVolumePath(target, rel))
  {
    BundlePlain(rawFile);
    BundlePlain(rawDir);
    var file, dir := Resolved(Said(rawFile)), Resolved(Said(rawDir));
    if dir == [] {
      JoinAccepted(target, file);
    } else {
      RelativeNonEmpty(dir);
      StrippedPlain(file, dir, rel);
      var names :| names != [] && (forall n :: n in names ==> Plain(n)) && rel == Relative(names);
      JoinAccepted(target, names);
    }
  }

  lemma RelativeNonEmpty(names: seq<string>)
    requires names != [] && forall n :: n in names ==> Plain(n)
    ensures Relative(names) != ""
  {
    assert names[0] in names;
  }

  // ---------------------------------------------------------------------
  // Mountpoints
  // ---------------------------------------------------------------------

  const FORBIDDEN_MOUNTPOINTS: seq<string> :=
    ["/", "/proc", "/sys", "/dev", "/etc", "/bin", "/sbin", "/lib", "/lib64", "/usr", "/boot", "/run"]

  /** The text of a canonical absolute path. */
  function Render(st: seq<string>): (r: string)
    ensures Absolute(r)
  {
    if st == [] then "/" else if |st| == 1 then "/" + st[0] else Render(st[..|st| - 1]) + "/" + st[|st| - 1]
  }

  function LastSlash(s: string): (n: nat)
    requires '/' in s
    ensures n < |s|
  {
    if s[|s| - 1] == '/' then |s| - 1 else LastSlash(s[..|s| - 1])
  }

  /** `PathBuf::push` of a plain name and `PathBuf::pop`, on an absolute path. */
  function Pushed(s: string, name: string): string
    requires s != []
  {
    if s[|s| - 1] == '/' then s + name else s + "/" + name
  }

  function Popped(s: string): string
    requires Absolute(s)
  {
    if s == "/" then s else if LastSlash(s) == 0 then "/" else s[..LastSlash(s)]
  }

  predicate Name(s: string) {
    s != "" && '/' !in s
  }

  lemma {:induction false} RenderShape(st: seq<string>)
    requires forall n :: n in st ==> Name(n)
    ensures Render(st)[|Render(st)| - 1] == '/' <==> st == []
  {
    if |st| > 0 {
      assert st[|st| - 1] in st;
      if |st| > 1 {
        RenderShape(st[..|st| - 1]);
      }
    }
  }

  lemma RenderPush(st: seq<string>, name: string)
    requires Name(name) && forall n :: n in st ==> Name(n)
    ensures Pushed(Render(st), name) == Render(st + [name])
  {
    RenderShape(st);
    assert (st + [name])[..|st|] == st;
  }

  lemma {:induction false} LastSlashBefore(s: string, name: string)
    requires '/' !in name
    ensures '/' in s + "/" + name && LastSlash(s + "/" + name) == |s|
  {
    var t := s + "/" + name;
    assert t[|s|] == '/';
    if name != [] {
      var n := |name| - 1;
      assert t[..|t| - 1] == s + "/" + name[..n];
      LastSlashBefore(s, name[..n]);
    }
  }

  lemma RenderPop(st: seq<string>)
    requires forall n :: n in st ==> Name(n)
    ensures Popped(Render(st)) == Render(if st == [] then [] else st[..|st| - 1])
  {
    if st != [] {
      var last := st[|st| - 1];
      assert last in st;
      RenderShape(st);
      if |st| == 1 {
        assert Render(st) == "" + "/" + last;
        LastSlashBefore("", last);
      } else {
        RenderShape(st[..|st| - 1]);
        LastSlashBefore(Render(st[..|st| - 1]), last);
        assert Render(st)[..|Render(st[..|st| - 1])|] == Render(st[..|st| - 1]);
      }
    }
  }

  /** Names found in a path are names. */
  predicate NamesIn(cs: seq<Component>) {
    forall i :: 0 <= i < |cs| && cs[i].Normal? ==> Name(cs[i].name)
  }

  lemma {:induction false} MeaningsNames(pieces: seq<string>)
    requires forall p :: p in pieces ==> '/' !in p
    ensures NamesIn(Meanings(pieces))
  {
    if pieces != [] {
      assert pieces[0] in pieces;
      MeaningsNames(pieces[1..]);
    }
  }

  lemma ComponentsNames(path: string)
    ensures NamesIn(Components(path))
  {
    PiecesSlashFree(path);
    MeaningsNames(Pieces(path));
  }

  lemma {:induction false} ResolvedNames(cs: seq<Component>)
    requires NamesIn(cs)
    ensures forall n :: n in Resolved(cs) ==> Name(n)
  {
    if cs != [] {
      ResolvedNames(cs[..|cs| - 1]);
    }
  }

  lemma CanonicalStep(cs: seq<Component>, i: nat)
    requires i < |cs| && NamesIn(cs)
    ensures var canonical := Render(Resolved(cs[..i]));
            Render(Resolved(cs[..i + 1])) ==
            match cs[i]
            case ParentDir => Popped(canonical)
            case Normal(name) => Pushed(canonical, name)
            case RootDir => canonical
            case CurDir => canonical
  {
    ResolvedNames(cs[..i]);
    assert cs[..i + 1][..i] == cs[..i];
    if cs[i].ParentDir? { RenderPop(Resolved(cs[..i])); }
    if cs[i].Normal? { RenderPush(Resolved(cs[..i]), cs[i].name); }
  }

  method Canonicalise(cs: seq<Component>) returns (canonical: string)
    requires NamesIn(cs)
    ensures canonical == Render(Resolved(cs))
  {
    canonical := "/";
    for i := 0 to |cs|
      invariant canonical == Render(Resolved(cs[..i]))
    {
      CanonicalStep(cs, i);
      match cs[i] {
        case RootDir =>
        case CurDir =>
        case ParentDir =>
          canonical := Popped(canonical);
        case Normal(name) =>
          canonical := Pushed(canonical, name);
      }
    }
    assert cs[..|cs|] == cs;
  }

  /** The canonicalising loop refuses exactly the paths that resolve to a forbidden place. */
  method ValidateMountpoint(path: string) returns (ok: bool)
    ensures ok <==> '\0' !in path && Absolute(path) && Render(Resolved(Components(path))) !in FORBIDDEN_MOUNTPOINTS
  {
    if '\0' in path {
      return false;
    }
    if !Absolute(path) {
      return false;
    }
    ComponentsNames(path);
    var canonical := Canonicalise(Components(path));
    for i := 0 to |FORBIDDEN_MOUNTPOINTS|
      invariant canonical !in FORBIDDEN_MOUNTPOINTS[..i]
    {
      if canonical == FORBIDDEN_MOUNTPOINTS[i] {
        return false;
      }
    }
    return true;
  }

  // Canonical paths are canonical

  lemma SaidSnoc(path: string, name: string)
    requires Name(name) && name != "." && name != ".."
    ensures Said(path + "/" + name) == Said(path) + [Normal(name)]
  {
    SaidJoin(path, name);
    SaidName(name);
  }

  lemma {:induction false} RenderSays(st: seq<string>)
    requires forall n :: n in st ==> Name(n) && n != "." && n != ".."
    ensures Said(Render(st)) == Normals(st)
  {
    SaidName("");
    if st == [] {
      SlashSaysNothing("");
      assert "" + "/" == "/";
    } else {
      var n := |st| - 1;
      assert st[n] in st;
      assert Normals(st) == Normals(st[..n]) + [Normal(st[n])];
      if n == 0 {
        SaidSnoc("", st[0]);
        assert Render(st) == "" + "/" + st[0];
      } else {
        RenderSays(st[..n]);
        SaidSnoc(Render(st[..n]), st[n]);
      }
    }
  }

  lemma {:induction false} ResolvedNormals(cs: seq<Component>, st: seq<string>)
    ensures Resolved(cs + Normals(st)) == Resolved(cs) + st
  {
    var all := cs + Normals(st);
    if st == [] {
      assert all == cs;
    } else {
      var n := |st| - 1;
      assert all[..|all| - 1] == cs + Normals(st[..n]);
      ResolvedNormals(cs, st[..n]);
    }
  }

  /** A resolved path resolves to itself, so two paths are refused alike whenever they lead to the
      same place. */
  lemma ResolutionIdempotent(st: seq<string>)
    requires forall n :: n in st ==> Name(n) && n != "." && n != ".."
    ensures Resolved(Components(Render(st))) == st
  {
    RenderSays(st);
    assert Components(Render(st)) == [RootDir] + Normals(st);
    ResolvedNormals([RootDir], st);
    assert [RootDir][..0] == [];
  }
}
