/** The workspace file tools: where a relative path may point, and the
    size and dry-run rules of a write. Paths are pathlib's pure POSIX paths
    (`PurePath`): joining and comparing them is lexical, and the file system
    enters only through `Resolver`, its canonical form of a path (symbolic
    links followed, `..` taken back). */
module FileTools {
  import opened Wrappers
  import opened Text

  /** The largest content a write accepts, in UTF-8 bytes. */
  const MaxFileBytes: nat := 5 * 1024 * 1024

  /** Names under the project root that no write may touch. */
  const Protected: seq<string> := [".git", ".github", ".env", "docker-compose.yml"]

  // ---------------------------------------------------------------------------
  // Pure paths
  // ---------------------------------------------------------------------------

  /** A path as pathlib holds it: its anchor (`""` for a relative path,
      `"/"`, or `"//"`, which POSIX leaves to the implementation and pathlib
      keeps) and its components. */
  datatype PurePath = PurePath(anchor: string, parts: seq<string>)

  /** A component: not empty, not `"."`, and without a separator. */
  predicate IsPart(c: string) {
    c != "" && c != "." && '/' !in c
  }

  /** The paths pathlib can build: a known anchor and proper components. */
  predicate WellFormed(p: PurePath) {
    && (p.anchor == "" || p.anchor == "/" || p.anchor == "//")
    && forall i :: 0 <= i < |p.parts| ==> IsPart(p.parts[i])
  }

  /** `os.path.isabs`. */
  predicate IsAbs(path: string) {
    |path| > 0 && path[0] == '/'
  }

  /** The anchor of a path text: exactly two leading separators are kept,
      one or three and more are the root. */
  function AnchorOf(s: string): (a: string)
    ensures a != "" <==> IsAbs(s)
  {
    if !IsAbs(s) then ""
    else if |s| >= 2 && s[1] == '/' && !(|s| >= 3 && s[2] == '/') then "//"
    else "/"
  }

  /** The pieces between separators without the empty and `"."` ones, which
      is how pathlib collapses `//`, drops `./` and a trailing `/`. */
  function Components(pieces: seq<string>): (r: seq<string>)
    requires forall i :: 0 <= i < |pieces| ==> '/' !in pieces[i]
    ensures forall i :: 0 <= i < |r| ==> IsPart(r[i])
    ensures |r| <= |pieces|
    decreases |pieces|
  {
    if |pieces| == 0 then []
    else if pieces[0] == "" || pieces[0] == "." then Components(pieces[1..])
    else [pieces[0]] + Components(pieces[1..])
  }

  /** `PurePosixPath(s)`. */
  function Parse(s: string): (p: PurePath)
    ensures WellFormed(p)
    ensures p.anchor != "" <==> IsAbs(s)
  {
    PurePath(AnchorOf(s), Components(Split(s, '/')))
  }

  /** `str(p)`: the anchor, then the components joined by `/`; the empty
      relative path is `"."`. */
  function Str(p: PurePath): string {
    if p.anchor == "" && |p.parts| == 0 then "." else p.anchor + Join(p.parts, "/")
  }

  /** `a / b`: an absolute right-hand side replaces the left one, and a
      relative one adds its components below it. */
  function JoinPath(a: PurePath, b: string): (r: PurePath)
    ensures WellFormed(a) ==> WellFormed(r)
    ensures !IsAbs(b) ==> IsUnder(r, a) && |r.parts| == |a.parts| + |Parse(b).parts|
    ensures IsAbs(b) ==> r.anchor != ""
  {
    var q := Parse(b);
    if q.anchor != "" then q else PurePath(a.anchor, a.parts + q.parts)
  }

  /** `t` is `r` or lies below it (`t.relative_to(r)` succeeds): the same
      anchor, and `r`'s components begin `t`'s. */
  predicate IsUnder(t: PurePath, r: PurePath) {
    t.anchor == r.anchor && |r.parts| <= |t.parts| && t.parts[..|r.parts|] == r.parts
  }

  // ---------------------------------------------------------------------------
  // Texts of paths
  // ---------------------------------------------------------------------------

  /** Splitting at a separator that follows a piece free of it. */
  lemma {:induction false} SplitAfterPiece(x: string, y: string, sep: char)
    requires sep !in x
    ensures Split(x + [sep] + y, sep) == [x] + Split(y, sep)
    decreases |x|
  {
    if |x| == 0 {
      assert x + [sep] + y == [sep] + y;
      assert ([sep] + y)[1..] == y;
    } else {
      SplitAfterPiece(x[1..], y, sep);
      assert (x + [sep] + y)[1..] == x[1..] + [sep] + y;
      assert [x[0]] + x[1..] == x;
    }
  }

  /** Splitting a join of pieces free of the separator gives the pieces. */
  lemma {:induction false} SplitJoin(parts: seq<string>, sep: char)
    requires |parts| > 0
    requires forall i :: 0 <= i < |parts| ==> sep !in parts[i]
    ensures Split(Join(parts, [sep]), sep) == parts
    decreases |parts|
  {
    if |parts| == 1 {
      SplitWithoutSeparator(parts[0], sep);
    } else {
      SplitJoin(parts[1..], sep);
      assert Join(parts, [sep]) == parts[0] + [sep] + Join(parts[1..], [sep]);
      SplitAfterPiece(parts[0], Join(parts[1..], [sep]), sep);
      assert [parts[0]] + parts[1..] == parts;
    }
  }

  /** Proper components pass `Components` unchanged. */
  lemma {:induction false} ComponentsOfParts(parts: seq<string>)
    requires forall i :: 0 <= i < |parts| ==> IsPart(parts[i]) && '/' !in parts[i]
    ensures Components(parts) == parts
    decreases |parts|
  {
    if |parts| > 0 {
      ComponentsOfParts(parts[1..]);
      assert [parts[0]] + parts[1..] == parts;
    }
  }

  /** The text of a well-formed path's components: it splits back into them
      and does not begin with a separator. */
  lemma ComponentText(parts: seq<string>)
    requires |parts| > 0 && forall i :: 0 <= i < |parts| ==> IsPart(parts[i])
    ensures Split(Join(parts, "/"), '/') == parts
    ensures |Join(parts, "/")| > 0 && Join(parts, "/")[0] != '/'
  {
    assert "/" == ['/'];
    SplitJoin(parts, '/');
    JoinStartsWithFirst(parts, "/");
    assert parts[0][0] != '/';
  }

  /** Reading back the text of a path gives the path:
      `PurePosixPath(str(p)) == p`. */
  lemma ParseStr(p: PurePath)
    requires WellFormed(p)
    ensures Parse(Str(p)) == p
  {
    var s := Str(p);
    ComponentsOfParts(p.parts);
    if |p.parts| == 0 {
      if p.anchor == "" {
        SplitWithoutSeparator(".", '/');
      } else {
        assert s == p.anchor;
        assert Split("", '/') == [""];
        if p.anchor == "/" {
          assert Split(s, '/') == [""] + Split(s[1..], '/');
        } else {
          assert Split(s, '/') == [""] + Split(s[1..], '/');
          assert Split(s[1..], '/') == [""] + Split(s[2..], '/');
        }
      }
    } else {
      var j := Join(p.parts, "/");
      ComponentText(p.parts);
      assert s == p.anchor + j;
      if p.anchor == "/" {
        assert s[1..] == j;
        assert Split(s, '/') == [""] + p.parts;
      } else if p.anchor == "//" {
        assert s[0] == '/' && s[1] == '/' && s[2] == j[0];
        assert AnchorOf(s) == "//";
        assert s[1..][1..] == j;
        var pieces := [""] + ([""] + p.parts);
        assert Split(s[1..], '/') == [""] + p.parts;
        assert Split(s, '/') == pieces;
        assert pieces[1..] == [""] + p.parts && pieces[1..][1..] == p.parts;
        assert Components(pieces) == Components([""] + p.parts) == p.parts;
      } else {
        assert s == j;
      }
    }
  }

  /** A join begins with the join of any non-empty leading part of it. */
  lemma {:induction false} JoinExtends(a: seq<string>, b: seq<string>, sep: string)
    requires |a| > 0
    ensures StartsWith(Join(a + b, sep), Join(a, sep))
    decreases |a|
  {
    if |a| == 1 {
      if |b| > 0 {
        JoinCons(a[0], b, sep);
        assert a + b == [a[0]] + b;
      }
    } else {
      JoinExtends(a[1..], b, sep);
      assert (a + b)[1..] == a[1..] + b;
      assert Join(a + b, sep) == a[0] + sep + Join(a[1..] + b, sep);
    }
  }

  /** A join begins with the join that has a prefix of its `|a|`-th piece
      in that place. */
  lemma {:induction false} JoinExtendsPiece(a: seq<string>, c: string, d: string, b: seq<string>, sep: string)
    requires StartsWith(c, d)
    ensures StartsWith(Join(a + [c] + b, sep), Join(a + [d], sep))
    decreases |a|
  {
    if |a| == 0 {
      assert a + [c] + b == [c] + b && a + [d] == [d];
      JoinStartsWithFirst([c] + b, sep);
    } else {
      JoinExtendsPiece(a[1..], c, d, b, sep);
      assert (a + [c] + b)[1..] == a[1..] + [c] + b;
      assert (a + [d])[1..] == a[1..] + [d];
      assert Join(a + [c] + b, sep) == a[0] + sep + Join(a[1..] + [c] + b, sep);
      assert Join(a + [d], sep) == a[0] + sep + Join(a[1..] + [d], sep);
    }
  }

  /** The text of a path lying under a base other than `"."` begins with
      the base's text, so pathlib's containment implies the string prefix
      the protected-name test uses. */
  lemma UnderStartsWith(t: PurePath, r: PurePath)
    requires IsUnder(t, r) && Str(r) != "."
    ensures StartsWith(Str(t), Str(r))
  {
    if |r.parts| > 0 {
      assert t.parts == r.parts + t.parts[|r.parts|..];
      JoinExtends(r.parts, t.parts[|r.parts|..], "/");
    }
  }

  /** The first piece of a split begins with any separator-free prefix of
      the text. */
  lemma {:induction false} SplitHeadPrefix(s: string, t: string, sep: char)
    requires StartsWith(s, t) && sep !in t
    ensures StartsWith(Split(s, sep)[0], t)
    decreases |t|
  {
    if |t| > 0 {
      assert s[0] == t[0];
      SplitHeadPrefix(s[1..], t[1..], sep);
      assert Split(s, sep)[0] == [s[0]] + Split(s[1..], sep)[0];
    }
  }

  // ---------------------------------------------------------------------------
  // Validation
  // ---------------------------------------------------------------------------

  /** The file system's canonical form of a path (`Path.resolve`). */
  type Resolver = PurePath -> PurePath

  /** What the tools raise: their own error with a message, the
      `ValueError` of a path that is not below the unresolved project root,
      or the operating system's error from creating the parent directories
      or writing the file. */
  datatype Raised = ToolError(message: string) | NotRelative | OsError(message: string)

  /** The operating system's answer to writing a file: `None` when the
      parent directories are created and the text is written, `Some(e)` when
      either raises `e` (as `write_text` does with `IsADirectoryError` when
      the path names the project root itself). */
  type Disk = FileWrite -> Option<string>

  /** The directory of a project inside the workspace, joined lexically:
      an id that is not absolute stays below the workspace. */
  function ProjectRoot(workspace: PurePath, projectId: string): (r: PurePath)
    ensures WellFormed(workspace) ==> WellFormed(r)
    ensures !IsAbs(projectId) ==> IsUnder(r, workspace)
  {
    JoinPath(workspace, projectId)
  }

  /** Whether a resolved target falls under the protected name `p`: a plain
      string-prefix test, so `.gitignore` counts as under `.git`. */
  predicate HitsProtected(target: PurePath, root: PurePath, resolve: Resolver, p: string) {
    StartsWith(Str(target), Str(resolve(JoinPath(root, p))))
  }

  /** The first name whose text, as `text` gives it, begins the target's
      text `t`, in list order. */
  function FirstProtected(t: string, text: string -> string, ps: seq<string>): (r: Option<string>)
    ensures r.None? <==> forall i :: 0 <= i < |ps| ==> !StartsWith(t, text(ps[i]))
    ensures r.Some? ==> exists i :: (
      && 0 <= i < |ps| && ps[i] == r.value
      && StartsWith(t, text(ps[i]))
      && forall j :: 0 <= j < i ==> !StartsWith(t, text(ps[j])))
  {
    if |ps| == 0 then None
    else if StartsWith(t, text(ps[0])) then Some(ps[0])
    else
      var r := FirstProtected(t, text, ps[1..]);
      assert forall i :: 1 <= i < |ps| ==> ps[i] == ps[1..][i - 1];
      r
  }

  function ProtectedMessage(p: string): string {
    "Writes to protected path '" + p + "' are forbidden"
  }

  /** The guards on a path a tool is asked to touch, in order: not
      absolute, no `..` component, inside the project once resolved, and
      not under a protected name. On success, the resolved target. */
  function ResolveAndValidate(path: string, projectId: string, workspace: PurePath,
                              resolve: Resolver): (r: Result<PurePath, Raised>)
    ensures r.Failure? ==> r.error.ToolError?
    ensures IsAbs(path) ==> r == Failure(ToolError("Absolute paths are not allowed"))
    ensures !IsAbs(path) && ".." in Split(path, '/') ==>
      r == Failure(ToolError("Parent traversal is not allowed"))
    ensures r.Success? ==>
      var root := ProjectRoot(workspace, projectId);
      && !IsAbs(path) && ".." !in Split(path, '/')
      && r.value == resolve(JoinPath(root, path))
      && IsUnder(r.value, resolve(root))
      && forall p :: p in Protected ==> !HitsProtected(r.value, root, resolve, p)
  {
    if IsAbs(path) then Failure(ToolError("Absolute paths are not allowed"))
    else if ".." in Split(path, '/') then Failure(ToolError("Parent traversal is not allowed"))
    else
      var root := ProjectRoot(workspace, projectId);
      var target := resolve(JoinPath(root, path));
      if !IsUnder(target, resolve(root)) then Failure(ToolError("Path escapes project workspace"))
      else match FirstProtected(Str(target), p => Str(resolve(JoinPath(root, p))), Protected)
        case Some(p) => Failure(ToolError(ProtectedMessage(p)))
        case None => Success(target)
  }

  /** A relative name beginning with ".git" joins to a path below the root
      whose text begins with that of the root's ".git". */
  lemma GitPrefixPath(root: PurePath, name: string)
    requires StartsWith(name, ".git")
    ensures IsUnder(JoinPath(root, name), root)
    ensures StartsWith(Str(JoinPath(root, name)), Str(JoinPath(root, ".git")))
  {
    var pieces := Split(name, '/');
    SplitHeadPrefix(name, ".git", '/');
    assert pieces == [pieces[0]] + pieces[1..];
    var q := Components(pieces[1..]);
    assert Parse(name).parts == [pieces[0]] + q;
    SplitWithoutSeparator(".git", '/');
    assert Parse(".git").parts == [".git"];
    assert JoinPath(root, name).parts == root.parts + [pieces[0]] + q;
    JoinExtendsPiece(root.parts, pieces[0], ".git", q, "/");
  }

  /** Where paths are their own canonical form (no links, nothing to
      normalise), any name beginning with ".git" — `.gitignore` as well as
      `.github` — is refused as the protected `.git`. */
  lemma GitPrefixRefused(name: string, projectId: string, workspace: PurePath, resolve: Resolver)
    requires forall x :: resolve(x) == x
    requires ".." !in Split(name, '/') && StartsWith(name, ".git")
    ensures ResolveAndValidate(name, projectId, workspace, resolve)
      == Failure(ToolError(ProtectedMessage(".git")))
  {
    var root := ProjectRoot(workspace, projectId);
    var target := JoinPath(root, name);
    GitPrefixPath(root, name);
    assert resolve(target) == target && resolve(root) == root;
    assert resolve(JoinPath(root, ".git")) == JoinPath(root, ".git");
    assert HitsProtected(target, root, resolve, Protected[0]);
  }

  /** `len(s.encode("utf-8"))`: one to four bytes per code point. */
  function Utf8Length(s: string): (n: nat)
    ensures |s| <= n <= 4 * |s|
  {
    if |s| == 0 then 0
    else
      var c := s[0] as int;
      (if c < 0x80 then 1 else if c < 0x800 then 2 else if c < 0x10000 then 3 else 4)
      + Utf8Length(s[1..])
  }

  /** ASCII text takes one byte per character. */
  lemma {:induction false} Utf8LengthAscii(s: string)
    requires forall i :: 0 <= i < |s| ==> s[i] as int < 0x80
    ensures Utf8Length(s) == |s|
  {
    if |s| > 0 {
      Utf8LengthAscii(s[1..]);
    }
  }

  /** `target.relative_to(base)` as text, or `None` where it raises; a
      path relative to itself is `"."`. */
  function RelativeTo(target: PurePath, base: PurePath): (r: Option<string>)
    ensures r.Some? <==> IsUnder(target, base)
    ensures target == base ==> r == Some(".")
  {
    if IsUnder(target, base) then Some(Str(PurePath("", target.parts[|base.parts|..])))
    else None
  }

  /** Joining the relative path back onto the base gives the target:
      `base / str(target.relative_to(base)) == target`. */
  lemma RelativeToRoundTrip(target: PurePath, base: PurePath)
    requires WellFormed(target) && IsUnder(target, base)
    ensures JoinPath(base, RelativeTo(target, base).value) == target
  {
    var rest := PurePath("", target.parts[|base.parts|..]);
    ParseStr(rest);
    assert target.parts == base.parts + rest.parts;
  }

  /** The tuple a write reports. */
  datatype Written = Written(relPath: string, size: nat, checksum: string)

  /** A write to disk: which resolved file, with what content. */
  datatype FileWrite = FileWrite(target: PurePath, content: string)

  /** What a call returns or raises, and what it writes. */
  datatype WriteOutcome = WriteOutcome(result: Result<Written, Raised>, effect: Option<FileWrite>)

  /** Writing a file into the workspace; `checksum` is the hex digest of the
      UTF-8 bytes, and `disk` decides whether a real write succeeds. */
  function WriteFile(path: string, content: string, projectId: string, dryRun: bool,
                     workspace: PurePath, resolve: Resolver, checksum: string -> string,
                     disk: Disk): (r: WriteOutcome)
    ensures r.effect.Some? ==> r.result.Success? && !dryRun
    ensures r.result.Failure? ==> r.effect.None?
    ensures Utf8Length(content) > MaxFileBytes ==> r.result.Failure? && !r.result.error.OsError?
    ensures r.result.Success? ==>
      && ResolveAndValidate(path, projectId, workspace, resolve).Success?
      && r.result.value.size == Utf8Length(content) <= MaxFileBytes
      && r.result.value.checksum == checksum(content)
    ensures r.result.Success? && !dryRun ==>
      && r.effect == Some(FileWrite(ResolveAndValidate(path, projectId, workspace, resolve).value, content))
      && disk(r.effect.value).None?
    ensures r.result.Failure? && r.result.error.OsError? ==>
      && !dryRun
      && ResolveAndValidate(path, projectId, workspace, resolve).Success?
      && disk(FileWrite(ResolveAndValidate(path, projectId, workspace, resolve).value, content))
         == Some(r.result.error.message)
  {
    match ResolveAndValidate(path, projectId, workspace, resolve)
    case Failure(e) => WriteOutcome(Failure(e), None)
    case Success(target) =>
      match RelativeTo(target, ProjectRoot(workspace, projectId))
      case None => WriteOutcome(Failure(NotRelative), None)
      case Some(rel) =>
        var size := Utf8Length(content);
        if size > MaxFileBytes then WriteOutcome(Failure(ToolError("File too large")), None)
        else
          var reply := Written(rel, size, checksum(content));
          if dryRun then WriteOutcome(Success(reply), None)
          else match disk(FileWrite(target, content))
            case Some(e) => WriteOutcome(Failure(OsError(e)), None)
            case None => WriteOutcome(Success(reply), Some(FileWrite(target, content)))
  }

  /** A dry run writes nothing. When the real write succeeds, the dry run
      reports exactly the same; the two differ only where the real write
      raises the operating system's error and the dry run succeeds. */
  lemma DryRunMatchesWrite(path: string, content: string, projectId: string, workspace: PurePath,
                           resolve: Resolver, checksum: string -> string, disk: Disk)
    ensures var dry := WriteFile(path, content, projectId, true, workspace, resolve, checksum, disk);
      var live := WriteFile(path, content, projectId, false, workspace, resolve, checksum, disk);
      && dry.effect.None?
      && (live.result.Success? ==> dry.result == live.result)
      && (dry.result != live.result ==>
            dry.result.Success? && live.result.Failure? && live.result.error.OsError?)
      && (live.result.Success? <==> live.effect.Some?)
  {
  }

  /** Whether a real write succeeds depends on nothing but the disk: on a
      disk that accepts every write, the real write reports what the dry run
      does. */
  lemma AcceptingDiskMatchesDryRun(path: string, content: string, projectId: string, workspace: PurePath,
                                   resolve: Resolver, checksum: string -> string, disk: Disk)
    requires forall f :: disk(f).None?
    ensures WriteFile(path, content, projectId, false, workspace, resolve, checksum, disk).result
         == WriteFile(path, content, projectId, true, workspace, resolve, checksum, disk).result
  {
  }

  /** Where paths are their own canonical form, `relative_to` never raises
      after validation, and the relative path joins back to the target. */
  lemma NoLinksAlwaysRelative(path: string, content: string, projectId: string, dryRun: bool,
                              workspace: PurePath, resolve: Resolver, checksum: string -> string,
                              disk: Disk)
    requires forall x :: resolve(x) == x
    requires WellFormed(workspace)
    ensures var r := WriteFile(path, content, projectId, dryRun, workspace, resolve, checksum, disk);
      && r.result != Failure(NotRelative)
      && (r.result.Success? ==>
            JoinPath(ProjectRoot(workspace, projectId), r.result.value.relPath)
            == ResolveAndValidate(path, projectId, workspace, resolve).value)
  {
    var v := ResolveAndValidate(path, projectId, workspace, resolve);
    if v.Success? {
      var root := ProjectRoot(workspace, projectId);
      assert resolve(root) == root;
      assert resolve(JoinPath(root, path)) == JoinPath(root, path);
      RelativeToRoundTrip(v.value, root);
    }
  }

  /** pathlib drops the `./` of a project id: project `./p` of workspace
      `/w` is `/w/p`. */
  lemma DotProjectIdRoot()
    ensures ProjectRoot(PurePath("/", ["w"]), "./p") == PurePath("/", ["w", "p"])
  {
    SplitWithoutSeparator("p", '/');
    assert "./p"[1..] == "/p" && "/p"[1..] == "p";
    assert Split("/p", '/') == ["", "p"];
    assert ['.'] + "" == ".";
    assert Split("./p", '/') == [".", "p"];
  }
}
