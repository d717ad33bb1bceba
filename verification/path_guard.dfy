/**
 Resolving a path a tool was given against the directory it may work in. The file tree is fixed while a
 path is resolved; paths are lists of components from the root of the tree.
 */
module PathGuard {
  import opened Basics
  import opened Text

  type Path = seq<string>

  datatype Node = File | Dir(entries: map<string, Node>) | Link(absolute: bool, parts: seq<string>)

  datatype Error = NoRoot | EscapeAttempt | BadRoot | StatFailed | BadLink

  // The links Go follows before it gives up.
  const MAX_LINKS := 255

  predicate Normal(part: string) {
    part != "" && part != "." && part != ".." && '/' !in part
  }

  predicate NormalPath(p: Path) {
    forall i :: 0 <= i < |p| ==> Normal(p[i])
  }

  /// The file system

  // The node at a path, following no link.
  function At(tree: Node, p: Path): Option<Node>
    decreases |p|
  {
    if p == [] then Some(tree)
    else if tree.Dir? && p[0] in tree.entries then At(tree.entries[p[0]], p[1..])
    else None
  }

  // A path of which no component, the last one included, is a link.
  ghost predicate Physical(tree: Node, p: Path) {
    NormalPath(p) && At(tree, p).Some? && !At(tree, p).value.Link?
  }

  // The end of a resolution: found with so many links left, the directory in which a component is
  // missing, a component under something that is no directory, or too many links.
  datatype Walk = Found(path: Path, left: nat) | Missing(path: Path) | NotDir | TooManyLinks

  // How the system resolves `parts` from the physical path `current`.
  function Resolve(tree: Node, current: Path, parts: seq<string>, links: nat): Walk
    decreases links, |parts|
  {
    if parts == [] then Found(current, links) else
    var here := At(tree, current);
    if here.None? || !here.value.Dir? then NotDir
    else if parts[0] == "" || parts[0] == "." then Resolve(tree, current, parts[1..], links)
    else if parts[0] == ".." then
      Resolve(tree, if current == [] then [] else current[..|current| - 1], parts[1..], links)
    else if '/' in parts[0] || parts[0] !in here.value.entries then Missing(current)
    else
      var node := here.value.entries[parts[0]];
      if !node.Link? then Resolve(tree, current + [parts[0]], parts[1..], links)
      else if links == 0 then TooManyLinks
      else Resolve(tree, if node.absolute then [] else current, node.parts + parts[1..], links - 1)
  }

  /// Paths as text

  function Split(s: string): seq<string>
    ensures Split(s) != []
  {
    if s == "" then [""]
    else if s[0] == '/' then [""] + Split(s[1..])
    else
      var rest := Split(s[1..]);
      [[s[0]] + rest[0]] + rest[1..]
  }

  // Lexical cleaning: empty components and dots go, a double dot takes the component before it.
  function Clean(base: Path, parts: seq<string>): Path
    decreases |parts|
  {
    if parts == [] then base
    else if parts[0] == "" || parts[0] == "." then Clean(base, parts[1..])
    else if parts[0] == ".." then Clean(if base == [] then [] else base[..|base| - 1], parts[1..])
    else Clean(base + [parts[0]], parts[1..])
  }

  function Render(p: Path): string {
    if p == [] then "/" else RenderParts(p)
  }

  function RenderParts(p: Path): string {
    if p == [] then "" else "/" + p[0] + RenderParts(p[1..])
  }

  // The text test the guard makes: equal, or beginning with the root and a separator.
  predicate HasPrefix(s: string, prefix: string) {
    |prefix| <= |s| && s[..|prefix|] == prefix
  }

  predicate Within(root: Path, p: Path) {
    p == root || HasPrefix(Render(p), Render(root) + "/")
  }

  /// The guard

  function EvalSymlinks(tree: Node, p: Path): Option<Path> {
    match Resolve(tree, [], p, MAX_LINKS)
    case Found(path, _) => Some(path)
    case _ => None
  }

  datatype Stat = Exists(node: Node) | NotExist | Failed

  // The node at a path whose directory part holds no link.
  function Lstat(tree: Node, dir: Path, part: string): Stat {
    var here := At(tree, dir);
    if here.None? || !here.value.Dir? then Failed
    else if part in here.value.entries then Exists(here.value.entries[part])
    else NotExist
  }

  function Guard(tree: Node, root: Path, current: Path, parts: seq<string>): Option<Error>
    decreases |parts|
  {
    if parts == [] then None else
    match Lstat(tree, current, parts[0])
    case NotExist => None
    case Failed => Some(StatFailed)
    case Exists(node) =>
      if !node.Link? then Guard(tree, root, current + [parts[0]], parts[1..]) else
      var resolved := EvalSymlinks(tree, current + [parts[0]]);
      if resolved.None? then Some(BadLink)
      else if !Within(root, resolved.value) then Some(EscapeAttempt)
      else Guard(tree, root, resolved.value, parts[1..])
  }

  method EnsureNoSymlinkEscape(tree: Node, root: Path, rel: seq<string>) returns (error: Option<Error>)
    ensures error == Guard(tree, root, root, rel)
  {
    var current := root;
    for i := 0 to |rel|
      invariant Guard(tree, root, root, rel) == Guard(tree, root, current, rel[i..])
    {
      assert rel[i..][1..] == rel[i + 1..];
      match Lstat(tree, current, rel[i]) {
        case NotExist => return None;
        case Failed => return Some(StatFailed);
        case Exists(node) =>
          if !node.Link? {
            current := current + [rel[i]];
          } else {
            var resolved := EvalSymlinks(tree, current + [rel[i]]);
            if resolved.None? { return Some(BadLink); }
            if !Within(root, resolved.value) { return Some(EscapeAttempt); }
            current := resolved.value;
          }
      }
    }
    return None;
  }

  datatype Scoped = Scoped(root: Path, joined: Path, rel: seq<string>)

  function Candidate(root: Path, text: string): Path {
    Clean(if text != "" && text[0] == '/' then [] else root, Split(text))
  }

  // `root` is the given root made absolute; none was given if it is absent.
  function ScopedPath(tree: Node, root: Option<Path>, raw: string): Result<Scoped, Error> {
    if root.None? then Err(NoRoot)
    else if '\0' in raw then Err(EscapeAttempt)
    else
      var physical := EvalSymlinks(tree, root.value);
      var text := TrimSpace(raw);
      if physical.None? then Err(BadRoot)
      else if text == "" || text == "." then Ok(Scoped(physical.value, physical.value, []))
      else
        var joined := Candidate(physical.value, text);
        if !Within(physical.value, joined) then Err(EscapeAttempt)
        else
          EvalIsPhysical(tree, root.value);
          CandidateIsNormal(physical.value, text);
          WithinIff(physical.value, joined);
          var rel := joined[|physical.value|..];
          var error := Guard(tree, physical.value, physical.value, rel);
          if error.Some? then Err(error.value) else Ok(Scoped(physical.value, joined, rel))
  }

  /// Text and components

  lemma {:induction false} SplitParts(s: string)
    ensures forall i :: 0 <= i < |Split(s)| ==> '/' !in Split(s)[i]
  {
    if s != "" { SplitParts(s[1..]); }
  }

  lemma {:induction false} CleanIsNormal(base: Path, parts: seq<string>)
    requires NormalPath(base) && forall i :: 0 <= i < |parts| ==> '/' !in parts[i]
    ensures NormalPath(Clean(base, parts))
    decreases |parts|
  {
    if parts == [] {
    } else if parts[0] == "" || parts[0] == "." {
      CleanIsNormal(base, parts[1..]);
    } else if parts[0] == ".." {
      CleanIsNormal(if base == [] then [] else base[..|base| - 1], parts[1..]);
    } else {
      CleanIsNormal(base + [parts[0]], parts[1..]);
    }
  }

  lemma CandidateIsNormal(root: Path, text: string)
    requires NormalPath(root)
    ensures NormalPath(Candidate(root, text))
  {
    SplitParts(text);
    CleanIsNormal(if text != "" && text[0] == '/' then [] else root, Split(text));
  }

  function UntilSlash(s: string): nat {
    if s == "" || s[0] == '/' then 0 else 1 + UntilSlash(s[1..])
  }

  lemma {:induction false} UntilSlashOf(a: string, x: string)
    requires '/' !in a && (x == "" || x[0] == '/')
    ensures UntilSlash(a + x) == |a|
  {
    if a == "" {
      assert a + x == x;
    } else {
      assert (a + x)[1..] == a[1..] + x;
      UntilSlashOf(a[1..], x);
    }
  }

  // The first component of a text can be read off.
  lemma FirstPart(a: string, x: string, b: string, y: string)
    requires '/' !in a && '/' !in b
    requires x == "" || x[0] == '/'
    requires y == "" || y[0] == '/'
    requires a + x == b + y
    ensures a == b && x == y
  {
    UntilSlashOf(a, x);
    UntilSlashOf(b, y);
    assert a == (a + x)[..|a|] && b == (b + y)[..|b|];
    assert x == (a + x)[|a|..] && y == (b + y)[|b|..];
  }

  lemma PrefixUnder(a: string, s: string, t: string)
    ensures HasPrefix(s, t) <==> HasPrefix(a + s, a + t)
  {
    if HasPrefix(a + s, a + t) { assert s[..|t|] == (a + s)[|a|..|a + t|] == t; }
    if HasPrefix(s, t) { assert (a + s)[..|a + t|] == a + t; }
  }

  lemma HeadTail(p: Path)
    requires p != []
    ensures RenderParts(p) == ("/" + p[0]) + RenderParts(p[1..])
    ensures p == [p[0]] + p[1..]
  {
  }

  lemma {:induction false} PrefixIfUnder(root: Path, p: Path)
    requires root < p
    ensures HasPrefix(RenderParts(p), RenderParts(root) + "/")
    decreases |root|
  {
    if root == [] {
      assert RenderParts(root) + "/" == "/";
    } else {
      assert root[0] == p[0] && root[1..] < p[1..];
      PrefixIfUnder(root[1..], p[1..]);
      PrefixUnder("/" + p[0], RenderParts(p[1..]), RenderParts(root[1..]) + "/");
      assert RenderParts(root) + "/" == ("/" + p[0]) + (RenderParts(root[1..]) + "/");
    }
  }

  lemma PrefixHead(a: string, x: string, b: string, y: string)
    requires '/' !in a && '/' !in b && (x == "" || x[0] == '/') && y != "" && y[0] == '/'
    requires HasPrefix("/" + a + x, "/" + b + y)
    ensures a == b && HasPrefix(x, y)
  {
    var s, t := "/" + a + x, "/" + b + y;
    var more := s[|t|..];
    assert s == t + more;
    assert s[1..] == a + x && (t + more)[1..] == b + (y + more);
    FirstPart(a, x, b, y + more);
    assert x[..|y|] == y;
  }

  lemma {:induction false} UnderIfPrefix(root: Path, p: Path)
    requires NormalPath(root) && NormalPath(p) && HasPrefix(RenderParts(p), RenderParts(root) + "/")
    ensures root < p
    decreases |root|
  {
    if root != [] && p != [] {
      HeadTail(p);
      HeadTail(root);
      assert RenderParts(root) + "/" == "/" + root[0] + (RenderParts(root[1..]) + "/");
      PrefixHead(p[0], RenderParts(p[1..]), root[0], RenderParts(root[1..]) + "/");
      UnderIfPrefix(root[1..], p[1..]);
    }
  }

  // The test on the texts is the test on the components, except that under the root of the whole tree it
  // admits nothing but that root.
  lemma WithinIff(root: Path, p: Path)
    requires NormalPath(root) && NormalPath(p)
    ensures Within(root, p) <==> p == root || (root != [] && root < p)
    ensures Within(root, p) ==> root <= p
  {
    if root < p { PrefixIfUnder(root, p); }
    if HasPrefix(RenderParts(p), RenderParts(root) + "/") { UnderIfPrefix(root, p); }
    if root == [] && p != [] {
      assert Render(p)[1] == p[0][0] || |Render(p)| < 2;
    }
  }

  /// What resolution keeps

  lemma {:induction false} AtUnder(tree: Node, p: Path, part: string)
    requires At(tree, p).Some?
    ensures At(tree, p + [part]) ==
      if At(tree, p).value.Dir? && part in At(tree, p).value.entries then Some(At(tree, p).value.entries[part]) else None
    decreases |p|
  {
    if p == [] {
      assert [part][1..] == [];
    } else {
      assert (p + [part])[1..] == p[1..] + [part];
      AtUnder(tree.entries[p[0]], p[1..], part);
    }
  }

  lemma {:induction false} AtParent(tree: Node, p: Path)
    requires p != [] && At(tree, p).Some?
    ensures At(tree, p[..|p| - 1]).Some? && At(tree, p[..|p| - 1]).value.Dir?
    decreases |p|
  {
    if |p| > 1 {
      AtParent(tree.entries[p[0]], p[1..]);
      assert p[..|p| - 1][1..] == p[1..][..|p[1..]| - 1];
    }
  }

  lemma {:induction false} ResolvePhysical(tree: Node, current: Path, parts: seq<string>, links: nat)
    requires Physical(tree, current)
    ensures var walk := Resolve(tree, current, parts, links);
      (walk.Found? || walk.Missing? ==> Physical(tree, walk.path)) && (walk.Found? ==> walk.left <= links)
    decreases links, |parts|
  {
    if parts != [] && At(tree, current).value.Dir? {
      var here := At(tree, current).value;
      if parts[0] == "" || parts[0] == "." {
        ResolvePhysical(tree, current, parts[1..], links);
      } else if parts[0] == ".." {
        if current != [] { AtParent(tree, current); }
        ResolvePhysical(tree, if current == [] then [] else current[..|current| - 1], parts[1..], links);
      } else if '/' !in parts[0] && parts[0] in here.entries {
        AtUnder(tree, current, parts[0]);
        var node := here.entries[parts[0]];
        if !node.Link? {
          ResolvePhysical(tree, current + [parts[0]], parts[1..], links);
        } else if links > 0 {
          RootPhysical(tree, current);
          ResolvePhysical(tree, if node.absolute then [] else current, node.parts + parts[1..], links - 1);
        }
      }
    }
  }

  lemma RootPhysical(tree: Node, current: Path)
    requires Physical(tree, current) && At(tree, current).value.Dir?
    ensures Physical(tree, [])
  {
  }

  lemma EvalIsPhysical(tree: Node, p: Path)
    ensures EvalSymlinks(tree, p).Some? && !tree.Link? ==> Physical(tree, EvalSymlinks(tree, p).value)
    ensures EvalSymlinks(tree, p).Some? ==> NormalPath(EvalSymlinks(tree, p).value)
  {
    if !tree.Link? { ResolvePhysical(tree, [], p, MAX_LINKS); }
  }

  /// Resolving in parts

  function Continued(tree: Node, walk: Walk, parts: seq<string>): Walk {
    if walk.Found? then Resolve(tree, walk.path, parts, walk.left) else walk
  }

  lemma {:induction false} ResolveConcat(tree: Node, current: Path, a: seq<string>, b: seq<string>, links: nat)
    ensures Resolve(tree, current, a + b, links) == Continued(tree, Resolve(tree, current, a, links), b)
    decreases links, |a|
  {
    if a == [] {
      assert a + b == b;
    } else {
      assert (a + b)[1..] == a[1..] + b;
      var here := At(tree, current);
      if here.Some? && here.value.Dir? {
        if a[0] == "" || a[0] == "." {
          ResolveConcat(tree, current, a[1..], b, links);
        } else if a[0] == ".." {
          ResolveConcat(tree, if current == [] then [] else current[..|current| - 1], a[1..], b, links);
        } else if '/' !in a[0] && a[0] in here.value.entries {
          var node := here.value.entries[a[0]];
          if !node.Link? {
            ResolveConcat(tree, current + [a[0]], a[1..], b, links);
          } else if links > 0 {
            assert node.parts + (a + b)[1..] == (node.parts + a[1..]) + b;
            ResolveConcat(tree, if node.absolute then [] else current, node.parts + a[1..], b, links - 1);
          }
        }
      }
    }
  }

  function WithMore(walk: Walk, more: nat): Walk {
    if walk.Found? then Found(walk.path, walk.left + more) else walk
  }

  // More links to spend change nothing but what is left of them, once there were enough.
  lemma {:induction false} ResolveMore(tree: Node, current: Path, parts: seq<string>, links: nat, more: nat)
    requires !Resolve(tree, current, parts, links).TooManyLinks?
    ensures Resolve(tree, current, parts, links + more) == WithMore(Resolve(tree, current, parts, links), more)
    decreases links, |parts|
  {
    if parts != [] {
      var here := At(tree, current);
      if here.Some? && here.value.Dir? {
        if parts[0] == "" || parts[0] == "." {
          ResolveMore(tree, current, parts[1..], links, more);
        } else if parts[0] == ".." {
          ResolveMore(tree, if current == [] then [] else current[..|current| - 1], parts[1..], links, more);
        } else if '/' !in parts[0] && parts[0] in here.value.entries {
          var node := here.value.entries[parts[0]];
          if !node.Link? {
            ResolveMore(tree, current + [parts[0]], parts[1..], links, more);
          } else {
            ResolveMore(tree, if node.absolute then [] else current, node.parts + parts[1..], links - 1, more);
          }
        }
      }
    }
  }

  lemma {:induction false} AtPrefix(tree: Node, p: Path, rest: seq<string>)
    requires rest != [] && At(tree, p + rest).Some?
    ensures At(tree, p).Some? && At(tree, p).value.Dir? && rest[0] in At(tree, p).value.entries
    ensures At(tree, p + [rest[0]]) == Some(At(tree, p).value.entries[rest[0]])
    decreases |p|
  {
    if p == [] {
      assert p + rest == rest && (p + [rest[0]])[1..] == [];
    } else {
      assert (p + rest)[1..] == p[1..] + rest && (p + [rest[0]])[1..] == p[1..] + [rest[0]];
      AtPrefix(tree.entries[p[0]], p[1..], rest);
    }
  }

  // A path without links resolves to itself.
  lemma {:induction false} PhysicalResolves(tree: Node, p: Path, rest: seq<string>, links: nat)
    requires Physical(tree, p + rest)
    ensures Resolve(tree, p, rest, links) == Found(p + rest, links)
    decreases |rest|
  {
    if rest == [] {
      assert p + rest == p;
    } else {
      AtPrefix(tree, p, rest);
      assert Normal((p + rest)[|p|]);
      assert (p + [rest[0]]) + rest[1..] == p + rest;
      if |rest| > 1 { AtPrefix(tree, p + [rest[0]], rest[1..]); }
      PhysicalResolves(tree, p + [rest[0]], rest[1..], links);
    }
  }

  lemma FromPhysical(tree: Node, p: Path, rest: seq<string>, links: nat)
    requires Physical(tree, p)
    ensures Resolve(tree, [], p + rest, links) == Resolve(tree, p, rest, links)
  {
    assert [] + p == p;
    PhysicalResolves(tree, [], p, links);
    ResolveConcat(tree, [], p, rest, links);
  }

  /// What the guard accepts

  // Resolution ends under the root, at the path or at its first missing component, unless the system gives
  // up on the number of links.
  ghost predicate Stays(root: Path, walk: Walk) {
    walk.TooManyLinks? || ((walk.Found? || walk.Missing?) && root <= walk.path)
  }

  // A link the guard has followed leads the system to the same place.
  lemma LinkFollowed(tree: Node, current: Path, part: string, links: nat)
    requires Physical(tree, current) && EvalSymlinks(tree, current + [part]).Some?
    ensures var walk := Resolve(tree, current, [part], links);
      walk.TooManyLinks? || (walk.Found? && walk.path == EvalSymlinks(tree, current + [part]).value)
    ensures links >= MAX_LINKS ==>
      Resolve(tree, current, [part], links).Found? && Resolve(tree, current, [part], links).left >= links - MAX_LINKS
  {
    FromPhysical(tree, current, [part], MAX_LINKS);
    if links >= MAX_LINKS {
      ResolveMore(tree, current, [part], MAX_LINKS, links - MAX_LINKS);
    } else if !Resolve(tree, current, [part], links).TooManyLinks? {
      ResolveMore(tree, current, [part], links, MAX_LINKS - links);
    }
  }

  lemma FollowedIsPhysical(tree: Node, current: Path, part: string)
    requires Physical(tree, current) && EvalSymlinks(tree, current + [part]).Some?
    ensures Physical(tree, EvalSymlinks(tree, current + [part]).value)
  {
    FromPhysical(tree, current, [part], MAX_LINKS);
    ResolvePhysical(tree, current, [part], MAX_LINKS);
  }

  lemma {:induction false} GuardSound(tree: Node, root: Path, current: Path, parts: seq<string>, links: nat)
    requires Physical(tree, current) && NormalPath(root) && root <= current && NormalPath(parts)
    requires Guard(tree, root, current, parts).None?
    ensures Stays(root, Resolve(tree, current, parts, links))
    ensures links >= MAX_LINKS * |parts| ==> !Resolve(tree, current, parts, links).TooManyLinks?
    decreases |parts|
  {
    if parts != [] {
      assert Normal(parts[0]);
      assert parts == [parts[0]] + parts[1..] && [parts[0]][1..] == [];
      var here := At(tree, current).value;
      if here.Dir? && parts[0] in here.entries {
        var next := current + [parts[0]];
        AtUnder(tree, current, parts[0]);
        if !here.entries[parts[0]].Link? {
          GuardSound(tree, root, next, parts[1..], links);
        } else {
          var resolved := EvalSymlinks(tree, next).value;
          LinkFollowed(tree, current, parts[0], links);
          FollowedIsPhysical(tree, current, parts[0]);
          WithinIff(root, resolved);
          ResolveConcat(tree, current, [parts[0]], parts[1..], links);
          var walk := Resolve(tree, current, [parts[0]], links);
          if walk.Found? { GuardSound(tree, root, resolved, parts[1..], walk.left); }
        }
      }
    }
  }

  /// Exactly what the guard accepts

  // Where the first `k` components lead, with as many links to follow on each as one path may have.
  function PlaceOf(tree: Node, root: Path, rel: seq<string>, k: nat): Walk
    requires k <= |rel|
  {
    Resolve(tree, root, rel[..k], MAX_LINKS * k)
  }

  // Component `k` leads on: it is there, following it takes no more links than one path may have, and if it
  // is itself a link it leads to a place within the root.
  ghost predicate LeadsOn(tree: Node, root: Path, rel: seq<string>, k: nat)
    requires k < |rel|
  {
    var here, there := PlaceOf(tree, root, rel, k), PlaceOf(tree, root, rel, k + 1);
    && here.Found? && there.Found? && here.left <= there.left
    && (var stat := Lstat(tree, here.path, rel[k]); stat.Exists? && (stat.node.Link? ==> Within(root, there.path)))
  }

  // Component `m` is the first that is missing, in a directory.
  ghost predicate EndsAt(tree: Node, root: Path, rel: seq<string>, m: nat)
    requires m < |rel|
  {
    PlaceOf(tree, root, rel, m).Found? && Lstat(tree, PlaceOf(tree, root, rel, m).path, rel[m]).NotExist?
  }

  ghost predicate LeadsTo(tree: Node, root: Path, rel: seq<string>, m: nat)
    requires m <= |rel|
  {
    forall k :: 0 <= k < m ==> LeadsOn(tree, root, rel, k)
  }

  ghost predicate Admitted(tree: Node, root: Path, rel: seq<string>) {
    exists m :: 0 <= m <= |rel| && LeadsTo(tree, root, rel, m) && (m < |rel| ==> EndsAt(tree, root, rel, m))
  }

  // What is found with links to spare is found without the spare ones.
  lemma {:induction false} ResolveLess(tree: Node, current: Path, parts: seq<string>, links: nat, less: nat)
    requires less <= links && Resolve(tree, current, parts, links).Found? && Resolve(tree, current, parts, links).left >= less
    ensures var walk := Resolve(tree, current, parts, links);
      Resolve(tree, current, parts, links - less) == Found(walk.path, walk.left - less)
    decreases links, |parts|
  {
    if parts != [] {
      var here := At(tree, current).value;
      if parts[0] == "" || parts[0] == "." {
        ResolveLess(tree, current, parts[1..], links, less);
      } else if parts[0] == ".." {
        ResolveLess(tree, if current == [] then [] else current[..|current| - 1], parts[1..], links, less);
      } else if !here.entries[parts[0]].Link? {
        ResolveLess(tree, current + [parts[0]], parts[1..], links, less);
      } else {
        var node := here.entries[parts[0]];
        LeftBounded(tree, if node.absolute then [] else current, node.parts + parts[1..], links - 1);
        ResolveLess(tree, if node.absolute then [] else current, node.parts + parts[1..], links - 1, less);
      }
    }
  }

  lemma {:induction false} LeftBounded(tree: Node, current: Path, parts: seq<string>, links: nat)
    ensures var walk := Resolve(tree, current, parts, links); walk.Found? ==> walk.left <= links
    decreases links, |parts|
  {
    if parts != [] {
      var here := At(tree, current);
      if here.Some? && here.value.Dir? {
        if parts[0] == "" || parts[0] == "." {
          LeftBounded(tree, current, parts[1..], links);
        } else if parts[0] == ".." {
          LeftBounded(tree, if current == [] then [] else current[..|current| - 1], parts[1..], links);
        } else if '/' !in parts[0] && parts[0] in here.value.entries {
          var node := here.value.entries[parts[0]];
          if !node.Link? {
            LeftBounded(tree, current + [parts[0]], parts[1..], links);
          } else if links > 0 {
            LeftBounded(tree, if node.absolute then [] else current, node.parts + parts[1..], links - 1);
          }
        }
      }
    }
  }

  lemma NextPlace(tree: Node, root: Path, rel: seq<string>, k: nat)
    requires k < |rel| && PlaceOf(tree, root, rel, k).Found?
    ensures var here := PlaceOf(tree, root, rel, k);
      PlaceOf(tree, root, rel, k + 1) == Resolve(tree, here.path, [rel[k]], here.left + MAX_LINKS)
  {
    assert rel[..k + 1] == rel[..k] + [rel[k]];
    ResolveMore(tree, root, rel[..k], MAX_LINKS * k, MAX_LINKS);
    assert MAX_LINKS * k + MAX_LINKS == MAX_LINKS * (k + 1);
    ResolveConcat(tree, root, rel[..k], [rel[k]], MAX_LINKS * (k + 1));
  }

  // A link resolves for the guard if and only if the system finds its end within the links of one path.
  lemma EvalIff(tree: Node, p: Path, part: string, left: nat)
    requires Physical(tree, p)
    ensures var walk := Resolve(tree, p, [part], left + MAX_LINKS);
      && (EvalSymlinks(tree, p + [part]).Some? <==> walk.Found? && walk.left >= left)
      && (EvalSymlinks(tree, p + [part]).Some? ==> EvalSymlinks(tree, p + [part]).value == walk.path)
  {
    FromPhysical(tree, p, [part], MAX_LINKS);
    if !Resolve(tree, p, [part], MAX_LINKS).TooManyLinks? {
      ResolveMore(tree, p, [part], MAX_LINKS, left);
    }
    var walk := Resolve(tree, p, [part], left + MAX_LINKS);
    if walk.Found? && walk.left >= left { ResolveLess(tree, p, [part], left + MAX_LINKS, left); }
  }

  // One component: the guard goes on exactly when it leads on, and to where it leads.
  lemma GuardStep(tree: Node, root: Path, rel: seq<string>, k: nat)
    requires k < |rel| && Normal(rel[k])
    requires PlaceOf(tree, root, rel, k).Found? && Physical(tree, PlaceOf(tree, root, rel, k).path)
    ensures var p := PlaceOf(tree, root, rel, k).path;
      var stat := Lstat(tree, p, rel[k]);
      && (LeadsOn(tree, root, rel, k) ==>
            && Physical(tree, PlaceOf(tree, root, rel, k + 1).path)
            && Guard(tree, root, p, rel[k..]) == Guard(tree, root, PlaceOf(tree, root, rel, k + 1).path, rel[k + 1..]))
      && (stat.NotExist? ==> Guard(tree, root, p, rel[k..]).None?)
      && (!stat.NotExist? && !LeadsOn(tree, root, rel, k) ==> Guard(tree, root, p, rel[k..]).Some?)
  {
    var here := PlaceOf(tree, root, rel, k);
    var p := here.path;
    assert rel[k..][1..] == rel[k + 1..] && rel[k..][0] == rel[k];
    NextPlace(tree, root, rel, k);
    var stat := Lstat(tree, p, rel[k]);
    if stat.Exists? {
      if stat.node.Link? {
        EvalIff(tree, p, rel[k], here.left);
        if LeadsOn(tree, root, rel, k) { FollowedIsPhysical(tree, p, rel[k]); }
      } else {
        AtUnder(tree, p, rel[k]);
        assert [rel[k]][1..] == [];
      }
    }
  }

  lemma {:induction false} GuardFrom(tree: Node, root: Path, rel: seq<string>, m: nat)
    requires Physical(tree, root) && NormalPath(rel) && m <= |rel| && LeadsTo(tree, root, rel, m)
    ensures var place := PlaceOf(tree, root, rel, m);
      && place.Found? && Physical(tree, place.path)
      && Guard(tree, root, root, rel) == Guard(tree, root, place.path, rel[m..])
  {
    if m == 0 {
      assert rel[..0] == [] && rel[0..] == rel;
    } else {
      GuardFrom(tree, root, rel, m - 1);
      assert Normal(rel[m - 1]) && LeadsOn(tree, root, rel, m - 1);
      GuardStep(tree, root, rel, m - 1);
    }
  }

  lemma {:induction false} AcceptedIsAdmitted(tree: Node, root: Path, rel: seq<string>, k: nat)
    requires Physical(tree, root) && NormalPath(rel) && k <= |rel| && LeadsTo(tree, root, rel, k)
    requires Guard(tree, root, root, rel).None?
    ensures Admitted(tree, root, rel)
    decreases |rel| - k
  {
    GuardFrom(tree, root, rel, k);
    if k < |rel| && !EndsAt(tree, root, rel, k) {
      assert Normal(rel[k]);
      GuardStep(tree, root, rel, k);
      AcceptedIsAdmitted(tree, root, rel, k + 1);
    }
  }

  // The guard accepts a path below a real root if and only if, up to the first component that is missing from
  // its directory, every component is there and resolves, and every one that is a link leads within the root.
  lemma GuardIff(tree: Node, root: Path, rel: seq<string>)
    requires Physical(tree, root) && NormalPath(rel)
    ensures Guard(tree, root, root, rel).None? <==> Admitted(tree, root, rel)
  {
    if Guard(tree, root, root, rel).None? { AcceptedIsAdmitted(tree, root, rel, 0); }
    if Admitted(tree, root, rel) {
      var m :| 0 <= m <= |rel| && LeadsTo(tree, root, rel, m) && (m < |rel| ==> EndsAt(tree, root, rel, m));
      GuardFrom(tree, root, rel, m);
      if m < |rel| {
        assert Normal(rel[m]);
        GuardStep(tree, root, rel, m);
      }
    }
  }

  // Joining the root with the relative path gives back the accepted path, and on every file tree that path
  // physically stays under the real root up to its first missing component, whatever links lie on it.
  lemma AcceptedStaysUnderRoot(tree: Node, root: Option<Path>, raw: string, links: nat)
    requires !tree.Link? && ScopedPath(tree, root, raw).Ok?
    ensures var s := ScopedPath(tree, root, raw).value;
      && root.Some? && EvalSymlinks(tree, root.value) == Some(s.root)
      && s.joined == s.root + s.rel
      && Stays(s.root, Resolve(tree, [], s.joined, links))
      && (links >= MAX_LINKS * |s.rel| ==> !Resolve(tree, [], s.joined, links).TooManyLinks?)
  {
    var s := ScopedPath(tree, root, raw).value;
    EvalIsPhysical(tree, root.value);
    var text := TrimSpace(raw);
    if text == "" || text == "." {
      assert s.root + [] == s.root;
    } else {
      CandidateIsNormal(s.root, text);
      WithinIff(s.root, s.joined);
    }
    assert forall i :: 0 <= i < |s.rel| ==> s.rel[i] == s.joined[|s.root| + i];
    GuardSound(tree, s.root, s.root, s.rel, links);
    FromPhysical(tree, s.root, s.rel, links);
  }

  // With the root of the whole tree as the directory, only that root itself is ever accepted.
  lemma WholeTreeAcceptsOnlyRoot(tree: Node, root: Path, raw: string)
    requires !tree.Link? && EvalSymlinks(tree, root) == Some([]) && '\0' !in raw
    ensures ScopedPath(tree, Some(root), raw).Ok? <==>
      TrimSpace(raw) == "" || TrimSpace(raw) == "." || Candidate([], TrimSpace(raw)) == []
  {
    CandidateIsNormal([], TrimSpace(raw));
    WithinIff([], Candidate([], TrimSpace(raw)));
  }

  // The guard asks more than staying under the root: a path is turned away for a link on its way that
  // leaves, even when the rest of the path comes back.
  lemma DetourRejected()
    ensures var home := Dir(map["out" := Link(true, ["away"]), "file" := File]);
      var tree := Dir(map["home" := home, "away" := Dir(map["back" := Link(true, ["home", "file"])])]);
      && Resolve(tree, [], ["home", "out", "back"], MAX_LINKS) == Found(["home", "file"], MAX_LINKS - 2)
      && Guard(tree, ["home"], ["home"], ["out", "back"]) == Some(EscapeAttempt)
  {
    var home := Dir(map["out" := Link(true, ["away"]), "file" := File]);
    var away := Dir(map["back" := Link(true, ["home", "file"])]);
    var tree := Dir(map["home" := home, "away" := away]);
    var n := MAX_LINKS;
    assert At(tree, []) == Some(tree) && At(home, []) == Some(home) && At(away, []) == Some(away);
    assert ["home"][1..] == [] && ["away"][1..] == [];
    assert At(tree, ["home"]) == Some(home) && At(tree, ["away"]) == Some(away);
    assert ["home", "file"] + [] == ["home", "file"] && ["away"] + ["back"] == ["away", "back"];
    assert [] + ["home"] == ["home"] && ["home"] + ["file"] == ["home", "file"];
    assert '/' !in "file" && '/' !in "back" && '/' !in "away" && '/' !in "out";
    assert [] + ["away"] == ["away"] && ["away", "back"][1..] == ["back"] && ["home", "file"][1..] == ["file"];
    assert Resolve(tree, ["home"], ["file"], n - 2) == Found(["home", "file"], n - 2);
    assert Resolve(tree, [], ["home", "file"], n - 2) == Resolve(tree, ["home"], ["file"], n - 2);
    assert Resolve(tree, ["away"], ["back"], n - 1) == Resolve(tree, [], ["home", "file"], n - 2);
    assert Resolve(tree, [], ["away", "back"], n - 1) == Resolve(tree, ["away"], ["back"], n - 1);
    assert Resolve(tree, ["home"], ["out", "back"], n) == Resolve(tree, [], ["away", "back"], n - 1);
    DetourStart(tree, home, away);
  }

  lemma DetourStart(tree: Node, home: Node, away: Node)
    requires home == Dir(map["out" := Link(true, ["away"]), "file" := File])
    requires away.Dir? && tree == Dir(map["home" := home, "away" := away])
    ensures Resolve(tree, [], ["home", "out", "back"], MAX_LINKS) == Resolve(tree, ["home"], ["out", "back"], MAX_LINKS)
    ensures Guard(tree, ["home"], ["home"], ["out", "back"]) == Some(EscapeAttempt)
  {
    assert At(home, []) == Some(home) && At(away, []) == Some(away);
    assert ["home"][1..] == [] && ["away"][1..] == [] && ["out"][1..] == [];
    assert At(tree, ["home"]) == Some(home) && At(tree, ["away"]) == Some(away);
    assert [] + ["home"] == ["home"] && ["home"] + ["out"] == ["home", "out"] && ["away"] + [] == ["away"];
    assert Physical(tree, ["home"]) && Physical(tree, ["away"]);
    FromPhysical(tree, ["home"], ["out"], MAX_LINKS);
    PhysicalResolves(tree, [], ["away"], MAX_LINKS - 1);
    assert '/' !in "out" && '/' !in "home";
    var parts, node := ["out"], home.entries["out"];
    assert Resolve(tree, ["home"], parts, MAX_LINKS) == Resolve(tree, [], node.parts + parts[1..], MAX_LINKS - 1);
    assert node.parts + parts[1..] == ["away"] && [] + ["away"] == ["away"];
    assert EvalSymlinks(tree, ["home", "out"]) == Some(["away"]);
    WithinIff(["home"], ["away"]);
  }
}
