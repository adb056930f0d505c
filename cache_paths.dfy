/** Where the revision stage caches its comments and its revised
    websites: the commenter variant named after the commenter's class, and
    the two cache directories.

    A path is a POSIX pure path: its root ("", "/" or "//") and its
    segments. `base / name` follows pathlib: the name is split on '/',
    empty and "." pieces vanish, and a name starting with '/' replaces
    the whole path. */
module CachePaths {
  import opened Wrappers
  import opened Text
  import RunKey

  datatype Path = Path(root: string, parts: seq<string>)

  // ---- pathlib's join ----

  /** The index of the first '/' in `s`, or |s| when there is none. */
  function SlashIndex(s: string): (i: nat)
    ensures i <= |s| && (i < |s| ==> s[i] == '/')
    ensures forall k :: 0 <= k < i ==> s[k] != '/'
  {
    if s == [] || s[0] == '/' then 0 else 1 + SlashIndex(s[1..])
  }

  /** `s.split('/')`. */
  function Pieces(s: string): seq<string>
    decreases |s|
  {
    var i := SlashIndex(s);
    if i == |s| then [s] else [s[..i]] + Pieces(s[i + 1..])
  }

  /** A name pathlib keeps as one segment of its own. */
  predicate Plain(x: string) {
    x != "" && x != "." && forall j :: 0 <= j < |x| ==> x[j] != '/'
  }

  /** The pieces that name a segment: empty and "." pieces are dropped. */
  function Named(pieces: seq<string>): seq<string>
    decreases |pieces|
  {
    if pieces == [] then []
    else (if pieces[0] == "" || pieces[0] == "." then [] else [pieces[0]]) + Named(pieces[1..])
  }

  /** The segments a string adds to a path. */
  function Segments(s: string): seq<string> {
    Named(Pieces(s))
  }

  /** No piece of a split holds the separator. */
  lemma {:induction false} PiecesHaveNoSlash(s: string)
    ensures forall k, j :: 0 <= k < |Pieces(s)| && 0 <= j < |Pieces(s)[k]| ==> Pieces(s)[k][j] != '/'
    decreases |s|
  {
    var i := SlashIndex(s);
    if i < |s| {
      PiecesHaveNoSlash(s[i + 1..]);
      assert Pieces(s) == [s[..i]] + Pieces(s[i + 1..]);
    }
  }

  /** Keeping the named pieces leaves only plain names. */
  lemma {:induction false} NamedArePlain(pieces: seq<string>)
    requires forall k, j :: 0 <= k < |pieces| && 0 <= j < |pieces[k]| ==> pieces[k][j] != '/'
    ensures forall k :: 0 <= k < |Named(pieces)| ==> Plain(Named(pieces)[k])
    decreases |pieces|
  {
    if pieces != [] {
      NamedArePlain(pieces[1..]);
    }
  }

  /** Every segment of a joined name is plain: not empty, not "." and
      free of '/'. */
  lemma SegmentsArePlain(s: string)
    ensures forall k :: 0 <= k < |Segments(s)| ==> Plain(Segments(s)[k])
  {
    PiecesHaveNoSlash(s);
    NamedArePlain(Pieces(s));
  }

  predicate Absolute(name: string) {
    |name| > 0 && name[0] == '/'
  }

  /** The root of an absolute name: exactly two leading slashes are kept
      as "//", any other number reads as "/". */
  function RootOf(name: string): (r: string)
    ensures r == "/" || r == "//"
  {
    if |name| >= 2 && name[1] == '/' && (|name| == 2 || name[2] != '/') then "//" else "/"
  }

  /** `p / name`. */
  function Join(p: Path, name: string): Path {
    if Absolute(name) then Path(RootOf(name), Segments(name)) else Path(p.root, p.parts + Segments(name))
  }

  /** A plain name is its own single segment. */
  lemma SegmentsOfPlain(x: string)
    requires Plain(x)
    ensures Segments(x) == [x]
  {
    assert SlashIndex(x) == |x|;
    assert Pieces(x) == [x];
    assert Named([x]) == [x] + Named([]);
  }

  /** A leading '/' adds no segment. */
  lemma SegmentsAfterSlash(rest: string)
    ensures Segments("/" + rest) == Segments(rest)
  {
    var s := "/" + rest;
    assert SlashIndex(s) == 0;
    assert s[1..] == rest;
    assert Pieces(s) == [""] + Pieces(rest);
    assert Named([""] + Pieces(rest)) == [] + Named(Pieces(rest)) by {
      assert ([""] + Pieces(rest))[1..] == Pieces(rest);
    }
  }

  /** A plain name before a '/' is the first segment. */
  lemma SegmentsOfFirst(x: string, rest: string)
    requires Plain(x)
    ensures Segments(x + "/" + rest) == [x] + Segments(rest)
  {
    var s := x + "/" + rest;
    assert SlashIndex(s) == |x| by {
      assert s[|x|] == '/';
      assert forall k :: 0 <= k < |x| ==> s[k] == x[k];
      SlashIndexAt(s, |x|);
    }
    assert s[..|x|] == x && s[|x| + 1..] == rest;
    assert Pieces(s) == [x] + Pieces(rest);
    assert ([x] + Pieces(rest))[1..] == Pieces(rest);
  }

  /** The first '/' is found where it is. */
  lemma SlashIndexAt(s: string, i: nat)
    requires i < |s| && s[i] == '/' && forall k :: 0 <= k < i ==> s[k] != '/'
    ensures SlashIndex(s) == i
  {
  }

  /** Joining a plain name appends it. */
  lemma JoinPlain(p: Path, x: string)
    requires Plain(x)
    ensures Join(p, x) == Path(p.root, p.parts + [x])
  {
    SegmentsOfPlain(x);
  }

  /** Joining two plain names with a '/' between them appends both. */
  lemma JoinPair(p: Path, x: string, y: string)
    requires Plain(x) && Plain(y)
    ensures Join(p, x + "/" + y) == Path(p.root, p.parts + [x, y])
  {
    SegmentsOfFirst(x, y);
    SegmentsOfPlain(y);
    assert (x + "/" + y)[0] == x[0];
    assert [x] + [y] == [x, y];
  }

  /** Appending one more element to a list built from a base. */
  lemma AppendOne(a: seq<string>, xs: seq<string>, y: string)
    ensures a + xs + [y] == a + (xs + [y])
  {
  }

  /** A list of six names is the list of the first five and the last. */
  lemma SixNames(n1: string, n2: string, n3: string, n4: string, n5: string, n6: string)
    ensures [n1, n2, n3, n4, n5] + [n6] == [n1, n2, n3, n4, n5, n6]
  {
  }

  /** Two ways of cutting three appended names. */
  lemma AppendThree(a: seq<string>, o: string, x: string, y: string)
    ensures a + [o, x] + [y] == a + [o, x, y] == a + [o] + [x, y]
  {
  }

  /** The empty name has no segment. */
  lemma SegmentsOfEmpty()
    ensures Segments("") == []
  {
    assert Pieces("") == [""];
  }

  /** The fixed names of the two caches are plain. */
  lemma FixedNamesPlain()
    ensures Plain(V0Name) && Plain(CommentsName) && Plain(ProgressName) && Plain(Stage3Name)
  {
    assert forall j :: 0 <= j < |V0Name| ==> V0Name[j] in V0Name;
    assert forall j :: 0 <= j < |CommentsName| ==> CommentsName[j] in CommentsName;
    assert forall j :: 0 <= j < |ProgressName| ==> ProgressName[j] in ProgressName;
    assert forall j :: 0 <= j < |Stage3Name| ==> Stage3Name[j] in Stage3Name;
  }

  // ---- The commenter variant ----

  /** `commenter_variant_from_instance`, given the commenter's class name
      (None when there is no commenter). */
  function CommenterVariant(className: Option<string>): (r: string)
    ensures className.None? ==> r == "none"
  {
    match className
    case None => "none"
    case Some(name) =>
      if name == "Commenter" then "storyboard"
      else if name == "CommenterTextOnly" then "text-only"
      else if name == "CommenterScreenshotOnly" then "screenshot-only"
      else Lower(name)
  }

  predicate HasNoUpper(s: string) {
    forall k :: 0 <= k < |s| ==> !('A' <= s[k] <= 'Z')
  }

  /** The variant never holds an upper-case letter; the three commenters
      of the system get three distinct names, none of them "none"; any
      other class is named by its lower-cased class name. */
  lemma CommenterVariantShape(className: Option<string>)
    ensures HasNoUpper(CommenterVariant(className))
    ensures className.Some? && className.value !in {"Commenter", "CommenterTextOnly", "CommenterScreenshotOnly"} ==>
      CommenterVariant(className) == Lower(className.value)
    ensures CommenterVariant(Some("Commenter")) == "storyboard"
    ensures CommenterVariant(Some("CommenterTextOnly")) == "text-only"
    ensures CommenterVariant(Some("CommenterScreenshotOnly")) == "screenshot-only"
  {
    var r := CommenterVariant(className);
    if className.Some? && className.value !in {"Commenter", "CommenterTextOnly", "CommenterScreenshotOnly"} {
      forall k | 0 <= k < |r| ensures !('A' <= r[k] <= 'Z') {
        assert r[k] == LowerChar(className.value[k]);
      }
    }
  }

  /** Lower-casing makes a class name collide with a built-in variant:
      a class named "Storyboard" shares the cache of `Commenter`. */
  lemma VariantCollision()
    ensures CommenterVariant(Some("Storyboard")) == CommenterVariant(Some("Commenter"))
  {
    assert Lower("Storyboard") == "storyboard";
  }

  // ---- The cache directories ----

  /** The directory scope: the initial website directory, or "default". */
  function Scope(v0Dir: Option<string>): (r: string)
    ensures r != ""
    ensures RunKey.Given(v0Dir) ==> r == v0Dir.value
  {
    if RunKey.Given(v0Dir) then v0Dir.value else "default"
  }

  /** The fixed directory names of the two caches. */
  const V0Name: string := "v0"
  const CommentsName: string := "comments"
  const ProgressName: string := "progress"
  const Stage3Name: string := "stage3_v1"

  /** `p / name` for a name that is a single plain segment. */
  function Child(p: Path, name: string): Path {
    Path(p.root, p.parts + [name])
  }

  /** Each fixed name joins as a single segment, so the directories below
      write `Child` for them. */
  lemma FixedNamesJoin(p: Path)
    ensures Join(p, V0Name) == Child(p, V0Name) && Join(p, CommentsName) == Child(p, CommentsName)
    ensures Join(p, ProgressName) == Child(p, ProgressName) && Join(p, Stage3Name) == Child(p, Stage3Name)
  {
    FixedNamesPlain();
    JoinPlain(p, V0Name);
    JoinPlain(p, CommentsName);
    JoinPlain(p, ProgressName);
    JoinPlain(p, Stage3Name);
  }

  /** `comment_cache_dir`: base/v0/<scope>/comments/<variant>/<model>/<app>. */
  function CommentCacheDir(base: Path, v0Dir: Option<string>, variant: string, model: string, app: string): Path {
    Join(Join(Join(Child(Join(Child(base, V0Name), Scope(v0Dir)), CommentsName), variant), model), app)
  }

  /** `v1_cache_dir`: base/progress/stage3_v1/<scope>/<variant>/<model>/<app>. */
  function V1CacheDir(base: Path, v0Dir: Option<string>, revisionVariant: string, model: string, app: string): Path {
    Join(Join(Join(Join(Child(Child(base, ProgressName), Stage3Name), Scope(v0Dir)), revisionVariant), model), app)
  }

  /** With plain names the comment cache directory is six more segments
      after the base's. */
  lemma CommentCacheDirPlain(base: Path, v0Dir: Option<string>, variant: string, model: string, app: string)
    requires Plain(Scope(v0Dir)) && Plain(variant) && Plain(model) && Plain(app)
    ensures CommentCacheDir(base, v0Dir, variant, model, app)
         == Path(base.root, base.parts + [V0Name, Scope(v0Dir), CommentsName, variant, model, app])
  {
    var sc := Scope(v0Dir);
    var p1 := Child(base, V0Name);
    var p2 := Join(p1, sc);
    JoinPlain(p1, sc);
    AppendOne(base.parts, [V0Name], sc);
    var p3 := Child(p2, CommentsName);
    AppendOne(base.parts, [V0Name, sc], CommentsName);
    var p4 := Join(p3, variant);
    JoinPlain(p3, variant);
    AppendOne(base.parts, [V0Name, sc, CommentsName], variant);
    var p5 := Join(p4, model);
    JoinPlain(p4, model);
    AppendOne(base.parts, [V0Name, sc, CommentsName, variant], model);
    JoinPlain(p5, app);
    AppendOne(base.parts, [V0Name, sc, CommentsName, variant, model], app);
    SixNames(V0Name, sc, CommentsName, variant, model, app);
  }

  /** With plain names the revision cache directory is six more segments
      after the base's. */
  lemma V1CacheDirPlain(base: Path, v0Dir: Option<string>, revisionVariant: string, model: string, app: string)
    requires Plain(Scope(v0Dir)) && Plain(revisionVariant) && Plain(model) && Plain(app)
    ensures V1CacheDir(base, v0Dir, revisionVariant, model, app)
         == Path(base.root, base.parts + [ProgressName, Stage3Name, Scope(v0Dir), revisionVariant, model, app])
  {
    var sc := Scope(v0Dir);
    var p2 := Child(Child(base, ProgressName), Stage3Name);
    AppendOne(base.parts, [ProgressName], Stage3Name);
    var p3 := Join(p2, sc);
    JoinPlain(p2, sc);
    AppendOne(base.parts, [ProgressName, Stage3Name], sc);
    var p4 := Join(p3, revisionVariant);
    JoinPlain(p3, revisionVariant);
    AppendOne(base.parts, [ProgressName, Stage3Name, sc], revisionVariant);
    var p5 := Join(p4, model);
    JoinPlain(p4, model);
    AppendOne(base.parts, [ProgressName, Stage3Name, sc, revisionVariant], model);
    JoinPlain(p5, app);
    AppendOne(base.parts, [ProgressName, Stage3Name, sc, revisionVariant, model], app);
    SixNames(ProgressName, Stage3Name, sc, revisionVariant, model, app);
  }

  /** Six names after a shared base are equal exactly when each is. */
  lemma SixInjective(b: seq<string>, x1: string, x2: string, x3: string, x4: string, x5: string, x6: string,
                     y1: string, y2: string, y3: string, y4: string, y5: string, y6: string)
    ensures b + [x1, x2, x3, x4, x5, x6] == b + [y1, y2, y3, y4, y5, y6] <==>
            x1 == y1 && x2 == y2 && x3 == y3 && x4 == y4 && x5 == y5 && x6 == y6
  {
    var p, q := b + [x1, x2, x3, x4, x5, x6], b + [y1, y2, y3, y4, y5, y6];
    if p == q {
      assert p[|b|] == q[|b|] && p[|b| + 1] == q[|b| + 1] && p[|b| + 2] == q[|b| + 2];
      assert p[|b| + 3] == q[|b| + 3] && p[|b| + 4] == q[|b| + 4] && p[|b| + 5] == q[|b| + 5];
    }
  }

  /** Equal scope, variant, model and app give the same comment cache
      directory; when they are plain names the converse holds too, so
      every (variant, model, app) of a scope has a directory of its own. */
  lemma CommentCacheDirInjective(base: Path, v: Option<string>, c: string, m: string, a: string,
                                 v': Option<string>, c': string, m': string, a': string)
    requires Plain(Scope(v)) && Plain(c) && Plain(m) && Plain(a)
    requires Plain(Scope(v')) && Plain(c') && Plain(m') && Plain(a')
    ensures CommentCacheDir(base, v, c, m, a) == CommentCacheDir(base, v', c', m', a') <==>
            Scope(v) == Scope(v') && c == c' && m == m' && a == a'
  {
    CommentCacheDirPlain(base, v, c, m, a);
    CommentCacheDirPlain(base, v', c', m', a');
    SixInjective(base.parts, V0Name, Scope(v), CommentsName, c, m, a, V0Name, Scope(v'), CommentsName, c', m', a');
  }

  /** Likewise for the revised-website cache. */
  lemma V1CacheDirInjective(base: Path, v: Option<string>, r: string, m: string, a: string,
                            v': Option<string>, r': string, m': string, a': string)
    requires Plain(Scope(v)) && Plain(r) && Plain(m) && Plain(a)
    requires Plain(Scope(v')) && Plain(r') && Plain(m') && Plain(a')
    ensures V1CacheDir(base, v, r, m, a) == V1CacheDir(base, v', r', m', a') <==>
            Scope(v) == Scope(v') && r == r' && m == m' && a == a'
  {
    V1CacheDirPlain(base, v, r, m, a);
    V1CacheDirPlain(base, v', r', m', a');
    SixInjective(base.parts, ProgressName, Stage3Name, Scope(v), r, m, a, ProgressName, Stage3Name, Scope(v'), r', m', a');
  }

  /** Joining a relative name keeps the root and every segment already
      there. */
  lemma JoinKeeps(p: Path, name: string, n: nat)
    requires !Absolute(name) && n < |p.parts|
    ensures Join(p, name).root == p.root && n < |Join(p, name).parts| && Join(p, name).parts[n] == p.parts[n]
  {
  }

  /** When no scope, variant, model or app starts with '/', comments and
      revised websites never share a directory under one base: the first
      segment after the base is "v0" for one and "progress" for the other. */
  lemma CachesApart(base: Path, v: Option<string>, c: string, m: string, a: string,
                    v': Option<string>, r: string, m': string, a': string)
    requires !Absolute(Scope(v)) && !Absolute(c) && !Absolute(m) && !Absolute(a)
    requires !Absolute(Scope(v')) && !Absolute(r) && !Absolute(m') && !Absolute(a')
    ensures CommentCacheDir(base, v, c, m, a) != V1CacheDir(base, v', r, m', a')
  {
    var n := |base.parts|;
    var p1 := Child(base, V0Name);
    assert p1.parts[n] == V0Name;
    var p2 := Join(p1, Scope(v));
    JoinKeeps(p1, Scope(v), n);
    var p3 := Child(p2, CommentsName);
    var p4 := Join(p3, c);
    JoinKeeps(p3, c, n);
    var p5 := Join(p4, m);
    JoinKeeps(p4, m, n);
    JoinKeeps(p5, a, n);
    var q2 := Child(Child(base, ProgressName), Stage3Name);
    assert q2.parts[n] == ProgressName;
    var q3 := Join(q2, Scope(v'));
    JoinKeeps(q2, Scope(v'), n);
    var q4 := Join(q3, r);
    JoinKeeps(q3, r, n);
    var q5 := Join(q4, m');
    JoinKeeps(q4, m', n);
    JoinKeeps(q5, a', n);
    assert V0Name[0] != ProgressName[0];
  }

  /** Joining "/x" replaces the path by the root and x. */
  lemma AbsoluteJoin(p: Path, x: string)
    requires Plain(x)
    ensures Join(p, "/" + x) == Path("/", [x])
  {
    assert ("/" + x)[1] == x[0];
    SegmentsAfterSlash(x);
    SegmentsOfPlain(x);
  }

  /** Joining "/x/y" replaces the path by the root, x and y. */
  lemma AbsoluteJoinPair(p: Path, x: string, y: string)
    requires Plain(x) && Plain(y)
    ensures Join(p, "/" + x + "/" + y) == Path("/", [x, y])
  {
    var s := "/" + x + "/" + y;
    assert s[1] == x[0];
    assert s == "/" + (x + "/" + y);
    SegmentsAfterSlash(x + "/" + y);
    SegmentsOfFirst(x, y);
    SegmentsOfPlain(y);
  }

  /** An absolute scope discards the base: the comment cache under "/x"
      is the revision cache under "/x/comments". */
  lemma AbsoluteScopeMeetsRevisionCache(base: Path, x: string, c: string, m: string, a: string)
    requires Plain(x) && Plain(c) && Plain(m) && Plain(a)
    ensures CommentCacheDir(base, Some("/" + x), c, m, a) == V1CacheDir(base, Some("/" + x + "/" + CommentsName), c, m, a)
  {
    FixedNamesPlain();
    var s1, s2 := "/" + x, "/" + x + "/" + CommentsName;
    assert Scope(Some(s1)) == s1 && Scope(Some(s2)) == s2;
    AbsoluteJoin(Child(base, V0Name), x);
    AbsoluteJoinPair(Child(Child(base, ProgressName), Stage3Name), x, CommentsName);
    var below := Path("/", [x, CommentsName]);
    assert Child(Path("/", [x]), CommentsName) == below;
    assert CommentCacheDir(base, Some(s1), c, m, a) == Join(Join(Join(below, c), m), a);
  }

  /** An empty name vanishes from the path: the triples ("", m, a) and
      (m, a, "") share one comment cache. */
  lemma EmptyNameCollides(base: Path, v: Option<string>, m: string, a: string)
    requires Plain(m) && Plain(a)
    ensures CommentCacheDir(base, v, "", m, a) == CommentCacheDir(base, v, m, a, "")
  {
    SegmentsOfEmpty();
    var p := Child(Join(Child(base, V0Name), Scope(v)), CommentsName);
    assert Join(p, "") == p;
    JoinPlain(p, m);
    JoinPlain(Join(p, m), a);
    assert Join(Join(p, m), a) == Join(Join(Join(p, m), a), "");
  }

  /** A name holding '/' adds several segments: model "o/x" with app "y"
      shares a comment cache with model "o" and app "x/y". */
  lemma SlashNameCollides(base: Path, v: Option<string>, c: string, o: string, x: string, y: string)
    requires Plain(o) && Plain(x) && Plain(y)
    ensures CommentCacheDir(base, v, c, o + "/" + x, y) == CommentCacheDir(base, v, c, o, x + "/" + y)
  {
    var p := Join(Child(Join(Child(base, V0Name), Scope(v)), CommentsName), c);
    JoinPair(p, o, x);
    JoinPlain(Join(p, o + "/" + x), y);
    JoinPlain(p, o);
    JoinPair(Join(p, o), x, y);
    AppendThree(p.parts, o, x, y);
  }

  /** A missing and an empty directory share the "default" scope, and for a
      directory name without '/' or ' ' the scope is its run-key slug. */
  lemma ScopeMatchesSlug(v0Dir: Option<string>)
    ensures !RunKey.Given(v0Dir) ==> Scope(v0Dir) == "default" == RunKey.SlugV0(v0Dir)
    ensures RunKey.Given(v0Dir) && (forall k :: 0 <= k < |v0Dir.value| ==> v0Dir.value[k] != '/' && v0Dir.value[k] != ' ') ==>
      Scope(v0Dir) == RunKey.SlugV0(v0Dir)
  {
    if RunKey.Given(v0Dir) {
      RunKey.SlugShape(v0Dir);
    }
  }
}
