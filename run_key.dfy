/** The namespace key of a revision-stage configuration: a readable key
    built from the revision type, the commenter and a slug of the initial
    website directory, and its eight-character short form.

    SHA-1 is a parameter: `sha1Hex` maps the key to its hex digest. */
module RunKey {
  import opened Wrappers
  import opened Text

  /** Python's truthiness of an optional directory name. */
  predicate Given(v0Dir: Option<string>) {
    v0Dir.Some? && v0Dir.value != ""
  }

  /** `_slug_v0`: "default" for a missing or empty directory, else the
      directory with every '/' turned into '_' and every ' ' into '-'. */
  function SlugV0(v0Dir: Option<string>): string {
    if !Given(v0Dir) then "default"
    else ReplaceChar(ReplaceChar(v0Dir.value, '/', '_'), ' ', '-')
  }

  /** A slug is one path segment without blanks: it keeps the directory's
      length and every character other than '/' and ' ', and holds
      neither of those two. */
  lemma SlugShape(v0Dir: Option<string>)
    ensures !Given(v0Dir) ==> SlugV0(v0Dir) == "default"
    ensures Given(v0Dir) ==>
      var s := SlugV0(v0Dir);
      && |s| == |v0Dir.value|
      && (forall k :: 0 <= k < |s| ==> s[k] != '/' && s[k] != ' ')
      && (forall k :: 0 <= k < |s| && v0Dir.value[k] != '/' && v0Dir.value[k] != ' ' ==> s[k] == v0Dir.value[k])
    ensures !Contains(SlugV0(v0Dir), "/") && !Contains(SlugV0(v0Dir), " ")
  {
    var s := SlugV0(v0Dir);
    assert forall k :: 0 <= k < |s| ==> s[k] != '/' && s[k] != ' ';
    NotContainsChar(s, '/');
    NotContainsChar(s, ' ');
  }

  /** Slugging a slug changes nothing. */
  lemma SlugIdempotent(v0Dir: Option<string>)
    ensures SlugV0(Some(SlugV0(v0Dir))) == SlugV0(v0Dir)
  {
    var s := SlugV0(v0Dir);
    SlugShape(v0Dir);
    assert Given(Some(s));
    assert SlugV0(Some(s)) == s;
  }

  /** Different directories can share a slug: "a/b" and "a_b" do, and an
      explicit "default" directory shares the slug of no directory. */
  lemma SlugCollisions()
    ensures SlugV0(Some("a/b")) == SlugV0(Some("a_b"))
    ensures SlugV0(Some("default")) == SlugV0(None) == SlugV0(Some(""))
  {
    assert SlugV0(Some("a/b")) == "a_b";
    assert SlugV0(Some("a_b")) == "a_b";
    assert SlugV0(Some("default")) == "default";
  }

  /** `build_run_key`. */
  function BuildRunKey(revisionType: string, commenter: string, v0Dir: Option<string>): string {
    "rev-" + revisionType + "__commenter-" + commenter + "__v0-" + SlugV0(v0Dir)
  }

  /** Reading a run key back into its revision type, commenter and slug:
      the text between "rev-" and the first "__commenter-", then up to the
      next "__v0-", then the rest. */
  function ParseRunKey(key: string): Option<(string, string, string)> {
    if !StartsWith(key, "rev-") then None
    else
      var body := key[4..];
      if !Contains(body, "__commenter-") then None
      else
        var rest := After(body, "__commenter-");
        if !Contains(rest, "__v0-") then None
        else Some((Before(body, "__commenter-"), Before(rest, "__v0-"), After(rest, "__v0-")))
  }

  /** The key is unambiguous when the revision type and the commenter hold
      no '_': parsing it gives back both and the slug. */
  lemma RunKeyRoundTrip(revisionType: string, commenter: string, v0Dir: Option<string>)
    requires forall k :: 0 <= k < |revisionType| ==> revisionType[k] != '_'
    requires forall k :: 0 <= k < |commenter| ==> commenter[k] != '_'
    ensures ParseRunKey(BuildRunKey(revisionType, commenter, v0Dir)) == Some((revisionType, commenter, SlugV0(v0Dir)))
  {
    var slug := SlugV0(v0Dir);
    var rest := commenter + "__v0-" + slug;
    var body := revisionType + "__commenter-" + rest;
    var key := BuildRunKey(revisionType, commenter, v0Dir);
    assert key == "rev-" + body;
    assert key[4..] == body;
    SplitAtFirst(revisionType, "__commenter-", rest);
    SplitAtFirst(commenter, "__v0-", slug);
  }

  /** Splitting at a separator none of whose first characters occurs
      before it gives back both sides. */
  lemma SplitAtFirst(pre: string, sep: string, post: string)
    requires |sep| > 0 && forall k :: 0 <= k < |pre| ==> pre[k] != sep[0]
    ensures Contains(pre + sep + post, sep)
    ensures Before(pre + sep + post, sep) == pre && After(pre + sep + post, sep) == post
  {
    var s := pre + sep + post;
    assert s == pre + (sep + post);
    FindPastPrefix(pre, sep + post, sep);
    ContainsAt(s, sep, |pre|);
    assert s[|pre| + |sep|..] == post;
    assert s[..|pre|] == pre;
  }

  /** `short_run_key`: the first eight characters of the key's SHA-1 hex
      digest. */
  function ShortRunKey(runKey: string, sha1Hex: string -> string): (r: string)
    ensures StartsWith(sha1Hex(runKey), r)
    ensures |sha1Hex(runKey)| >= 8 ==> |r| == 8
  {
    Prefix(sha1Hex(runKey), 8)
  }

  predicate IsHexDigit(c: char) {
    '0' <= c <= '9' || 'a' <= c <= 'f'
  }

  /** What `hexdigest()` of SHA-1 gives: forty lower-case hex digits. */
  predicate IsSha1HexDigest(d: string) {
    |d| == 40 && forall k :: 0 <= k < |d| ==> IsHexDigit(d[k])
  }

  /** With a real SHA-1 hex digest, the short key is eight hex digits. */
  lemma ShortRunKeyShape(runKey: string, sha1Hex: string -> string)
    requires IsSha1HexDigest(sha1Hex(runKey))
    ensures var r := ShortRunKey(runKey, sha1Hex);
            |r| == 8 && forall k :: 0 <= k < 8 ==> IsHexDigit(r[k])
  {
    var d := sha1Hex(runKey);
    var r := ShortRunKey(runKey, sha1Hex);
    forall k | 0 <= k < 8 ensures IsHexDigit(r[k]) {
      assert r[k] == d[k];
    }
  }
}
