/** Object keys and `s3://bucket/key` URIs: how bytes are addressed in the object store. */
module ObjectKeys {

  type Bytes = seq<bv8>

  datatype Result<+T> = Ok(value: T) | Err(error: Error)
  datatype Error = NotAnS3Uri | MalformedUri | NoSuchKey

  // ----- file names ---------------------------------------------------------------------

  /** The longest suffix without a slash. */
  function LastSegment(path: string): (tail: string)
    ensures |tail| <= |path| && path[|path| - |tail|..] == tail && '/' !in tail
    ensures |tail| < |path| ==> path[|path| - |tail| - 1] == '/'
  {
    if path == "" || path[|path| - 1] == '/' then ""
    else LastSegment(path[..|path| - 1]) + [path[|path| - 1]]
  }

  /** `Path(filename).name`: the last component that is neither empty nor a single dot. */
  function BaseName(filename: string): (name: string)
    ensures '/' !in name && name != "."
  {
    var tail := LastSegment(filename);
    if tail != "" && tail != "." then tail
    else if |tail| == |filename| then ""
    else BaseName(filename[..|filename| - |tail| - 1])
  }

  const DEFAULT_NAME := "document.bin"

  function OrDefault(name: string): (r: string)
    requires '/' !in name
    ensures r != "" && '/' !in r
  {
    if name == "" then DEFAULT_NAME else name
  }

  function SafeName(filename: string): (name: string)
    ensures name != "" && '/' !in name
  {
    OrDefault(BaseName(filename))
  }

  /** The slash-free end of a path is its last segment. */
  lemma {:induction false} LastSegmentAfter(dir: string, name: string)
    requires '/' !in name
    ensures LastSegment(name) == name && LastSegment(dir + "/" + name) == name
  {
    var path := dir + "/" + name;
    if name == "" {
      assert path[|path| - 1] == '/';
    } else {
      var last := |name| - 1;
      assert name[last] in name && path[|path| - 1] == name[last];
      assert path[..|path| - 1] == dir + "/" + name[..last];
      LastSegmentAfter(dir, name[..last]);
    }
  }

  /** A name is found behind any directories. */
  lemma BaseNameBehind(dir: string, name: string)
    requires '/' !in name && name != "" && name != "."
    ensures BaseName(name) == name && BaseName(dir + "/" + name) == name && SafeName(dir + "/" + name) == name
  {
    LastSegmentAfter(dir, name);
    hide LastSegment;
  }

  /** Slashes and single dots at the end do not count. */
  lemma BaseNameBefore(dir: string, tail: string)
    requires tail == "" || tail == "."
    ensures BaseName(dir + "/" + tail) == BaseName(dir)
  {
    LastSegmentAfter(dir, tail);
    hide LastSegment;
    assert (dir + "/" + tail)[..|dir|] == dir;
  }

  /** Where there is nothing else, the object is called `document.bin`. */
  lemma NoBaseName(tail: string)
    requires tail == "" || tail == "."
    ensures BaseName(tail) == "" && SafeName(tail) == "document.bin"
  {
    LastSegmentOfSlashFree(tail);
    hide LastSegment;
  }

  function KeyFor(documentId: string, filename: string): string {
    documentId + "/" + SafeName(filename)
  }

  lemma FirstSlashSplits(a: string, x: string, b: string, y: string)
    requires a + "/" + x == b + "/" + y && '/' !in a && '/' !in b
    ensures a == b && x == y
  {
    assert a + "/" + x == a + ("/" + x) && b + "/" + y == b + ("/" + y);
    UntilSplits(a, "/" + x, {'/'});
    UntilSplits(b, "/" + y, {'/'});
    assert Until("/" + x, {'/'}) == "" && Until("/" + y, {'/'}) == "";
    assert a + "" == a && b + "" == b;
    assert (a + "/" + x)[|a| + 1..] == x && (b + "/" + y)[|b| + 1..] == y;
  }

  /** Two documents, or two base names of one document, never share a key. */
  lemma KeysAreIsolated(d: string, f: string, e: string, g: string)
    requires '/' !in d && '/' !in e
    ensures KeyFor(d, f) == KeyFor(e, g) <==> d == e && SafeName(f) == SafeName(g)
  {
    if KeyFor(d, f) == KeyFor(e, g) {
      FirstSlashSplits(d, SafeName(f), e, SafeName(g));
    }
  }

  // ----- URI syntax (sections 3.1 to 3.5 of RFC 3986, as urlparse applies them) ---------

  function Until(s: string, stops: set<char>): (r: string)
    ensures r <= s && (forall ch :: ch in r ==> ch !in stops)
    ensures |r| < |s| ==> s[|r|] in stops
  {
    if s == "" || s[0] in stops then "" else [s[0]] + Until(s[1..], stops)
  }

  /** urlparse deletes these three characters wherever they occur. */
  const UNSAFE: set<char> := {'\t', '\r', '\n'}

  function RemoveUnsafe(s: string): (r: string)
    ensures |r| <= |s|
    ensures |r| == |s| <==> (forall ch :: ch in s ==> ch !in UNSAFE)
    ensures |r| == |s| ==> r == s
    ensures forall ch :: ch in r ==> ch in s
  {
    if s == "" then ""
    else if s[0] in UNSAFE then RemoveUnsafe(s[1..])
    else [s[0]] + RemoveUnsafe(s[1..])
  }

  /** Leading control characters and blanks are dropped too. */
  function StripLeading(s: string): string {
    if s != "" && s[0] <= ' ' then StripLeading(s[1..]) else s
  }

  function StripSlashes(s: string): string {
    if s != "" && s[0] == '/' then StripSlashes(s[1..]) else s
  }

  predicate IsLetter(ch: char) {
    'a' <= ch <= 'z' || 'A' <= ch <= 'Z'
  }

  predicate IsSchemeChar(ch: char) {
    IsLetter(ch) || '0' <= ch <= '9' || ch in {'+', '-', '.'}
  }

  function Lower(s: string): string {
    if s == "" then ""
    else [if 'A' <= s[0] <= 'Z' then ((s[0] as int) + 32) as char else s[0]] + Lower(s[1..])
  }

  /** The URL split into lower-cased scheme and the rest. */
  function SplitScheme(url: string): (string, string) {
    var head := Until(url, {':'});
    if 0 < |head| < |url| && IsLetter(url[0]) && (forall ch :: ch in head ==> IsSchemeChar(ch))
    then (Lower(head), url[|head| + 1..])
    else ("", url)
  }

  /** Authority and path, with query and fragment cut off. */
  function SplitAuthority(rest: string): (string, string) {
    if |rest| >= 2 && rest[..2] == "//" then
      var netloc := Until(rest[2..], {'/', '?', '#'});
      (netloc, Until(Until(rest[2 + |netloc|..], {'#'}), {'?'}))
    else ("", Until(Until(rest, {'#'}), {'?'}))
  }

  function ParseUri(uri: string): Result<(string, string)> {
    var (scheme, rest) := SplitScheme(RemoveUnsafe(StripLeading(uri)));
    if scheme != "s3" then Err(NotAnS3Uri) else
    var (bucket, path) := SplitAuthority(rest);
    var key := StripSlashes(path);
    if bucket == "" || key == "" then Err(MalformedUri) else Ok((bucket, key))
  }

  function UriOf(bucket: string, key: string): string {
    "s3://" + bucket + "/" + key
  }

  // ----- what a bucket and a document id look like ---------------------------------------

  predicate IsBucketName(s: string) {
    s != "" && forall ch :: ch in s ==> 'a' <= ch <= 'z' || '0' <= ch <= '9' || ch == '.' || ch == '-'
  }

  /** The characters of a rendered UUID (section 4 of RFC 9562). */
  predicate IsUuidText(s: string) {
    s != "" && forall ch :: ch in s ==> 'a' <= ch <= 'f' || '0' <= ch <= '9' || ch == '-'
  }

  /** Base names urlparse leaves alone. */
  predicate IsCleanName(name: string) {
    forall ch :: ch in name ==> ch !in UNSAFE && ch != '?' && ch != '#'
  }

  lemma CleanNamesAre(name: string)
    ensures IsCleanName(name) <==> forall ch :: ch in name ==> ch !in "?#\t\r\n"
  {
  }

  lemma {:induction false} UntilSplits(a: string, b: string, stops: set<char>)
    requires forall ch :: ch in a ==> ch !in stops
    ensures Until(a + b, stops) == a + Until(b, stops)
  {
    if a == "" {
      assert a + b == b;
    } else {
      assert (a + b)[1..] == a[1..] + b;
      UntilSplits(a[1..], b, stops);
    }
  }

  lemma {:induction false} RemoveUnsafeSplits(a: string, b: string)
    ensures RemoveUnsafe(a + b) == RemoveUnsafe(a) + RemoveUnsafe(b)
  {
    if a == "" {
      assert a + b == b;
    } else {
      assert (a + b)[1..] == a[1..] + b;
      RemoveUnsafeSplits(a[1..], b);
      if a[0] !in UNSAFE {
        assert [a[0]] + (RemoveUnsafe(a[1..]) + RemoveUnsafe(b)) == RemoveUnsafe(a) + RemoveUnsafe(b);
      }
    }
  }

  /** What urlparse leaves of a base name. */
  function Survives(name: string): (r: string)
    ensures r == name <==> IsCleanName(name)
  {
    var r := Until(Until(RemoveUnsafe(name), {'#'}), {'?'});
    assert r == name ==> |r| <= |RemoveUnsafe(name)| <= |name|;
    assert IsCleanName(name) ==> |RemoveUnsafe(name)| == |name|;
    assert |Until(name, {'#'})| < |name| ==> '#' in name;
    assert |Until(name, {'?'})| < |name| ==> '?' in name;
    r
  }

  lemma SplitSchemeOf(tail: string)
    ensures StripLeading("s3:" + tail) == "s3:" + tail
    ensures SplitScheme("s3:" + tail) == ("s3", tail)
  {
    var uri := "s3:" + tail;
    assert uri[0] == 's';
    UntilSplits("s3", ":" + tail, {':'});
    assert uri == "s3" + (":" + tail);
    assert Until(uri, {':'}) == "s3";
    assert Lower("s3") == "s3" by {
      assert "s3"[1..] == "3" && "3"[1..] == "";
    }
    assert uri[3..] == tail;
  }

  /** Everything of a saved URI between the scheme and the base name. */
  function Head(bucket: string, id: string): string {
    "//" + bucket + "/" + id + "/"
  }

  lemma HeadIsClean(bucket: string, id: string)
    requires IsBucketName(bucket) && IsUuidText(id)
    ensures forall ch :: ch in Head(bucket, id) ==> ch !in UNSAFE
  {
  }

  lemma UriHasHead(bucket: string, id: string, name: string)
    ensures UriOf(bucket, id + "/" + name) == "s3:" + (Head(bucket, id) + name)
  {
  }

  lemma PathOf(id: string, name: string)
    requires IsUuidText(id)
    ensures Until(Until("/" + id + "/" + name, {'#'}), {'?'}) == "/" + id + "/" + Until(Until(name, {'#'}), {'?'})
  {
    UntilSplits("/" + id + "/", name, {'#'});
    UntilSplits("/" + id + "/", Until(name, {'#'}), {'?'});
  }

  lemma UntilAtOnce(s: string, stops: set<char>)
    requires s != "" && s[0] in stops
    ensures Until(s, stops) == ""
  {
  }

  lemma SplitAuthorityOf(bucket: string, id: string, name: string)
    requires IsBucketName(bucket) && IsUuidText(id)
    ensures SplitAuthority(Head(bucket, id) + name) == (bucket, "/" + id + "/" + Until(Until(name, {'#'}), {'?'}))
  {
    hide Until, Head, SplitAuthority;
    var path := "/" + id + "/" + name;
    HeadShape(bucket, id, name);
    UntilSplits(bucket, path, {'/', '?', '#'});
    UntilAtOnce(path, {'/', '?', '#'});
    assert bucket + "" == bucket;
    SplitAfterAuthority(bucket, path);
    PathOf(id, name);
  }

  lemma HeadShape(bucket: string, id: string, name: string)
    ensures Head(bucket, id) + name == "//" + (bucket + ("/" + id + "/" + name))
  {
  }

  lemma SplitAfterAuthority(bucket: string, path: string)
    requires Until(bucket + path, {'/', '?', '#'}) == bucket
    ensures SplitAuthority("//" + (bucket + path)) == (bucket, Until(Until(path, {'#'}), {'?'}))
  {
    hide Until;
    var rest := "//" + (bucket + path);
    assert rest[..2] == "//" && rest[2..] == bucket + path && rest[2 + |bucket|..] == path;
  }

  lemma RemoveUnsafeOf(prefix: string, name: string)
    requires forall ch :: ch in prefix ==> ch !in UNSAFE
    ensures RemoveUnsafe(prefix + name) == prefix + RemoveUnsafe(name)
  {
    RemoveUnsafeSplits(prefix, name);
    assert |RemoveUnsafe(prefix)| == |prefix|;
  }

  /** urlparse's cleaning reaches only the base name. */
  lemma CleanedUri(bucket: string, id: string, name: string)
    requires IsBucketName(bucket) && IsUuidText(id)
    ensures RemoveUnsafe(StripLeading(UriOf(bucket, id + "/" + name)))
         == "s3:" + (Head(bucket, id) + RemoveUnsafe(name))
  {
    UriHasHead(bucket, id, name);
    SplitSchemeOf(Head(bucket, id) + name);
    HeadIsClean(bucket, id);
    RemoveUnsafeOf("s3:", Head(bucket, id) + name);
    RemoveUnsafeOf(Head(bucket, id), name);
  }

  lemma StripOneSlash(id: string, name: string)
    requires IsUuidText(id)
    ensures StripSlashes("/" + id + "/" + name) == id + "/" + name
  {
    var path := "/" + id + "/" + name;
    assert path[0] == '/' && path[1..] == id + "/" + name;
    assert (id + "/" + name)[0] == id[0] && id[0] in id;
  }

  /** What `parse_uri` makes of a saved URI, for every base name. */
  lemma ParseSavedUri(bucket: string, id: string, name: string)
    requires IsBucketName(bucket) && IsUuidText(id)
    ensures ParseUri(UriOf(bucket, id + "/" + name)) == Ok((bucket, id + "/" + Survives(name)))
  {
    CleanedUri(bucket, id, name);
    SplitSchemeOf(Head(bucket, id) + RemoveUnsafe(name));
    SplitAuthorityOf(bucket, id, RemoveUnsafe(name));
    StripOneSlash(id, Survives(name));
  }

  /** The round trip holds for exactly the base names without `?`, `#`, tab or line breaks. */
  lemma UriRoundTrip(bucket: string, id: string, filename: string)
    requires IsBucketName(bucket) && IsUuidText(id)
    ensures ParseUri(UriOf(bucket, KeyFor(id, filename))) == Ok((bucket, KeyFor(id, filename)))
       <==> IsCleanName(SafeName(filename))
  {
    var name := SafeName(filename);
    ParseSavedUri(bucket, id, name);
    var prefix := id + "/";
    assert (prefix + Survives(name))[|prefix|..] == Survives(name) && (prefix + name)[|prefix|..] == name;
  }

  lemma {:induction false} LowerLeaves(s: string)
    requires forall ch :: ch in s ==> 'a' <= ch <= 'z' || '0' <= ch <= '9'
    ensures Lower(s) == s
  {
    if s != "" {
      assert s[0] in s && forall ch :: ch in s[1..] ==> ch in s;
      LowerLeaves(s[1..]);
    }
  }

  /** A URI of any other scheme is refused. */
  lemma OtherSchemesAreRefused(scheme: string, rest: string)
    requires scheme != "" && scheme != "s3" && 'a' <= scheme[0] <= 'z'
    requires forall ch :: ch in scheme ==> 'a' <= ch <= 'z' || '0' <= ch <= '9'
    ensures ParseUri(scheme + ":" + rest) == Err(NotAnS3Uri)
  {
    hide Until, RemoveUnsafe, Lower, StripSlashes, SplitAuthority;
    var url := scheme + ":" + RemoveUnsafe(rest);
    RemoveUnsafeOf(scheme + ":", rest);
    UntilSplits(scheme, ":" + RemoveUnsafe(rest), {':'});
    UntilAtOnce(":" + RemoveUnsafe(rest), {':'});
    assert url == scheme + (":" + RemoveUnsafe(rest)) && scheme + "" == scheme;
    assert Until(url, {':'}) == scheme;
    LowerLeaves(scheme);
    assert SplitScheme(url).0 == scheme;
  }

  /** An authority without a path that goes on behind its slashes, or a path without an authority. */
  lemma PartsMissing(bucket: string, path: string)
    requires bucket == "" || IsBucketName(bucket)
    requires bucket == "" || StripSlashes(Until(Until(RemoveUnsafe(path), {'#'}), {'?'})) == ""
    requires path == "" || path[0] == '/'
    ensures ParseUri("s3:" + ("//" + bucket + path)) == Err(MalformedUri)
  {
    hide StripSlashes, ParseUri, Until, RemoveUnsafe, SplitAuthority, SplitScheme, StripLeading, IsBucketName;
    var rest := RemoveUnsafe(path);
    BucketIsSafe(bucket);
    CleanedParts("//" + bucket, path);
    RestStarts(path);
    AuthorityOf(bucket, rest);
    SplitSchemeOf("//" + bucket + rest);
    ParsedByParts("s3:" + ("//" + bucket + path), "//" + bucket + rest, bucket, Until(Until(rest, {'#'}), {'?'}));
  }

  lemma BucketIsSafe(bucket: string)
    requires bucket == "" || IsBucketName(bucket)
    ensures forall ch :: ch in "//" + bucket ==> ch !in UNSAFE
    ensures forall ch :: ch in bucket ==> ch !in {'/', '?', '#'}
  {
  }

  lemma RestStarts(path: string)
    requires path == "" || path[0] == '/'
    ensures RemoveUnsafe(path) == "" || RemoveUnsafe(path)[0] == '/'
  {
  }

  lemma CleanedParts(prefix: string, path: string)
    requires forall ch :: ch in prefix ==> ch !in UNSAFE
    ensures RemoveUnsafe(StripLeading("s3:" + (prefix + path))) == "s3:" + (prefix + RemoveUnsafe(path))
  {
    SplitSchemeOf(prefix + path);
    hide StripLeading;
    RemoveUnsafeOf("s3:", prefix + path);
    RemoveUnsafeOf(prefix, path);
  }

  lemma AuthorityOf(bucket: string, rest: string)
    requires forall ch :: ch in bucket ==> ch !in {'/', '?', '#'}
    requires rest == "" || rest[0] == '/'
    ensures SplitAuthority("//" + bucket + rest) == (bucket, Until(Until(rest, {'#'}), {'?'}))
  {
    hide Until, SplitAuthority;
    UntilSplits(bucket, rest, {'/', '?', '#'});
    if rest != "" {
      UntilAtOnce(rest, {'/', '?', '#'});
    }
    assert bucket + "" == bucket;
    SplitAfterAuthority(bucket, rest);
    assert "//" + bucket + rest == "//" + (bucket + rest);
  }

  lemma ParsedByParts(uri: string, rest: string, bucket: string, path: string)
    requires RemoveUnsafe(StripLeading(uri)) == "s3:" + rest && SplitScheme("s3:" + rest) == ("s3", rest)
    requires SplitAuthority(rest) == (bucket, path)
    ensures ParseUri(uri) == if bucket == "" || StripSlashes(path) == "" then Err(MalformedUri)
                             else Ok((bucket, StripSlashes(path)))
  {
    hide RemoveUnsafe, StripLeading, SplitScheme, SplitAuthority, StripSlashes;
  }

  lemma SlashAlone()
    ensures StripSlashes(Until(Until(RemoveUnsafe(""), {'#'}), {'?'})) == ""
    ensures StripSlashes(Until(Until(RemoveUnsafe("/"), {'#'}), {'?'})) == ""
  {
    assert "/"[1..] == "";
    assert RemoveUnsafe("/") == "/" && Until("/", {'#'}) == "/" && Until("/", {'?'}) == "/";
  }

  /** A URI without a bucket, or without a key, is malformed. */
  lemma BucketAndKeyAreNeeded(bucket: string, key: string)
    requires IsBucketName(bucket)
    ensures ParseUri("s3:///" + key) == Err(MalformedUri)
    ensures ParseUri("s3://" + bucket) == Err(MalformedUri)
    ensures ParseUri("s3://" + bucket + "/") == Err(MalformedUri)
  {
    hide ParseUri, RemoveUnsafe, Until, StripSlashes, IsBucketName;
    SlashAlone();
    PartsMissing("", "/" + key);
    PartsMissing(bucket, "");
    PartsMissing(bucket, "/");
    assert "s3:" + ("//" + "" + ("/" + key)) == "s3:///" + key;
    assert "s3:" + ("//" + bucket + "") == "s3://" + bucket;
    assert "s3:" + ("//" + bucket + "/") == "s3://" + bucket + "/";
  }

  /** A file name for which a saved object cannot be read back. */
  lemma QuestionMarkBreaksTheRoundTrip()
    ensures ParseUri(UriOf("docstream", KeyFor("0a", "q?.txt"))) != Ok(("docstream", KeyFor("0a", "q?.txt")))
  {
    assert LastSegment("q?.txt") == "q?.txt" by {
      LastSegmentOfSlashFree("q?.txt");
    }
    assert SafeName("q?.txt") == "q?.txt";
    assert "q?.txt"[1] == '?' && '?' in "q?.txt";
    assert !IsCleanName("q?.txt");
    UriRoundTrip("docstream", "0a", "q?.txt");
  }

  lemma {:induction false} LastSegmentOfSlashFree(s: string)
    requires '/' !in s
    ensures LastSegment(s) == s
  {
    if s != "" {
      assert s[|s| - 1] in s;
      LastSegmentOfSlashFree(s[..|s| - 1]);
    }
  }

  // ----- the store ------------------------------------------------------------------------

  type Objects = map<(string, string), Bytes>

  function Lookup(objects: Objects, address: (string, string)): Result<Bytes> {
    if address in objects then Ok(objects[address]) else Err(NoSuchKey)
  }

  function ReadFrom(objects: Objects, uri: string): Result<Bytes> {
    match ParseUri(uri)
    case Err(e) => Err(e)
    case Ok(address) => Lookup(objects, address)
  }

  datatype Saved = Saved(documentId: string, filename: string, data: Bytes)

  /** The store after a run of saves. */
  function AfterSaves(objects: Objects, bucket: string, saves: seq<Saved>): Objects {
    if saves == [] then objects
    else
      var last := saves[|saves| - 1];
      AfterSaves(objects, bucket, saves[..|saves| - 1])[(bucket, KeyFor(last.documentId, last.filename)) := last.data]
  }

  lemma {:induction false} SavesElsewhere(objects: Objects, bucket: string, later: seq<Saved>, key: string)
    requires (bucket, key) in objects
    requires forall s :: s in later ==> KeyFor(s.documentId, s.filename) != key
    ensures (bucket, key) in AfterSaves(objects, bucket, later)
    ensures AfterSaves(objects, bucket, later)[(bucket, key)] == objects[(bucket, key)]
  {
    if later != [] {
      assert later[|later| - 1] in later;
      SavesElsewhere(objects, bucket, later[..|later| - 1], key);
    }
  }

  /** Saved bytes are read back unchanged however many saves to other documents or other base
      names follow. */
  lemma SavedBytesSurvive(objects: Objects, bucket: string, first: Saved, later: seq<Saved>)
    requires IsBucketName(bucket) && IsUuidText(first.documentId) && IsCleanName(SafeName(first.filename))
    requires forall s :: s in later ==>
               (IsUuidText(s.documentId)
                && (s.documentId != first.documentId || SafeName(s.filename) != SafeName(first.filename)))
    ensures ReadFrom(AfterSaves(AfterSaves(objects, bucket, [first]), bucket, later),
                     UriOf(bucket, KeyFor(first.documentId, first.filename)))
         == Ok(first.data)
  {
    var key := KeyFor(first.documentId, first.filename);
    assert [first][..0] == [];
    forall s | s in later
      ensures KeyFor(s.documentId, s.filename) != key
    {
      KeysAreIsolated(first.documentId, first.filename, s.documentId, s.filename);
    }
    SavesElsewhere(AfterSaves(objects, bucket, [first]), bucket, later, key);
    UriRoundTrip(bucket, first.documentId, first.filename);
  }

  lemma SaveIsOne(objects: Objects, bucket: string, saved: Saved)
    ensures AfterSaves(objects, bucket, [saved])
         == objects[(bucket, KeyFor(saved.documentId, saved.filename)) := saved.data]
  {
    hide SafeName;
    assert [saved][..0] == [];
  }

  /** Where the reader of a saved URI looks. */
  lemma SavedReads(objects: Objects, bucket: string, id: string, name: string, data: Bytes)
    requires IsBucketName(bucket) && IsUuidText(id)
    ensures ReadFrom(objects[(bucket, id + "/" + name) := data], UriOf(bucket, id + "/" + name)) ==
              if IsCleanName(name) then Ok(data) else Lookup(objects, (bucket, id + "/" + Survives(name)))
  {
    hide ParseUri, UriOf;
    ParseSavedUri(bucket, id, name);
    SamePrefixKeys(id + "/", name, Survives(name));
    assert Survives(name) == name <==> IsCleanName(name);
    hide Survives, IsCleanName;
  }

  lemma SamePrefixKeys(prefix: string, a: string, b: string)
    ensures prefix + a == prefix + b <==> a == b
  {
    assert (prefix + a)[|prefix|..] == a && (prefix + b)[|prefix|..] == b;
  }

  class S3Storage {
    const bucket: string
    var objects: Objects

    constructor (bucket: string)
      ensures this.bucket == bucket && objects == map[]
    {
      this.bucket := bucket;
      objects := map[];
    }

    /** Nothing else in the bucket changes.  A clean base name is read back under the returned URI; any
        other name sends the reader to the key `urlparse` leaves of it, which this save did not write. */
    method SaveSync(documentId: string, filename: string, data: Bytes) returns (uri: string)
      modifies this
      ensures objects == AfterSaves(old(objects), bucket, [Saved(documentId, filename, data)])
      ensures forall k :: k != (bucket, KeyFor(documentId, filename)) ==>
                && (k in objects <==> k in old(objects))
                && (k in objects ==> objects[k] == old(objects)[k])
      ensures IsBucketName(bucket) && IsUuidText(documentId) ==>
                ReadFrom(objects, uri) ==
                  if IsCleanName(SafeName(filename)) then Ok(data)
                  else Lookup(old(objects), (bucket, documentId + "/" + Survives(SafeName(filename))))
    {
      var key := KeyFor(documentId, filename);
      hide ParseUri, SafeName, UriOf, Survives, IsCleanName, ReadFrom;
      SaveIsOne(objects, bucket, Saved(documentId, filename, data));
      if IsBucketName(bucket) && IsUuidText(documentId) {
        SavedReads(objects, bucket, documentId, SafeName(filename), data);
      }
      objects := objects[(bucket, key) := data];
      uri := UriOf(bucket, key);
    }

    method ReadSync(uri: string) returns (r: Result<Bytes>)
      ensures r == ReadFrom(objects, uri)
    {
      match ParseUri(uri)
      case Err(e) => r := Err(e);
      case Ok(address) =>
        if address in objects {
          r := Ok(objects[address]);
        } else {
          r := Err(NoSuchKey);
        }
    }
  }
}
