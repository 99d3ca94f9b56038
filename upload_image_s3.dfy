/**
 * `POST /api/upload/image-s3`: the same checks as the plain upload route, a name made of the
 * timestamp and the file's extension, the object store first and the server's
 * `public/uploads/products` directory when the store fails.
 */
module UploadImageS3 {
  import opened Wrappers
  import opened Text
  import opened Http
  import opened S3
  import opened UploadImage

  /** What writing the file to the local directory did. */
  datatype Written = Written | WriteFailed(error: string)

  const LocalPrefix := "/uploads/products/"
  const FailedPrefix := "Ошибка загрузки изображения: "

  /** The path without its trailing '/' characters. */
  function DropTrailingSlashes(p: string): (r: string)
    ensures |r| <= |p| && r == p[..|r|]
    ensures r == [] || r[|r| - 1] != '/'
    ensures forall i :: |r| <= i < |p| ==> p[i] == '/'
  {
    if p != [] && p[|p| - 1] == '/' then DropTrailingSlashes(p[..|p| - 1]) else p
  }

  /** The last path component: everything after the last '/'. */
  function AfterLastSlash(p: string): (r: string)
    ensures |r| <= |p| && r == p[|p| - |r|..]
    ensures '/' !in r
    ensures |r| < |p| ==> p[|p| - |r| - 1] == '/'
    ensures '/' !in p ==> r == p
  {
    if p == [] then []
    else if p[|p| - 1] == '/' then []
    else
      var r := AfterLastSlash(p[..|p| - 1]) + [p[|p| - 1]];
      assert p[..|p| - 1][|p| - |r|..] + [p[|p| - 1]] == p[|p| - |r|..];
      r
  }

  /** Where the last '.' of `b` is, if it has one. */
  function LastDot(b: string): (r: Option<nat>)
    ensures r.None? <==> '.' !in b
    ensures r.Some? ==> r.value < |b| && b[r.value] == '.'
    ensures r.Some? ==> forall i :: r.value < i < |b| ==> b[i] != '.'
  {
    if b == [] then None
    else if b[|b| - 1] == '.' then Some(|b| - 1)
    else
      var r := LastDot(b[..|b| - 1]);
      assert b == b[..|b| - 1] + [b[|b| - 1]];
      r
  }

  /**
   * `path.extname` on POSIX paths: from the last '.' of the last component to its end, except
   * for a component with no '.', one whose only '.' comes first, and the component "..".
   */
  function ExtName(path: string): (r: string)
    ensures r == [] || (r[0] == '.' && '/' !in r && '.' !in r[1..])
  {
    var base := AfterLastSlash(DropTrailingSlashes(path));
    match LastDot(base)
    case None => ""
    case Some(d) => if d == 0 || base == ".." then "" else base[d..]
  }

  /** The last '.' of `stem.ext` is the one between the two. */
  lemma LastDotOfFileName(stem: string, ext: string)
    requires '.' !in ext
    ensures LastDot(stem + "." + ext) == Some(|stem|)
  {
    var name := stem + "." + ext;
    assert name[|stem|] == '.';
    var r := LastDot(name);
    assert r.Some?;
    assert r.value >= |stem|;
    assert r.value == |stem|;
  }

  /** A plain file name `stem.ext` whose stem is not empty has the extension `.ext`. */
  lemma ExtNameOfFileName(stem: string, ext: string)
    requires stem != [] && '/' !in stem && '/' !in ext && '.' !in ext
    requires ext == [] ==> stem != "."
    ensures ExtName(stem + "." + ext) == "." + ext
  {
    var name := stem + "." + ext;
    assert name == stem + ("." + ext);
    assert name[|stem|..] == "." + ext;
    assert DropTrailingSlashes(name) == name;
    assert AfterLastSlash(name) == name;
    LastDotOfFileName(stem, ext);
    assert name != ".." by {
      if |name| == 2 {
        assert stem == [name[0]];
      }
    }
  }

  /** A hidden file such as `.png` has no extension. */
  lemma HiddenFileHasNoExtName(rest: string)
    requires '/' !in rest && '.' !in rest
    ensures ExtName("." + rest) == ""
  {
    var name := "." + rest;
    assert DropTrailingSlashes(name) == name;
    assert AfterLastSlash(name) == name;
    var d := LastDot(name).value;
    assert d == 0;
  }

  /** `${timestamp}${ext}`: the stored name keeps only the extension of the original. */
  function TimestampName(now: nat, file: FileInfo): (r: string)
    ensures '/' !in r
    ensures StartsWith(r, NatToString(now))
    ensures |r| == |NatToString(now)| || r[|NatToString(now)|] == '.'
  {
    var digits := NatToString(now);
    var ext := ExtName(file.name);
    DigitsHaveNoSlash(now);
    assert (digits + ext)[..|digits|] == digits;
    digits + ext
  }

  /**
   * The handler: `now` is the route's clock reading, `keyTime` the store helper's, `sent` what
   * the store did and `written` what writing the local copy did.
   */
  function Post(file: Option<FileInfo>, config: Config, now: nat, keyTime: nat, sent: Sent, written: Written)
    : (r: Response<Uploaded>)
    ensures Rejection(file).Some? ==> r == Err(400, Rejection(file).value)
    ensures r.Ok? <==> Rejection(file).None? && (sent.Sent? || written.Written?)
    ensures r.Ok? ==> r.status == 200 && r.value.success && r.value.message == UploadSucceeded
    ensures r.Ok? && sent.Sent? ==> r.value.imageUrl == UploadToS3(config, TimestampName(now, file.value), keyTime, sent).url
    ensures r.Ok? && sent.SendFailed? ==> r.value.imageUrl == LocalPrefix + TimestampName(now, file.value)
    ensures r.Err? && Rejection(file).None? ==> r == Err(500, FailedPrefix + written.error)
  {
    match Rejection(file)
    case Some(message) => Err(400, message)
    case None =>
      var fileName := TimestampName(now, file.value);
      match UploadToS3(config, fileName, keyTime, sent)
      case Returned(url) => Ok(200, Uploaded(true, url, UploadSucceeded))
      case Threw(_) =>
        match written
        case Written => Ok(200, Uploaded(true, LocalPrefix + fileName, UploadSucceeded))
        case WriteFailed(error) => Err(500, FailedPrefix + error)
  }

  /** An image the store accepted can be deleted again by its URL, whatever the original name. */
  lemma StoredImageDeletable(file: FileInfo, config: Config, now: nat, keyTime: nat, written: Written)
    requires Rejection(Some(file)).None?
    ensures Post(Some(file), config, now, keyTime, Sent, written).Ok?
    ensures KeyFromUrl(Post(Some(file), config, now, keyTime, Sent, written).value.imageUrl)
            == ObjectKey(keyTime, TimestampName(now, file))
  {
    KeyRoundTrip(config, TimestampName(now, file), keyTime);
  }

  /** The last component of `a/b` is `b` when `b` holds no '/'. */
  lemma {:induction false} AfterSlash(a: string, b: string)
    requires '/' !in b
    ensures AfterLastSlash(a + ['/'] + b) == b
  {
    var p := a + ['/'] + b;
    if b != [] {
      var init := b[..|b| - 1];
      assert p[..|p| - 1] == a + ['/'] + init;
      AfterSlash(a, init);
      assert b == init + [b[|b| - 1]];
    }
  }

  /** The local fallback's URL ends in the stored name, as its last path component. */
  lemma LocalUrlNamesFile(file: FileInfo, config: Config, now: nat, keyTime: nat, error: string)
    requires Rejection(Some(file)).None?
    ensures Post(Some(file), config, now, keyTime, SendFailed(error), Written).Ok?
    ensures AfterLastSlash(Post(Some(file), config, now, keyTime, SendFailed(error), Written).value.imageUrl)
            == TimestampName(now, file)
  {
    var name := TimestampName(now, file);
    assert Post(Some(file), config, now, keyTime, SendFailed(error), Written).value.imageUrl == LocalPrefix + name;
    LocalUrlLastComponent(name);
  }

  lemma LocalUrlLastComponent(name: string)
    requires '/' !in name
    ensures AfterLastSlash(LocalPrefix + name) == name
  {
    assert LocalPrefix + name == "/uploads/products" + ['/'] + name;
    AfterSlash("/uploads/products", name);
  }
}
