/**
 * `POST /api/upload/image`: checks the uploaded file (present, an allowed image type, at most
 * 5 MB) and stores it in the object store under a timestamped name.
 */
module UploadImage {
  import opened Wrappers
  import opened Text
  import opened Http
  import opened S3

  /** The `file` form field: its name, MIME type and size in bytes. */
  datatype FileInfo = FileInfo(name: string, mimeType: string, size: nat)

  /** The JSON body of a successful upload. */
  datatype Uploaded = Uploaded(success: bool, imageUrl: string, message: string)

  const AllowedTypes: seq<string> := ["image/jpeg", "image/jpg", "image/png", "image/webp", "image/avif"]
  const MaxSize: nat := 5 * 1024 * 1024

  const FileMissing := "Файл не найден"
  const TypeRejected := "Неподдерживаемый тип файла. Разрешены: JPEG, PNG, WebP, AVIF"
  const TooLarge := "Файл слишком большой. Максимальный размер: 5MB"
  const UploadSucceeded := "Изображение успешно загружено"
  const UploadFailed := "Ошибка загрузки изображения"

  /** The checks, in the handler's order; the first that fails gives the 400 message. */
  function Rejection(file: Option<FileInfo>): (r: Option<string>)
    ensures r.None? <==> file.Some? && file.value.mimeType in AllowedTypes && file.value.size <= MaxSize
    ensures file.None? ==> r == Some(FileMissing)
    ensures file.Some? && file.value.mimeType !in AllowedTypes ==> r == Some(TypeRejected)
    ensures file.Some? && file.value.mimeType in AllowedTypes && file.value.size > MaxSize ==> r == Some(TooLarge)
  {
    match file
    case None => Some(FileMissing)
    case Some(f) =>
      if f.mimeType !in AllowedTypes then Some(TypeRejected)
      else if f.size > MaxSize then Some(TooLarge)
      else None
  }

  /** `${Date.now()}-${file.name}`. */
  function StoredName(now: nat, file: FileInfo): (name: string)
    ensures Split(name, '-')[0] == NatToString(now)
    ensures |name| > |file.name| && name[|name| - |file.name|..] == file.name
  {
    var stamp := NatToString(now);
    assert '-' !in stamp by { assert forall i :: 0 <= i < |stamp| ==> IsDigit(stamp[i]); }
    assert stamp + "-" + file.name == stamp + ['-'] + file.name;
    SplitAtSeparator(stamp, file.name, '-');
    SplitNoSeparator(stamp, '-');
    stamp + "-" + file.name
  }

  /**
   * The handler: `now` is the route's clock reading, `keyTime` the store helper's own, and
   * `sent` what the store did. A store failure is reported with a fixed 500 message.
   */
  function Post(file: Option<FileInfo>, config: Config, now: nat, keyTime: nat, sent: Sent)
    : (r: Response<Uploaded>)
    ensures r.Ok? <==> Rejection(file).None? && sent.Sent?
    ensures Rejection(file).Some? ==> r == Err(400, Rejection(file).value)
    ensures Rejection(file).None? && sent.SendFailed? ==> r == Err(500, UploadFailed)
    ensures r.Ok? ==> r.status == 200 && r.value.success && r.value.message == UploadSucceeded
    ensures r.Ok? ==> r.value.imageUrl == UploadToS3(config, StoredName(now, file.value), keyTime, sent).url
  {
    match Rejection(file)
    case Some(message) => Err(400, message)
    case None =>
      match UploadToS3(config, StoredName(now, file.value), keyTime, sent)
      case Returned(url) => Ok(200, Uploaded(true, url, UploadSucceeded))
      case Threw(_) => Err(500, UploadFailed)
  }

  /** The size limit is inclusive: a file of exactly 5 MB is accepted, one byte more is not. */
  lemma SizeLimitInclusive(name: string, mimeType: string)
    requires mimeType in AllowedTypes
    ensures Rejection(Some(FileInfo(name, mimeType, 5 * 1024 * 1024))).None?
    ensures Rejection(Some(FileInfo(name, mimeType, 5 * 1024 * 1024 + 1))) == Some(TooLarge)
  {
  }

  /**
   * An uploaded image can be deleted again: when the original name holds no '/', the key the
   * delete helper reads from the returned URL is the key the upload stored.
   */
  lemma UploadedImageDeletable(file: FileInfo, config: Config, now: nat, keyTime: nat)
    requires file.mimeType in AllowedTypes && file.size <= MaxSize && '/' !in file.name
    ensures Post(Some(file), config, now, keyTime, Sent).Ok?
    ensures KeyFromUrl(Post(Some(file), config, now, keyTime, Sent).value.imageUrl)
            == ObjectKey(keyTime, StoredName(now, file))
  {
    NameHasNoSlash(now, file.name);
    KeyRoundTrip(config, StoredName(now, file), keyTime);
  }
}
