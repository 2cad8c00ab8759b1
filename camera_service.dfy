/** The pure part of the camera service (services/CameraService.ts): photo quality rules and compression. */
module Camera {
  import opened Options

  /** A captured photo; `base64` is the optional inline encoding of its bytes. */
  datatype PhotoData = PhotoData(uri: string, width: int, height: int, base64: Option<string>, timestamp: int)

  /** The result of `validatePhotoQuality`. */
  datatype Quality = Quality(isValid: bool, issues: seq<string>)

  const ResolutionTooLow := "Photo resolution too low"
  const FileTooLarge := "Photo file size too large"

  /** The minimum accepted dimensions, in pixels. */
  const MinWidth := 640
  const MinHeight := 480

  /**
   * The size rule in exact integers: 3/4 of the base64 length, in units of 2^20 bytes, exceeds 5.
   * Every divisor in the source's floating-point expression is a power of two, so it computes this exactly.
   */
  predicate Oversized(base64: Option<string>)
  {
    base64.Some? && |base64.value| > 0 && 3 * |base64.value| > 20971520
  }

  /** `validatePhotoQuality`: issues are pushed in a fixed order, resolution first, then size. */
  method ValidatePhotoQuality(photo: PhotoData) returns (q: Quality)
    ensures ResolutionTooLow in q.issues <==> photo.width < MinWidth || photo.height < MinHeight
    ensures FileTooLarge in q.issues <==> Oversized(photo.base64)
    ensures forall m :: m in q.issues ==> m == ResolutionTooLow || m == FileTooLarge
    ensures forall i, j :: 0 <= i < j < |q.issues| ==> q.issues[i] == ResolutionTooLow && q.issues[j] == FileTooLarge
    ensures |q.issues| <= 2
    ensures q.isValid <==> q.issues == []
  {
    var issues: seq<string> := [];
    if photo.width < MinWidth || photo.height < MinHeight {
      issues := issues + [ResolutionTooLow];
    }
    if photo.base64.Some? && photo.base64.value != "" {
      var sizeInBytes: real := (|photo.base64.value| as real * 3.0) / 4.0;
      var sizeInMB: real := sizeInBytes / (1024.0 * 1024.0);
      if sizeInMB > 5.0 {
        issues := issues + [FileTooLarge];
      }
    }
    q := Quality(|issues| == 0, issues);
  }

  /** `compressPhoto`: no compression is done; the photo comes back as it went in. */
  function CompressPhoto(photo: PhotoData): (r: PhotoData)
    ensures r == photo
  {
    photo
  }
}
