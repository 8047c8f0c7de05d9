/** The pure helpers of src/utils/imageUtils.ts: the upload check and the
    mock image URL. */
module ImageUtils {
  import opened Types
  import opened Strings

  /** 10 MB, in bytes. */
  const MaxFileSize: nat := 10 * 1024 * 1024
  const SupportedTypes: seq<string> := ["image/png", "image/jpeg", "image/jpg"]

  const NotAnImageError := "Please select a valid image file (PNG or JPG)"
  const UnsupportedTypeError := "Only PNG and JPG files are supported"
  const TooLargeError := "File size must be under 10MB"

  /** `{ valid: boolean; error?: string }`. */
  datatype Validation = Validation(valid: bool, error: Option<string>)

  /** The upload check, three tests in order: the type must start with
      "image/", then be one of the supported types, then the size must not
      exceed `MaxFileSize`. The first test that fails names the error. */
  function ValidateImageFile(file: ImageFile): (v: Validation)
    ensures v.valid <==> file.mimeType in SupportedTypes && file.size <= MaxFileSize
    ensures v.valid <==> v.error == None
    ensures !StartsWith(file.mimeType, "image/") ==> v.error == Some(NotAnImageError)
    ensures StartsWith(file.mimeType, "image/") && file.mimeType !in SupportedTypes ==>
              v.error == Some(UnsupportedTypeError)
    ensures file.mimeType in SupportedTypes && file.size > MaxFileSize ==>
              v.error == Some(TooLargeError)
  {
    if !StartsWith(file.mimeType, "image/") then
      Validation(false, Some(NotAnImageError))
    else if file.mimeType !in SupportedTypes then
      Validation(false, Some(UnsupportedTypeError))
    else if file.size > MaxFileSize then
      Validation(false, Some(TooLargeError))
    else
      Validation(true, None)
  }

  /** The type test comes first: a file that is not an image is refused as
      such whatever its size. */
  lemma TypeCheckedBeforeSize(mimeType: string, small: nat, large: nat)
    requires !StartsWith(mimeType, "image/")
    ensures ValidateImageFile(ImageFile(mimeType, small)) == ValidateImageFile(ImageFile(mimeType, large))
  {
  }

  /** The size bound is inclusive. */
  lemma SizeBoundInclusive()
    ensures ValidateImageFile(ImageFile("image/png", MaxFileSize)).valid
    ensures !ValidateImageFile(ImageFile("image/png", MaxFileSize + 1)).valid
    ensures ValidateImageFile(ImageFile("image/gif", 1)).error == Some(UnsupportedTypeError)
  {
  }

  const MockImageWidth: nat := 512
  const MockImageHeight: nat := 512
  const MockUrlPrefix := "https://picsum.photos/seed/"

  /** The values `Math.random()` returns. */
  type UnitInterval = r: real | 0.0 <= r < 1.0

  /** `Math.floor(Math.random() * 10000)` for a draw `random`. */
  function MockSeed(random: UnitInterval): (seed: nat)
    ensures seed <= 9999
    ensures seed as real <= random * 10000.0 < seed as real + 1.0
  {
    (random * 10000.0).Floor
  }

  /** The mock image URL for a given seed: the picsum prefix, the seed's
      decimal digits, then the fixed 512 by 512 size. */
  function GenerateMockImageUrl(seed: nat): (url: string)
    ensures url == MockUrlPrefix + NatToString(seed) + "/512/512"
  {
    var width := NatToString(MockImageWidth);
    var height := NatToString(MockImageHeight);
    assert width == height == "512" by {
      assert NatToString(5) == "5";
      assert NatToString(51) == "51";
    }
    MockUrlPrefix + NatToString(seed) + "/" + width + "/" + height
  }

  /** The URL determines its seed: distinct seeds give distinct URLs. */
  lemma MockUrlDeterminesSeed(a: nat, b: nat)
    ensures GenerateMockImageUrl(a) == GenerateMockImageUrl(b) ==> a == b
  {
    var ua, ub := GenerateMockImageUrl(a), GenerateMockImageUrl(b);
    if ua == ub {
      var p := |MockUrlPrefix|;
      assert ua[p..|ua| - 8] == NatToString(a);
      assert ub[p..|ub| - 8] == NatToString(b);
      NatToStringInjective(a, b);
    }
  }
}
