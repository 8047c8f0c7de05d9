/** The records shared by the client, the history store and the page
    (src/types/index.ts). Every record is a value: the page copies and
    replaces them, it never updates one in place. */
module Types {

  datatype Option<+T> = None | Some(value: T)

  /** One finished generation. The id and timestamp are opaque strings. */
  datatype Generation = Generation(
    id: string,
    imageUrl: string,
    prompt: string,
    style: string,
    createdAt: string)

  /** What the page sends for one generation. */
  datatype GenerationRequest = GenerationRequest(
    imageDataUrl: string,
    prompt: string,
    style: string)

  /** The tagged union `APIResponse | APIError`, told apart by `success`. */
  datatype APIResult =
    | Success(data: Generation)
    | Failure(message: string)

  /** Retry policy. `attempt` is carried along but no part of the core reads it. */
  datatype RetryConfig = RetryConfig(
    maxAttempts: int,
    baseDelay: int,
    maxDelay: int,
    attempt: int)

  /** The five styles a user can pick. */
  datatype StyleOption = Editorial | Streetwear | Vintage | Minimalist | Abstract

  /** The string a style travels as in a request and in a stored generation. */
  function StyleName(s: StyleOption): (name: string)
    ensures name in {"Editorial", "Streetwear", "Vintage", "Minimalist", "Abstract"}
  {
    match s
    case Editorial => "Editorial"
    case Streetwear => "Streetwear"
    case Vintage => "Vintage"
    case Minimalist => "Minimalist"
    case Abstract => "Abstract"
  }

  /** Style names are distinct, so a stored name identifies its style. */
  lemma StyleNameInjective(a: StyleOption, b: StyleOption)
    ensures StyleName(a) == StyleName(b) ==> a == b
  {
  }

  /** What the upload check looks at in a browser `File`: its MIME type and
      its size in bytes. */
  datatype ImageFile = ImageFile(mimeType: string, size: nat)

  /** An accepted upload: the file, its compressed data URL and a preview URL. */
  datatype UploadedImage = UploadedImage(
    file: ImageFile,
    dataUrl: string,
    preview: string)

  /** Everything the page shows. */
  datatype AppState = AppState(
    uploadedImage: Option<UploadedImage>,
    prompt: string,
    style: StyleOption,
    isGenerating: bool,
    generationHistory: seq<Generation>,
    currentGeneration: Option<Generation>,
    error: Option<string>)
}
