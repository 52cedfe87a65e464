/** The exceptions the readers raise, as values.  Each variant names the
    Python exception it stands for. */
module Errors {
  import opened Text

  datatype Error =
    | InvalidSentinelSceneId(sceneid: Str)
    | InvalidLandsatSceneId(sceneid: Str)
    | InvalidCBERSSceneId(sceneid: Str)
    | InvalidMODISSceneId(sceneid: Str)
    | InvalidMODISProduct(product: Str)
      /** `listed` is the catalog quoted in the message (empty when the
          message quotes none). */
    | InvalidBandName(band: Str, listed: seq<Str>)
    | InvalidAssetName(asset: Str)
    | MissingAssets
    | ValueError(message: Str)
      /** `band[-1]` on an empty string. */
    | IndexError
      /** A dictionary lookup on a missing key. */
    | KeyError(key: Str)
      /** `re.match(...)` returned None after the guard pattern accepted the
          id, so `.groupdict()` fails (Python's AttributeError). */
    | NoMatch(sceneid: Str)
      /** `Exception(f"{level} is not supported")`. */
    | Unsupported(level: Str)
      /** An object-store error other than NoSuchKey, re-raised unchanged. */
    | ClientError(code: Str)

  datatype Result<+T> = Ok(value: T) | Err(error: Error) {
    predicate IsFailure() { Err? }
    function PropagateFailure<U>(): Result<U>
      requires Err?
    {
      Err(error)
    }
    function Extract(): T
      requires Ok?
    {
      value
    }
  }

  datatype Option<+T> = None | Some(value: T)
}
