/**
 * The library calls the store makes whose code is not part of this model:
 * `sha.js` (SHA-256, hex digest), `base-64` (encode/decode) and `JSON.stringify`.
 * Each is an arbitrary but fixed function value, so the only thing any proof may
 * use about them is that they are deterministic.
 */
module ThirdParty {
  import opened Wrappers

  datatype Libraries = Libraries(
    /** The SHA-256 digest of `s` as lower-case hex, computed by `sha.js`. */
    sha256Hex: string -> string,
    /** `base64.encode(s)`; `None` when the library throws (a character above U+00FF) */
    base64Encode: string -> Option<string>,
    /** `base64.decode(s)`; `None` when the library throws (not valid base64) */
    base64Decode: string -> Option<string>,
    /** `JSON.stringify(s)` of a string */
    jsonStringify: string -> string)
}
