/** The rules of `TransferRequestPolicy` on offsets, and what they guarantee. */
module RequestPolicy {

  // `qBound(low, value, high)` for low <= high.
  function Bound(low: int, value: int, high: int): int {
    if value < low then low else if high < value then high else value
  }

  function Min(a: int, b: int): int {
    if a < b then a else b
  }

  /** The offset a client asks for, kept inside its file. */
  function ClampUploadOffset(requested: int, fileSize: nat): (offset: nat)
    ensures offset <= fileSize && (offset == requested <==> 0 <= requested <= fileSize)
    ensures (requested < 0 ==> offset == 0) && (requested > fileSize ==> offset == fileSize)
  {
    Bound(0, requested, fileSize)
  }

  /** Where a download goes on: a target that is too long is started over. */
  function ResolveDownloadOffset(existingSize: nat, fileSize: int): (offset: nat) {
    if existingSize > fileSize then 0 else Min(existingSize, fileSize)
  }

  /** Where the server goes on with an upload: what it has on disk decides, not the client. */
  function ServerOffset(existingSize: nat, fileSize: nat): (offset: nat) {
    if existingSize > fileSize then 0 else Min(existingSize, fileSize)
  }
}
