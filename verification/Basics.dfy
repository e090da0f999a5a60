/** What several modules share: optional values, results, the error codes the app answers with, and how to count. */
module Basics {

  datatype Option<+T> = None | Some(value: T)

  datatype Result<+T, +E> = Ok(value: T) | Err(error: E)

  /** The codes of `IpcError` that the modelled code answers with or passes on. */
  datatype ErrorCode =
    | Internal
    | LimitExceeded
    | InvalidArgument
    | NotAllowed
    | UnknownDocument
    | WorkerCrashed
    | WorkerTimeout
    | ProtocolViolation
    | Unreadable
    | TooLarge
    | Corrupted
    | Encrypted
    | Signed
    | ChangedOnDisk
    | ReadOnly
    | Unwritable
    | NoPageToMark
    | BatesOverflow

  /** What a PDF says, byte for byte or as a worker holds it: nothing in the main process looks inside. */
  datatype Content = Content(bytes: seq<int>)

  lemma SubsetCount<T>(a: set<T>, b: set<T>)
    requires a <= b
    ensures |a| <= |b|
  {
    assert b == a + (b - a);
  }

  lemma Twice<T>(s: seq<T>, i: nat, j: nat)
    requires i < j < |s| && s[i] == s[j]
    ensures multiset(s)[s[i]] >= 2
  {
    assert s == s[..j] + s[j..];
    assert s[..j][i] == s[i] && s[j..][0] == s[i];
    assert multiset(s) == multiset(s[..j]) + multiset(s[j..]);
  }
}
