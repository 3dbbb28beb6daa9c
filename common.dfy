/** Values shared by every part of the model: bytes, optional values and results. */
module Common {

  /** One byte of a file or of an HTTP body. */
  newtype byte = b: int | 0 <= b < 256

  /** Python's `None` or a value. */
  datatype Option<+T> = None | Some(value: T)

  /** A value, or the exception the Python code raises instead of returning one. */
  datatype Result<+T, +E> = Success(value: T) | Failure(error: E)

  /** Completion without a value (`return None`), or the exception raised. */
  datatype Outcome<+E> = Pass | Fail(error: E)

  function Min(a: int, b: int): int {
    if a <= b then a else b
  }

  lemma SplitAt<T>(s: seq<T>, k: nat)
    requires k <= |s|
    ensures s[..k] + s[k..] == s
  {
  }

  lemma SplitBetween<T>(s: seq<T>, i: nat, j: nat)
    requires i <= j <= |s|
    ensures s[i..] == s[i..j] + s[j..]
  {
  }

  lemma HeadAndTail<T>(s: seq<T>)
    requires s != []
    ensures [s[0]] + s[1..] == s
  {
  }

  lemma PrependIndex<T>(x: T, s: seq<T>, k: nat)
    requires 1 <= k <= |s|
    ensures ([x] + s)[k] == s[k - 1] && ([x] + s)[0] == x
  {
  }

  lemma LastOfPrepend<T>(x: T, s: seq<T>)
    requires s != []
    ensures ([x] + s)[|[x] + s| - 1] == s[|s| - 1]
  {
  }

  lemma Regroup<T>(a: seq<T>, b: seq<T>, c: seq<T>)
    ensures a + (b + c) == (a + b) + c
  {
  }

  lemma SplitAround(s: string, i: nat)
    requires i < |s| && s[i] == '/'
    ensures s == s[..i] + "/" + s[i + 1..]
  {
    assert s[..i] + "/" + s[i + 1..] == s[..i] + s[i..];
  }
}
