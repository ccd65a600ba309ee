/** Bytes, and the removal of trailing NULs that the fixed-length fields of the wire format call for. */
module Bytes {
  type Byte = n: nat | n < 256

  function Strip<T(==)>(s: seq<T>, nul: T): (r: seq<T>)
    ensures r <= s && (r == [] || r[|r| - 1] != nul)
    ensures forall i :: |r| <= i < |s| ==> s[i] == nul
  {
    if s == [] || s[|s| - 1] != nul then s else Strip(s[..|s| - 1], nul)
  }

  /** Stripping removes nothing exactly from what does not end in a NUL. */
  lemma StripUnchanged<T>(s: seq<T>, nul: T)
    ensures Strip(s, nul) == s <==> s == [] || s[|s| - 1] != nul
  {
  }
}
