/** Byte buffers patched in place: the packed-struct assignments, clal_memcpy and
    clal_clear_memory of the source, each tied to one function on the contents. */
module Buffers {
  import opened Words

  /** s with d written over it at position p. */
  function Splice<T>(s: seq<T>, p: nat, d: seq<T>): (r: seq<T>)
    requires p + |d| <= |s|
    ensures |r| == |s|
    ensures forall i :: 0 <= i < |s| ==> r[i] == if p <= i < p + |d| then d[i - p] else s[i]
  {
    s[..p] + d + s[p + |d|..]
  }

  function Zeros(n: nat): (z: seq<byte>)
    ensures |z| == n && forall i :: 0 <= i < n ==> z[i] == 0
  {
    seq(n, i => 0)
  }

  /** A write is read back whole, and reads that miss it are unaffected. */
  lemma SpliceRead<T>(s: seq<T>, p: nat, d: seq<T>, from: nat, to: nat)
    requires p + |d| <= |s| && from <= to <= |s|
    ensures Splice(s, p, d)[p..p + |d|] == d
    ensures to <= p || p + |d| <= from ==> Splice(s, p, d)[from..to] == s[from..to]
  {
  }

  /** Writing inside one section of a concatenation leaves the others alone. */
  lemma SpliceInSection<T>(before: seq<T>, section: seq<T>, after: seq<T>, p: nat, d: seq<T>)
    requires p + |d| <= |section|
    ensures Splice(before + section + after, |before| + p, d) == before + Splice(section, p, d) + after
  {
  }

  /** Assignment to a packed field at byte offset p. */
  method Put(a: array<byte>, p: nat, d: seq<byte>)
    requires p + |d| <= a.Length
    modifies a
    ensures a[..] == Splice(old(a[..]), p, d)
  {
    forall i | 0 <= i < |d| {
      a[p + i] := d[i];
    }
  }

  /** clal_clear_memory (&a[p], n) */
  method Clear(a: array<byte>, p: nat, n: nat)
    requires p + n <= a.Length
    modifies a
    ensures a[..] == Splice(old(a[..]), p, Zeros(n))
  {
    forall i | 0 <= i < n {
      a[p + i] := 0;
    }
  }
}
