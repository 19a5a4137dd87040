/** Paths as strings: containment, byte order, and what sorting does to nested paths
    (internal/torrents). */
module PathStrings {

  const SEPARATOR := '/'
  const LOWEST := '\0'

  /** Go's string order. */
  predicate Leq(a: string, b: string) {
    a == [] || (b != [] && (a[0] < b[0] || (a[0] == b[0] && Leq(a[1..], b[1..]))))
  }

  predicate Before(a: string, b: string) {
    !Leq(b, a)
  }

  lemma {:induction false} LeqTotal(a: string, b: string)
    ensures Leq(a, b) || Leq(b, a)
  {
    if a != [] && b != [] && a[0] == b[0] {
      LeqTotal(a[1..], b[1..]);
    }
  }

  lemma {:induction false} LeqTransitive(a: string, b: string, c: string)
    requires Leq(a, b) && Leq(b, c)
    ensures Leq(a, c)
  {
    if a != [] && a[0] == b[0] == c[0] {
      LeqTransitive(a[1..], b[1..], c[1..]);
    }
  }

  lemma {:induction false} LeqAntisymmetric(a: string, b: string)
    requires Leq(a, b) && Leq(b, a)
    ensures a == b
  {
    if a != [] && b != [] {
      LeqAntisymmetric(a[1..], b[1..]);
      assert a == [a[0]] + a[1..] && b == [b[0]] + b[1..];
    }
  }

  lemma {:induction false} PrefixLeq(p: string, s: string)
    requires p <= s
    ensures Leq(p, s)
  {
    if p != [] {
      PrefixLeq(p[1..], s[1..]);
    }
  }

  /** Strings sharing a prefix are contiguous in the order, right after the prefix itself. */
  lemma {:induction false} Between(p: string, b: string, c: string)
    requires p <= c && Leq(p, b) && Leq(b, c)
    ensures p <= b
  {
    if p != [] {
      Between(p[1..], b[1..], c[1..]);
      assert b == [b[0]] + b[1..] && p == [p[0]] + p[1..];
    }
  }

  /** With a shared prefix, the order is decided after it. */
  lemma {:induction false} NextChar(p: string, b: string, c: string)
    requires p <= b && p <= c && Leq(b, c) && |p| < |b|
    ensures |p| < |c| && b[|p|] <= c[|p|]
  {
    if p != [] {
      NextChar(p[1..], b[1..], c[1..]);
    }
  }

  // ----- containment

  function TrimSeparator(root: string): string {
    if root != [] && root[|root| - 1] == SEPARATOR then root[..|root| - 1] else root
  }

  /** Whether path is root itself or inside it. */
  predicate IsUnder(path: string, root: string) {
    path == root || TrimSeparator(root) + [SEPARATOR] <= path
  }

  predicate Overlap(p: string, q: string) {
    IsUnder(p, q) || IsUnder(q, p)
  }

  lemma {:induction false} UnderIsPrefix(path: string, root: string)
    requires IsUnder(path, root)
    ensures root <= path
  {
  }

  lemma {:induction false} UnderTransitive(c: string, b: string, a: string)
    requires IsUnder(c, b) && IsUnder(b, a)
    ensures IsUnder(c, a)
  {
    UnderIsPrefix(c, b);
  }

  // ----- the order in which a folder's contents come straight after it

  /** The path with its separators mapped to the lowest character. */
  function SeparatorFirst(path: string): string {
    if path == [] then [] else [if path[0] == SEPARATOR then LOWEST else path[0]] + SeparatorFirst(path[1..])
  }

  predicate Printable(path: string) {
    LOWEST !in path
  }

  lemma {:induction false} SeparatorFirstAt(path: string)
    ensures |SeparatorFirst(path)| == |path|
    ensures forall i :: 0 <= i < |path| ==> SeparatorFirst(path)[i] == if path[i] == SEPARATOR then LOWEST else path[i]
  {
    if path != [] {
      SeparatorFirstAt(path[1..]);
    }
  }

  lemma {:induction false} SeparatorFirstPrefix(p: string, s: string)
    requires Printable(p) && Printable(s)
    ensures p <= s <==> SeparatorFirst(p) <= SeparatorFirst(s)
  {
    SeparatorFirstAt(p);
    SeparatorFirstAt(s);
    if SeparatorFirst(p) <= SeparatorFirst(s) {
      forall i | 0 <= i < |p|
        ensures p[i] == s[i]
      {
        assert SeparatorFirst(p)[i] == SeparatorFirst(s)[i];
        assert p[i] in p && s[i] in s;
      }
    }
  }

  lemma {:induction false} SeparatorFirstInjective(a: string, b: string)
    requires Printable(a) && Printable(b) && SeparatorFirst(a) == SeparatorFirst(b)
    ensures a == b
  {
    SeparatorFirstPrefix(a, b);
    SeparatorFirstPrefix(b, a);
  }

  /** The order shareClusters sorts by. */
  predicate FolderLeq(a: string, b: string) {
    Leq(SeparatorFirst(a), SeparatorFirst(b))
  }

  predicate FolderBefore(a: string, b: string) {
    Before(SeparatorFirst(a), SeparatorFirst(b))
  }

  /** Everything between a folder and something inside it is inside it too: nothing else comes
      between, however its name is spelled. */
  lemma {:induction false} FolderContiguous(t: string, k: string, m: string)
    requires Printable(t) && Printable(k) && Printable(m)
    requires FolderLeq(t, k) && FolderLeq(k, m) && IsUnder(m, t)
    ensures IsUnder(k, t)
  {
    UnderIsPrefix(m, t);
    SeparatorFirstPrefix(t, m);
    Between(SeparatorFirst(t), SeparatorFirst(k), SeparatorFirst(m));
    SeparatorFirstPrefix(t, k);
    if k != t && TrimSeparator(t) == t {
      InsideNext(t, k, m);
    }
  }

  lemma {:induction false} InsideNext(t: string, k: string, m: string)
    requires Printable(t) && Printable(k) && Printable(m) && t <= k && t <= m && k != t
    requires FolderLeq(k, m) && TrimSeparator(t) == t && IsUnder(m, t)
    ensures t + [SEPARATOR] <= k
  {
    SeparatorFirstAt(t);
    SeparatorFirstAt(k);
    SeparatorFirstAt(m);
    SeparatorFirstPrefix(t, k);
    SeparatorFirstPrefix(t, m);
    NextChar(SeparatorFirst(t), SeparatorFirst(k), SeparatorFirst(m));
    assert m != t ==> m[|t|] == SEPARATOR;
    assert k[|t|] in k;
  }

  /** A folder comes before everything inside it. */
  lemma {:induction false} FolderFirst(path: string, root: string)
    requires Printable(path) && Printable(root) && IsUnder(path, root) && FolderLeq(path, root)
    ensures path == root
  {
    UnderIsPrefix(path, root);
    SeparatorFirstPrefix(root, path);
    PrefixLeq(SeparatorFirst(root), SeparatorFirst(path));
    LeqAntisymmetric(SeparatorFirst(root), SeparatorFirst(path));
    SeparatorFirstInjective(path, root);
  }
}
