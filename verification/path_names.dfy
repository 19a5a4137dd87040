/** What containment and order of path strings mean: names, one by one (internal/torrents). */
module PathNames {
  import opened PathStrings

  ghost predicate IsName(n: string) {
    n != "" && SEPARATOR !in n
  }

  ghost predicate AreNames(names: seq<string>) {
    forall i :: 0 <= i < |names| ==> IsName(names[i])
  }

  /** The names, each behind a separator. */
  function Joined(names: seq<string>): string {
    if names == [] then "" else "/" + names[0] + Joined(names[1..])
  }

  /** The cleaned absolute path of those names; the root has none. */
  function PathOf(names: seq<string>): string {
    if names == [] then "/" else Joined(names)
  }

  ghost predicate Headed(s: string) {
    s == "" || s[0] == SEPARATOR
  }

  lemma {:induction false} NextIsIn(a: string, x: string, b: string, y: string)
    requires a + x <= b + y
    ensures |a| < |b| && x != "" ==> x[0] in b
    ensures |b| < |a| ==> y != "" && y[0] in a
  {
    if |a| < |b| && x != "" {
      assert (a + x)[|a|] == (b + y)[|a|] == b[|a|];
    }
    if |b| < |a| {
      assert y != "";
      assert (b + y)[|b|] == (a + x)[|b|] == a[|b|];
    }
  }

  /** Names end where a separator comes. */
  lemma {:induction false} NamesSplit(m: string, x: string, n: string, y: string)
    requires IsName(m) && IsName(n) && Headed(x) && Headed(y) && m + x <= n + y && (x != "" || m + x == n + y)
    ensures m == n && x <= y
  {
    NextIsIn(m, x, n, y);
    assert |m + x| == |m| + |x| && |n + y| == |n| + |y|;
    assert |m| == |n|;
    assert m == (m + x)[..|m|] == (n + y)[..|m|] == n;
    assert x == (m + x)[|m|..] && y == (n + y)[|n|..];
  }

  lemma {:induction false} JoinedHeaded(names: seq<string>)
    ensures Headed(Joined(names)) && (names != [] ==> Joined(names) != "")
  {
  }

  lemma {:induction false} JoinedOnto(a: seq<string>, b: seq<string>)
    requires a <= b
    ensures if a == b then Joined(a) == Joined(b) else Joined(a) + "/" <= Joined(b)
    decreases |a|
  {
    if a == [] {
      if b != [] {
        assert "" + "/" == "/" && "/" <= Joined(b);
      }
    } else {
      JoinedOnto(a[1..], b[1..]);
      assert a == [a[0]] + a[1..] && b == [b[0]] + b[1..];
    }
  }

  lemma {:induction false} Begins(names: seq<string>)
    requires names != []
    ensures Joined(names) == "/" + (names[0] + Joined(names[1..]))
    ensures Joined(names) + "/" == "/" + (names[0] + (Joined(names[1..]) + "/"))
  {
    var n, rest := names[0], Joined(names[1..]);
    assert "/" + n + rest == "/" + (n + rest);
    assert "/" + n + rest + "/" == "/" + (n + (rest + "/"));
  }

  lemma {:induction false} FirstOfEqual(a: seq<string>, b: seq<string>)
    requires AreNames(a) && AreNames(b) && a != [] && b != [] && Joined(a) == Joined(b)
    ensures a[0] == b[0] && Joined(a[1..]) == Joined(b[1..])
  {
    Begins(a);
    Begins(b);
    JoinedHeaded(a[1..]);
    JoinedHeaded(b[1..]);
    WithoutFirst(a[0] + Joined(a[1..]), b[0] + Joined(b[1..]));
    NamesSplit(a[0], Joined(a[1..]), b[0], Joined(b[1..]));
    NamesSplit(b[0], Joined(b[1..]), a[0], Joined(a[1..]));
  }

  lemma {:induction false} FirstOfPrefix(a: seq<string>, b: seq<string>)
    requires AreNames(a) && AreNames(b) && a != [] && b != [] && Joined(a) + "/" <= Joined(b)
    ensures a[0] == b[0] && Joined(a[1..]) + "/" <= Joined(b[1..])
  {
    var x := Joined(a[1..]) + "/";
    Begins(a);
    Begins(b);
    JoinedHeaded(a[1..]);
    JoinedHeaded(b[1..]);
    WithoutFirst(a[0] + x, b[0] + Joined(b[1..]));
    NamesSplit(a[0], x, b[0], Joined(b[1..]));
  }

  lemma {:induction false} OntoJoined(a: seq<string>, b: seq<string>)
    requires AreNames(a) && AreNames(b) && (Joined(a) == Joined(b) || Joined(a) + "/" <= Joined(b))
    ensures a <= b
    decreases |a|
  {
    if a != [] {
      JoinedHeaded(a);
      assert b != [];
      if Joined(a) == Joined(b) {
        FirstOfEqual(a, b);
      } else {
        FirstOfPrefix(a, b);
      }
      OntoJoined(a[1..], b[1..]);
      assert a == [a[0]] + a[1..] && b == [b[0]] + b[1..];
    }
  }

  lemma {:induction false} WithoutFirst(s: string, t: string)
    ensures "/" + s == "/" + t ==> s == t
    ensures "/" + s <= "/" + t ==> s <= t
  {
    assert ("/" + s)[1..] == s && ("/" + t)[1..] == t;
  }

  lemma {:induction false} NoTrailing(names: seq<string>)
    requires names != [] && AreNames(names)
    ensures Joined(names) != "" && TrimSeparator(Joined(names)) == Joined(names) && Joined(names) != "/"
    decreases |names|
  {
    var s := Joined(names);
    if |names| == 1 {
      assert names[1..] == [] && s == "/" + names[0];
      assert s[|s| - 1] == names[0][|names[0]| - 1];
    } else {
      NoTrailing(names[1..]);
      assert s[|s| - 1] == Joined(names[1..])[|Joined(names[1..])| - 1];
    }
  }

  /** One path is inside another exactly when its names begin with the other's. */
  lemma {:induction false} UnderIsByName(path: seq<string>, root: seq<string>)
    requires AreNames(path) && AreNames(root)
    ensures IsUnder(PathOf(path), PathOf(root)) <==> root <= path
  {
    if root == [] {
      JoinedHeaded(path);
      assert TrimSeparator("/") + [SEPARATOR] == "/";
    } else {
      NoTrailing(root);
      if path != [] {
        NoTrailing(path);
        assert Joined(root) + [SEPARATOR] == Joined(root) + "/";
        if root <= path {
          JoinedOnto(root, path);
        }
        if IsUnder(PathOf(path), PathOf(root)) {
          OntoJoined(root, path);
        }
      }
    }
  }

  // ----- the order of strings

  /** They agree on n characters, and then a ends or has the lower one. */
  ghost predicate DecidedAt(a: string, b: string, n: nat) {
    n <= |a| && n < |b| && a[..n] == b[..n] && (n == |a| || a[n] < b[n])
  }

  lemma {:induction false} AgreeAt(a: string, b: string, n: nat, k: nat)
    ensures n <= |a| && n <= |b| && a[..n] == b[..n] && k < n ==> a[k] == b[k]
  {
    if n <= |a| && n <= |b| && a[..n] == b[..n] && k < n {
      assert a[..n][k] == b[..n][k];
    }
  }

  lemma {:induction false} LeqDecides(a: string, b: string)
    ensures Leq(a, b) <==> a == b || exists n: nat :: DecidedAt(a, b, n)
    decreases |a|
  {
    if a == [] {
      if b != [] {
        assert DecidedAt(a, b, 0);
      }
    } else if b != [] {
      forall n: nat
        ensures DecidedAt(a, b, n) && n > 0 ==> a[0] == b[0]
      {
        AgreeAt(a, b, n, 0);
      }
      if a[0] == b[0] {
        LeqDecides(a[1..], b[1..]);
        DecidedLater(a, b);
      } else if a[0] < b[0] {
        assert DecidedAt(a, b, 0);
      }
    }
  }

  lemma {:induction false} OneFurther(a: string, b: string, n: nat)
    requires a != [] && b != [] && a[0] == b[0]
    ensures DecidedAt(a, b, n + 1) <==> DecidedAt(a[1..], b[1..], n)
    ensures !DecidedAt(a, b, 0)
  {
    if n < |a| && n < |b| {
      assert a[..n + 1] == [a[0]] + a[1..][..n] && b[..n + 1] == [b[0]] + b[1..][..n];
      assert a[1..][..n] == a[..n + 1][1..] && b[1..][..n] == b[..n + 1][1..];
    }
  }

  lemma {:induction false} DecidedLater(a: string, b: string)
    requires a != [] && b != [] && a[0] == b[0]
    ensures a == b <==> a[1..] == b[1..]
    ensures (exists n: nat :: DecidedAt(a, b, n)) <==> exists n: nat :: DecidedAt(a[1..], b[1..], n)
  {
    assert a == [a[0]] + a[1..] && b == [b[0]] + b[1..];
    OneFurther(a, b, 0);
    if n: nat :| DecidedAt(a, b, n) {
      OneFurther(a, b, n - 1);
    }
    if n: nat :| DecidedAt(a[1..], b[1..], n) {
      OneFurther(a, b, n);
    }
  }

  /** One string comes before another exactly when it ends, or has the lower character, where they first differ. */
  lemma {:induction false} BeforeDecides(a: string, b: string)
    ensures Before(a, b) <==> exists n: nat :: DecidedAt(a, b, n)
  {
    LeqDecides(a, b);
    LeqDecides(b, a);
    LeqTotal(a, b);
    if n: nat :| DecidedAt(a, b, n) {
      NotBothWays(a, b, n);
    }
  }

  lemma {:induction false} NotBothWays(a: string, b: string, n: nat)
    requires DecidedAt(a, b, n)
    ensures a != b && forall m: nat :: !DecidedAt(b, a, m)
  {
    forall m: nat
      ensures !DecidedAt(b, a, m)
    {
      AgreeAt(a, b, n, m);
      AgreeAt(b, a, m, n);
    }
  }
}
