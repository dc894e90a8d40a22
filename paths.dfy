/** POSIX path joining as `os.path.join` does it, and its inverse `os.path.basename`. */
module Paths {

  /** `os.path.join(a, b)` on POSIX: an absolute `b` replaces `a`; otherwise one '/' separates them. */
  function Join(a: string, b: string): (r: string)
    ensures |b| > 0 && b[0] == '/' ==> r == b
    ensures !(|b| > 0 && b[0] == '/') ==> a <= r && |b| <= |r| <= |a| + 1 + |b| && r[|r| - |b|..] == b
  {
    if |b| > 0 && b[0] == '/' then b
    else if a == [] || a[|a| - 1] == '/' then a + b
    else a + "/" + b
  }

  /** `os.path.basename(p)`: whatever follows the last '/'. */
  function BaseName(p: string): (r: string)
    ensures '/' !in r
    ensures |r| <= |p|
  {
    if p == [] || p[|p| - 1] == '/' then []
    else BaseName(p[..|p| - 1]) + [p[|p| - 1]]
  }

  /** Text after a separator (or at the start) is recovered by BaseName when it holds no '/'. */
  lemma {:induction false} BaseNameAfterSeparator(pre: string, b: string)
    requires '/' !in b
    requires pre == [] || pre[|pre| - 1] == '/'
    ensures BaseName(pre + b) == b
    decreases |b|
  {
    if b == [] {
      assert pre + b == pre;
    } else {
      var init, last := b[..|b| - 1], b[|b| - 1];
      assert last in b;
      assert '/' !in init by {
        forall i | 0 <= i < |init| ensures init[i] != '/' {
          assert init[i] == b[i];
        }
      }
      BaseNameAfterSeparator(pre, init);
      var p := pre + b;
      assert p[..|p| - 1] == pre + init;
      assert p[|p| - 1] == last;
      assert init + [last] == b;
    }
  }

  /** Joining a single path component and taking the base name gives the component back. */
  lemma JoinBaseName(a: string, b: string)
    requires '/' !in b
    ensures BaseName(Join(a, b)) == b
  {
    if a == [] || a[|a| - 1] == '/' {
      BaseNameAfterSeparator(a, b);
    } else {
      BaseNameAfterSeparator(a + "/", b);
      assert a + "/" + b == (a + "/") + b;
    }
  }

  /** Distinct single components joined to the same directory give distinct paths. */
  lemma JoinInjective(a: string, b1: string, b2: string)
    requires '/' !in b1 && '/' !in b2
    requires b1 != b2
    ensures Join(a, b1) != Join(a, b2)
  {
    JoinBaseName(a, b1);
    JoinBaseName(a, b2);
  }
}
