/** Path containment as the consent grants test it: a string test on normal forms (levain/authority.py,
    `_path_within`). */
module Paths {

  /** `s` without its trailing slashes. */
  function TrimSlashes(s: string): string {
    if s != "" && s[|s| - 1] == '/' then TrimSlashes(s[..|s| - 1]) else s
  }

  /** `path` is `root` or under it: the string test the program makes. */
  predicate Within(path: string, root: string) {
    path == root || TrimSlashes(root) + "/" <= path
  }

  lemma {:induction false} TrimPrefix(s: string)
    ensures TrimSlashes(s) <= s
    ensures TrimSlashes(s) != "" ==> TrimSlashes(s)[|TrimSlashes(s)| - 1] != '/'
    ensures forall i :: |TrimSlashes(s)| <= i < |s| ==> s[i] == '/'
  {
    if s != "" && s[|s| - 1] == '/' {
      TrimPrefix(s[..|s| - 1]);
    }
  }

  /** Trimming a root that lies under `base + "/"` gives `base` itself or stays under it. */
  lemma {:induction false} TrimUnder(s: string, base: string)
    requires base + "/" <= s
    ensures TrimSlashes(s) + "/" == TrimSlashes(base) + "/" || base + "/" <= TrimSlashes(s)
    decreases |s|
  {
    if s[|s| - 1] == '/' {
      if |s| == |base| + 1 {
        assert s[..|s| - 1] == base;
      } else {
        TrimUnder(s[..|s| - 1], base);
      }
    }
  }

  /** Containment is transitive, on every three strings. */
  lemma {:induction false} WithinTransitive(a: string, b: string, c: string)
    requires Within(a, b) && Within(b, c)
    ensures Within(a, c)
  {
    if a != b && b != c {
      var base := TrimSlashes(c);
      TrimPrefix(c);
      TrimUnder(b, base);
      TrimIdempotent(c);
    }
  }

  lemma {:induction false} TrimIdempotent(s: string)
    ensures TrimSlashes(TrimSlashes(s)) == TrimSlashes(s)
  {
    TrimPrefix(s);
  }

  // ----- what the string test means: a prefix of the component list

  /** The absolute path with these components, in its normal form. */
  function Spell(parts: seq<string>): string {
    if parts == [] then "" else Spell(parts[..|parts| - 1]) + "/" + parts[|parts| - 1]
  }

  /** A component of a normal form: not empty, no slash. */
  predicate Component(s: string) {
    s != "" && '/' !in s
  }

  predicate NormalForm(parts: seq<string>) {
    parts != [] && forall i :: 0 <= i < |parts| ==> Component(parts[i])
  }

  /** The reference reading of containment: the root's components begin the path's. */
  predicate UnderByComponents(path: seq<string>, root: seq<string>) {
    root <= path
  }

  lemma {:induction false} SpellUnder(path: seq<string>, root: seq<string>)
    requires root <= path && root != path
    ensures Spell(root) + "/" <= Spell(path)
    decreases |path|
  {
    var shorter := path[..|path| - 1];
    if root != shorter {
      SpellUnder(shorter, root);
    }
  }

  /** The last slash of a spelled path stands before its last component. */
  lemma {:induction false} LastSlash(parts: seq<string>, i: nat)
    requires NormalForm(parts)
    requires i < |Spell(parts)| && Spell(parts)[i] == '/'
    ensures i <= |Spell(parts[..|parts| - 1])|
  {
    var head, last := Spell(parts[..|parts| - 1]), parts[|parts| - 1];
    assert forall j :: |head| < j < |Spell(parts)| ==> Spell(parts)[j] == last[j - |head| - 1];
  }

  lemma SlashAfterPrefix(r: string, p: string)
    requires r + "/" <= p
    ensures r <= p && |r| < |p| && p[|r|] == '/'
  {
    assert p[..|r|] == (r + "/")[..|r|] == r;
  }

  lemma PrefixOfShorter(a: string, b: string, c: string)
    requires a <= c && b <= c && |a| <= |b|
    ensures a <= b && (|a| == |b| ==> a == b)
  {
    assert a == c[..|a|] && b == c[..|b|];
  }

  lemma {:induction false} SpelledPrefix(path: seq<string>, root: seq<string>)
    requires NormalForm(path) && NormalForm(root)
    requires Spell(root) + "/" <= Spell(path)
    ensures root <= path && root != path
    decreases |path|
  {
    var shorter, last := path[..|path| - 1], path[|path| - 1];
    var s, r, p := Spell(shorter), Spell(root), Spell(path);
    assert p == s + "/" + last;
    SlashAfterPrefix(r, p);
    LastSlash(path, |r|);
    if |r| == |s| {
      PrefixOfShorter(r, s, p);
      SpellInjective(root, shorter);
    } else {
      PrefixOfShorter(r + "/", s, p);
      assert shorter != [];
      SpelledPrefix(shorter, root);
    }
  }

  lemma {:induction false} SpellInjective(a: seq<string>, b: seq<string>)
    requires forall i :: 0 <= i < |a| ==> Component(a[i])
    requires forall i :: 0 <= i < |b| ==> Component(b[i])
    requires Spell(a) == Spell(b)
    ensures a == b
    decreases |a|
  {
    if a == [] || b == [] {
      assert a == [] <==> Spell(a) == "";
      assert b == [] <==> Spell(b) == "";
    } else {
      var ha, hb := Spell(a[..|a| - 1]), Spell(b[..|b| - 1]);
      assert Spell(a)[|ha|] == '/' && Spell(b)[|hb|] == '/';
      LastSlash(b, |ha|);
      LastSlash(a, |hb|);
      assert ha == Spell(a)[..|ha|] == Spell(b)[..|hb|] == hb;
      SpellInjective(a[..|a| - 1], b[..|b| - 1]);
      assert a[|a| - 1] == Spell(a)[|ha| + 1..] == b[|b| - 1];
      assert a == a[..|a| - 1] + [a[|a| - 1]];
    }
  }

  lemma {:induction false} SpelledIsTrimmed(parts: seq<string>)
    requires NormalForm(parts)
    ensures TrimSlashes(Spell(parts)) == Spell(parts)
  {
    var s, last := Spell(parts), parts[|parts| - 1];
    assert s[|s| - 1] == last[|last| - 1];
  }

  /** On normal forms the string test is containment by components: `/a/bc` is not in `/a/b`. */
  lemma {:induction false} WithinIsContainment(path: seq<string>, root: seq<string>)
    requires NormalForm(path) && NormalForm(root)
    ensures Within(Spell(path), Spell(root)) <==> UnderByComponents(path, root)
  {
    SpelledIsTrimmed(root);
    if Within(Spell(path), Spell(root)) {
      if Spell(path) == Spell(root) {
        SpellInjective(path, root);
      } else {
        SpelledPrefix(path, root);
      }
    }
    if UnderByComponents(path, root) && path != root {
      SpellUnder(path, root);
    }
  }
}
