/** The slash-separated subset of Go's path/filepath used by the CLI:
    Join of two elements, Base and Dir.  Lexical cleaning is not modelled. */
module Paths {

  const Sep: char := '/'

  /** filepath.Join of two elements: empty elements are ignored. */
  function Join(dir: string, name: string): string
  {
    if dir == "" then name
    else if name == "" then dir
    else dir + [Sep] + name
  }

  /** p with every trailing separator removed. */
  function StripTrailingSeps(p: string): string
  {
    if p != "" && p[|p| - 1] == Sep then StripTrailingSeps(p[..|p| - 1]) else p
  }

  /** Stripping leaves a prefix that does not end in a separator, and only
      separators were removed. */
  lemma {:induction false} StripTrailingSepsShape(p: string)
    ensures var r := StripTrailingSeps(p);
      && |r| <= |p| && r == p[..|r|]
      && (r == "" || r[|r| - 1] != Sep)
      && forall i :: |r| <= i < |p| ==> p[i] == Sep
  {
    if p != "" && p[|p| - 1] == Sep {
      StripTrailingSepsShape(p[..|p| - 1]);
    }
  }

  /** The longest separator-free suffix of p. */
  function LastElement(p: string): string
  {
    if p == "" then ""
    else if p[|p| - 1] == Sep then ""
    else LastElement(p[..|p| - 1]) + [p[|p| - 1]]
  }

  /** The last element is a separator-free suffix, preceded by a separator
      unless it is the whole path. */
  lemma {:induction false} LastElementShape(p: string)
    ensures var e := LastElement(p);
      && |e| <= |p| && e == p[|p| - |e|..]
      && Sep !in e
      && (|e| < |p| ==> p[|p| - |e| - 1] == Sep)
  {
    if p != "" && p[|p| - 1] != Sep {
      var q := p[..|p| - 1];
      var c := p[|p| - 1];
      LastElementShape(q);
      var e := LastElement(q);
      assert LastElement(p) == e + [c];
      assert p == q + [c];
      assert p[|p| - |e| - 1..] == q[|q| - |e|..] + [c];
      assert Sep !in e + [c];
    }
  }

  /** filepath.Base: the last element after trailing separators are dropped;
      "." for the empty path and "/" for a path of separators only. */
  function Base(p: string): string
  {
    if p == "" then "."
    else
      var t := StripTrailingSeps(p);
      if t == "" then [Sep] else LastElement(t)
  }

  /** The base is never empty, and the base of a path that holds a separator
      but does not end in one is a proper suffix of it. */
  lemma BaseShape(p: string)
    ensures Base(p) != ""
    ensures p != "" && p[|p| - 1] != Sep && Sep in p ==> |Base(p)| < |p| && Base(p) == p[|p| - |Base(p)|..]
  {
    if p != "" {
      var t := StripTrailingSeps(p);
      StripTrailingSepsShape(p);
      if t != "" {
        assert t[|t| - 1] != Sep;
        assert LastElement(t) == LastElement(t[..|t| - 1]) + [t[|t| - 1]];
        if p[|p| - 1] != Sep && Sep in p {
          assert t == p;
          LastElementShape(p);
        }
      }
    }
  }

  /** filepath.Dir: everything before the last element, with trailing
      separators dropped; "." when p has no separator. */
  function Dir(p: string): string
  {
    LastElementShape(p);
    var e := LastElement(p);
    var prefix := p[..|p| - |e|];
    if prefix == "" then "."
    else
      var t := StripTrailingSeps(prefix);
      if t == "" then [Sep] else t
  }

  /** A separator-free, non-empty name is its own base, alone or under a directory. */
  lemma BaseOfJoin(dir: string, name: string)
    requires name != "" && Sep !in name
    ensures Base(Join(dir, name)) == name
  {
    var p := Join(dir, name);
    assert p[|p| - |name|..] == name;
    assert StripTrailingSeps(p) == p by {
      assert p[|p| - 1] == name[|name| - 1];
    }
    LastElementShape(p);
    var e := LastElement(p);
    assert |e| <= |name| by {
      if dir != "" { assert p[|dir|] == Sep; }
    }
    assert forall k :: |p| - |name| <= k < |p| ==> p[k] == name[k - (|p| - |name|)];
  }

  /** The directory of a path joined under a separator-free root is "." or
      starts with that root. */
  lemma DirUnderRoot(root: string, name: string)
    requires root != "" && Sep !in root
    ensures var d := Dir(Join(root, name)); d == "." || (|d| >= |root| && d[..|root|] == root)
  {
    var p := Join(root, name);
    LastElementShape(p);
    var e := LastElement(p);
    if name != "" {
      assert p[|root|] == Sep;
      assert |e| < |p| - |root|;
      var prefix := p[..|p| - |e|];
      assert prefix[..|root|] == root;
      var t := StripTrailingSeps(prefix);
      StripTrailingSepsShape(prefix);
      assert |t| >= |root| by {
        assert prefix[|root| - 1] == root[|root| - 1];
      }
      assert t[..|root|] == prefix[..|root|];
    }
  }

  /** The base of a path keeps any separator-free suffix of it, such as an extension. */
  lemma BaseKeepsSuffix(p: string, suffix: string)
    requires suffix != "" && Sep !in suffix
    requires |p| >= |suffix| && p[|p| - |suffix|..] == suffix
    ensures var b := Base(p); |b| >= |suffix| && b[|b| - |suffix|..] == suffix
  {
    assert p[|p| - 1] == suffix[|suffix| - 1];
    assert StripTrailingSeps(p) == p;
    assert forall k :: |p| - |suffix| <= k < |p| ==> p[k] == suffix[k - (|p| - |suffix|)];
    LastElementShape(p);
    var e := LastElement(p);
    assert |e| >= |suffix|;
    assert e[|e| - |suffix|..] == p[|p| - |suffix|..];
  }
}
