/** The shell-style patterns that `package_data` lists, matched against
    '/'-separated paths relative to the package directory. */
module Glob {

  /** `*` matches any run of characters other than '/', every other pattern
      character matches itself. */
  function Match(p: string, s: string): bool
    decreases |p| + |s|
  {
    if p == [] then s == []
    else if p[0] == '*' then Match(p[1..], s) || (s != [] && s[0] != '/' && Match(p, s[1..]))
    else s != [] && s[0] == p[0] && Match(p[1..], s[1..])
  }

  /** A pattern without `*` matches itself. */
  lemma {:induction false} MatchSelf(p: string)
    requires '*' !in p
    ensures Match(p, p)
  {
    if p != [] {
      assert p[0] in p;
      assert forall c :: c in p[1..] ==> c in p;
      MatchSelf(p[1..]);
    }
  }

  /** `*` followed by a star-free suffix matches any file name without '/'
      followed by that suffix. */
  lemma {:induction false} MatchStarName(name: string, suffix: string)
    requires '*' !in suffix && '/' !in name
    ensures Match("*" + suffix, name + suffix)
  {
    var p := "*" + suffix;
    assert p[1..] == suffix;
    if name == [] {
      assert name + suffix == suffix;
      MatchSelf(suffix);
    } else {
      assert name[0] in name;
      assert forall c :: c in name[1..] ==> c in name;
      MatchStarName(name[1..], suffix);
      assert (name + suffix)[1..] == name[1..] + suffix;
    }
  }

  /** `dir*suffix` matches `dir` + name + `suffix` for any name without '/'. */
  lemma {:induction false} MatchStar(dir: string, name: string, suffix: string)
    requires '*' !in dir && '*' !in suffix && '/' !in name
    ensures Match(dir + "*" + suffix, dir + name + suffix)
  {
    if dir == [] {
      assert dir + "*" + suffix == "*" + suffix;
      assert dir + name + suffix == name + suffix;
      MatchStarName(name, suffix);
    } else {
      assert dir[0] in dir;
      assert forall c :: c in dir[1..] ==> c in dir;
      MatchStar(dir[1..], name, suffix);
      assert (dir + "*" + suffix)[1..] == dir[1..] + "*" + suffix;
      assert (dir + name + suffix)[1..] == dir[1..] + name + suffix;
    }
  }

  /** Whatever a pattern matches starts with the pattern's star-free prefix. */
  lemma {:induction false} MatchHasPrefix(dir: string, rest: string, s: string)
    requires '*' !in dir
    requires Match(dir + rest, s)
    ensures |dir| <= |s| && s[..|dir|] == dir
  {
    if dir != [] {
      assert dir[0] in dir;
      assert forall c :: c in dir[1..] ==> c in dir;
      assert (dir + rest)[0] == dir[0];
      assert (dir + rest)[1..] == dir[1..] + rest;
      MatchHasPrefix(dir[1..], rest, s[1..]);
    }
  }
}
