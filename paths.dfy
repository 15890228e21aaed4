/** The path normalisation that DBXUpDown.add_to_dropbox and get_from_dropbox
    perform before every Dropbox call: prefix a slash, then replace "//" by
    "/" until none is left. */
module Paths {

  /** The string holds two slashes in a row. */
  predicate HasDoubleSlash(s: string)
  {
    exists i :: 0 <= i < |s| - 1 && s[i] == '/' && s[i + 1] == '/'
  }

  /** Python's s.replace('//', '/'): scan left to right and replace each
      non-overlapping "//" by "/". It only removes slashes, and leaves a
      string without "//" as it is. */
  function ReplaceDoubles(s: string): (r: string)
    ensures Unslashed(r) == Unslashed(s)
    ensures !HasDoubleSlash(s) ==> r == s
    decreases |s|
  {
    if |s| < 2 then s
    else if s[0] == '/' && s[1] == '/' then "/" + ReplaceDoubles(s[2..])
    else [s[0]] + ReplaceDoubles(s[1..])
  }

  /** The string with every run of slashes collapsed to one slash. */
  function Collapse(s: string): string
    decreases |s|
  {
    if |s| < 2 then s
    else if s[0] == '/' && s[1] == '/' then Collapse(s[1..])
    else [s[0]] + Collapse(s[1..])
  }

  /** The string with its slashes removed. */
  function Unslashed(s: string): string
    decreases |s|
  {
    if s == [] then [] else (if s[0] == '/' then [] else [s[0]]) + Unslashed(s[1..])
  }

  /** One pass never lengthens the string, keeps its first character, and
      strictly shortens it when there is a "//" to replace. */
  lemma {:induction false} ReplaceDoublesShrinks(s: string)
    ensures |ReplaceDoubles(s)| <= |s|
    ensures |s| > 0 ==> |ReplaceDoubles(s)| > 0 && ReplaceDoubles(s)[0] == s[0]
    ensures HasDoubleSlash(s) ==> |ReplaceDoubles(s)| < |s|
    decreases |s|
  {
    if |s| >= 2 {
      if s[0] == '/' && s[1] == '/' {
        ReplaceDoublesShrinks(s[2..]);
      } else {
        ReplaceDoublesShrinks(s[1..]);
        if HasDoubleSlash(s) {
          var i :| 0 <= i < |s| - 1 && s[i] == '/' && s[i + 1] == '/';
          assert s[1..][i - 1] == '/' && s[1..][i] == '/';
        }
      }
    }
  }

  /** Collapsing keeps the first character. */
  lemma {:induction false} CollapseHead(s: string)
    ensures |Collapse(s)| > 0 <==> |s| > 0
    ensures |s| > 0 ==> Collapse(s)[0] == s[0]
    decreases |s|
  {
    if |s| >= 2 {
      CollapseHead(s[1..]);
    }
  }

  /** A pass of replace does not change what collapsing gives, so the loop
      keeps its target fixed. */
  lemma {:induction false} CollapseReplaceDoubles(s: string)
    ensures Collapse(ReplaceDoubles(s)) == Collapse(s)
    decreases |s|
  {
    if |s| >= 2 {
      if s[0] == '/' && s[1] == '/' {
        var t := s[2..];
        CollapseReplaceDoubles(t);
        ReplaceDoublesShrinks(t);
        assert s[1..] == "/" + t;
      } else {
        var r := ReplaceDoubles(s[1..]);
        CollapseReplaceDoubles(s[1..]);
        ReplaceDoublesShrinks(s[1..]);
        assert ([s[0]] + r)[1..] == r;
      }
    }
  }

  /** A string without "//" is its own collapse. */
  lemma {:induction false} CollapseFixed(s: string)
    requires !HasDoubleSlash(s)
    ensures Collapse(s) == s
    decreases |s|
  {
    if |s| >= 2 {
      assert !(s[0] == '/' && s[1] == '/');
      CollapseFixed(s[1..]);
    }
  }

  /** Collapsing leaves no "//". */
  lemma {:induction false} CollapseNoDoubleSlash(s: string)
    ensures !HasDoubleSlash(Collapse(s))
    decreases |s|
  {
    if |s| >= 2 {
      CollapseNoDoubleSlash(s[1..]);
      if !(s[0] == '/' && s[1] == '/') {
        var c := Collapse(s[1..]);
        CollapseHead(s[1..]);
        var r := [s[0]] + c;
        forall i | 0 <= i < |r| - 1
          ensures !(r[i] == '/' && r[i + 1] == '/')
        {
          if i > 0 {
            assert r[i] == c[i - 1] && r[i + 1] == c[i];
          }
        }
      }
    }
  }

  /** Collapsing only drops slashes: every other character stays, in order. */
  lemma {:induction false} CollapseKeepsText(s: string)
    ensures Unslashed(Collapse(s)) == Unslashed(s)
    decreases |s|
  {
    if |s| >= 2 {
      CollapseKeepsText(s[1..]);
      if !(s[0] == '/' && s[1] == '/') {
        assert ([s[0]] + Collapse(s[1..]))[1..] == Collapse(s[1..]);
      }
    }
  }

  /** The loop of add_to_dropbox / get_from_dropbox: '/' + filename, then
      replace "//" by "/" while any is left. */
  method NormalizePath(filename: string) returns (path: string)
    ensures path == Collapse("/" + filename)
    ensures |path| > 0 && path[0] == '/' && !HasDoubleSlash(path)
    ensures Unslashed(path) == Unslashed(filename)
  {
    path := "/" + filename;
    while HasDoubleSlash(path)
      invariant Collapse(path) == Collapse("/" + filename)
      invariant |path| > 0 && path[0] == '/'
      decreases |path|
    {
      ReplaceDoublesShrinks(path);
      CollapseReplaceDoubles(path);
      path := ReplaceDoubles(path);
    }
    CollapseFixed(path);
    CollapseKeepsText("/" + filename);
    assert ("/" + filename)[1..] == filename;
  }
}
