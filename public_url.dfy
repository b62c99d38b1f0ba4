/** `publicUrl` (src/pages/Contact.jsx:8): the address of a file in the site's public
    folder, made by removing every leading `/` from the path and putting the
    deployment's base URL in front. */
module PublicUrl {

  /** `path.replace(/^\/+/, '')`. */
  function StripLeadingSlashes(path: string): (r: string)
    ensures |r| <= |path|
    ensures r == [] || r[0] != '/'
  {
    if path != [] && path[0] == '/' then StripLeadingSlashes(path[1..]) else path
  }

  /** `${import.meta.env.BASE_URL}${...}`, with the base URL passed in: the base, then
      a part of the path that does not start with `/`. */
  function PublicUrl(base: string, path: string): (r: string)
    ensures |base| <= |r| <= |base| + |path| && r[..|base|] == base
    ensures |r| == |base| || r[|base|] != '/'
  {
    base + StripLeadingSlashes(path)
  }

  function Slashes(n: nat): (s: string)
    ensures |s| == n && forall k :: 0 <= k < n ==> s[k] == '/'
  {
    if n == 0 then "" else "/" + Slashes(n - 1)
  }

  /** What the replacement removes is the run of slashes the path starts with, and
      nothing else: the path is that run followed by the result. */
  lemma {:induction false} StripRemovesLeadingRun(path: string) returns (n: nat)
    ensures n <= |path| && path == Slashes(n) + StripLeadingSlashes(path)
  {
    if path != [] && path[0] == '/' {
      var m := StripRemovesLeadingRun(path[1..]);
      n := m + 1;
      assert path == [path[0]] + path[1..];
    } else {
      n := 0;
      assert Slashes(0) + path == path;
    }
  }

  /** Any number of leading slashes give the same address as none. */
  lemma {:induction false} SlashesIgnored(base: string, n: nat, path: string)
    ensures PublicUrl(base, Slashes(n) + path) == PublicUrl(base, path)
    decreases n
  {
    if n > 0 {
      var p := Slashes(n) + path;
      assert p[0] == '/' && p[1..] == Slashes(n - 1) + path;
      SlashesIgnored(base, n - 1, path);
    } else {
      assert Slashes(n) + path == path;
    }
  }

  /** The address is the base followed by the path without its leading slashes. */
  lemma PublicUrlShape(base: string, path: string) returns (n: nat)
    ensures n <= |path| && forall k :: 0 <= k < n ==> path[k] == '/'
    ensures PublicUrl(base, path) == base + path[n..]
    ensures n == |path| || path[n] != '/'
  {
    n := StripRemovesLeadingRun(path);
    var r := StripLeadingSlashes(path);
    assert path[..n] == Slashes(n) && path[n..] == r;
  }

  /** Removing the leading slashes a second time changes nothing. */
  lemma StripIdempotent(path: string)
    ensures StripLeadingSlashes(StripLeadingSlashes(path)) == StripLeadingSlashes(path)
  {
  }

  /** The icons of the page: a path without a leading slash is appended as it is. */
  lemma IconUrl(base: string)
    ensures PublicUrl(base, "github.png") == base + "github.png"
    ensures PublicUrl(base, "//github.png") == base + "github.png"
  {
    SlashesIgnored(base, 2, "github.png");
    assert Slashes(2) + "github.png" == "//github.png";
  }
}
