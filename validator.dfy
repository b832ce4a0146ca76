/**
 * The page's YouTube-URL check: the anchored pattern
 *   optional "http://" or "https://", then "www.youtube.com", "youtube" or
 *   "youtu.be", then "/", then one or more characters other than a line
 *   terminator,
 * matched by hand, and proved equal to a grammar that states the accepted
 * strings as a concatenation of their parts.
 */
module Validator {
  import opened Strings

  const Http := "http://"
  const Https := "https://"
  const HostWww := "www.youtube.com"
  const HostYoutube := "youtube"
  const HostYoutuBe := "youtu.be"

  /** The characters a JavaScript `.` does not match when the `s` flag is absent. */
  predicate IsLineTerminator(c: char) {
    c == '\n' || c == '\r' || c == '\U{2028}' || c == '\U{2029}'
  }

  /** What `.+$` accepts: one or more characters, none a line terminator. */
  predicate IsPath(p: string) {
    |p| >= 1 && forall k :: 0 <= k < |p| ==> !IsLineTerminator(p[k])
  }

  /** `t` is `host`, then "/", then a path. */
  predicate HostThenPath(t: string, host: string) {
    |host| < |t| && t[..|host|] == host && t[|host|] == '/' && IsPath(t[|host| + 1..])
  }

  /** The part of the pattern after the optional scheme. */
  predicate AfterScheme(t: string) {
    HostThenPath(t, HostWww) || HostThenPath(t, HostYoutube) || HostThenPath(t, HostYoutuBe)
  }

  /** The validator: the scheme group is tried as "https://", as "http://", and left out. */
  predicate IsYouTubeUrl(url: string) {
    || (HasPrefix(url, Https) && AfterScheme(url[|Https|..]))
    || (HasPrefix(url, Http) && AfterScheme(url[|Http|..]))
    || AfterScheme(url)
  }

  // The reference grammar.

  ghost predicate IsScheme(scheme: string) {
    scheme == "" || scheme == Http || scheme == Https
  }

  ghost predicate IsHost(host: string) {
    host == HostWww || host == HostYoutube || host == HostYoutuBe
  }

  function Compose(scheme: string, host: string, path: string): string {
    scheme + host + "/" + path
  }

  /** `url` splits into an optional scheme, a host, "/" and a path. */
  ghost predicate InPattern(url: string) {
    exists scheme, host, path ::
      Compose(scheme, host, path) == url && IsScheme(scheme) && IsHost(host) && IsPath(path)
  }

  lemma HostThenPathOf(host: string, path: string)
    requires IsPath(path)
    ensures HostThenPath(host + "/" + path, host)
  {
    var t := host + "/" + path;
    assert t[..|host|] == host;
    assert t[|host| + 1..] == path;
  }

  lemma HostThenPathSplit(t: string, host: string)
    requires HostThenPath(t, host)
    ensures t == host + "/" + t[|host| + 1..]
  {
    assert t == t[..|host|] + [t[|host|]] + t[|host| + 1..];
  }

  lemma InPatternOf(scheme: string, host: string, path: string)
    requires IsScheme(scheme) && IsHost(host) && IsPath(path)
    ensures InPattern(Compose(scheme, host, path))
  {
  }

  /** A string that is `scheme`, then `host`, "/" and a path, is in the grammar. */
  lemma {:induction false} InPatternFromParts(url: string, scheme: string, host: string)
    requires IsScheme(scheme) && IsHost(host)
    requires HasPrefix(url, scheme) && HostThenPath(url[|scheme|..], host)
    ensures InPattern(url)
  {
    var t := url[|scheme|..];
    var path := t[|host| + 1..];
    HostThenPathSplit(t, host);
    assert url == scheme + t by { assert url == url[..|scheme|] + url[|scheme|..]; }
    assert Compose(scheme, host, path) == scheme + (host + "/" + path);
    InPatternOf(scheme, host, path);
  }

  /** A string that is `scheme` followed by the rest of the pattern is in the grammar. */
  lemma {:induction false} InPatternAfter(url: string, scheme: string)
    requires IsScheme(scheme) && HasPrefix(url, scheme) && AfterScheme(url[|scheme|..])
    ensures InPattern(url)
  {
    var t := url[|scheme|..];
    if HostThenPath(t, HostWww) {
      InPatternFromParts(url, scheme, HostWww);
    } else if HostThenPath(t, HostYoutube) {
      InPatternFromParts(url, scheme, HostYoutube);
    } else {
      InPatternFromParts(url, scheme, HostYoutuBe);
    }
  }

  /** Everything the validator accepts is in the grammar. */
  lemma {:induction false} ValidatorSound(url: string)
    requires IsYouTubeUrl(url)
    ensures InPattern(url)
  {
    if HasPrefix(url, Https) && AfterScheme(url[|Https|..]) {
      InPatternAfter(url, Https);
    } else if HasPrefix(url, Http) && AfterScheme(url[|Http|..]) {
      InPatternAfter(url, Http);
    } else {
      assert url[|""|..] == url;
      InPatternAfter(url, "");
    }
  }

  /** The rest of the pattern starts with the first letter of a host. */
  lemma AfterSchemeStart(t: string)
    requires AfterScheme(t)
    ensures t[0] == 'w' || t[0] == 'y'
  {
    if HostThenPath(t, HostWww) {
      assert t[..|HostWww|][0] == 'w';
    } else if HostThenPath(t, HostYoutube) {
      assert t[..|HostYoutube|][0] == 'y';
    } else {
      assert t[..|HostYoutuBe|][0] == 'y';
    }
  }

  /** `scheme`, then a host, "/" and a path, is accepted by the validator. */
  lemma {:induction false} AcceptedFromParts(scheme: string, host: string, path: string)
    requires IsScheme(scheme) && IsHost(host) && IsPath(path)
    ensures IsYouTubeUrl(Compose(scheme, host, path))
  {
    var t := host + "/" + path;
    var url := Compose(scheme, host, path);
    assert url == scheme + t;
    PrefixOfJoin(scheme, t);
    HostThenPathOf(host, path);
    assert AfterScheme(t);
    if scheme == "" {
      assert url == t;
    }
  }

  /** Everything in the grammar is accepted by the validator. */
  lemma {:induction false} ValidatorComplete(url: string)
    requires InPattern(url)
    ensures IsYouTubeUrl(url)
  {
    var scheme, host, path :|
      Compose(scheme, host, path) == url && IsScheme(scheme) && IsHost(host) && IsPath(path);
    AcceptedFromParts(scheme, host, path);
  }

  /** The validator accepts exactly the strings of the grammar. */
  lemma ValidatorIsPattern(url: string)
    ensures IsYouTubeUrl(url) <==> InPattern(url)
  {
    if IsYouTubeUrl(url) {
      ValidatorSound(url);
    }
    if InPattern(url) {
      ValidatorComplete(url);
    }
  }

  /** Inputs the pattern accepts, including a bare "youtube" host with no scheme and no domain. */
  lemma AcceptExamples()
    ensures IsYouTubeUrl("https://www.youtube.com/watch?v=abc123")
    ensures IsYouTubeUrl("youtube/x")
    ensures IsYouTubeUrl("http://youtu.be/x")
  {
    var a := "https://www.youtube.com/watch?v=abc123";
    assert HasPrefix(a, Https) && a[|Https|..] == HostWww + "/" + "watch?v=abc123";
    HostThenPathOf(HostWww, "watch?v=abc123");
    HostThenPathOf(HostYoutube, "x");
    var c := "http://youtu.be/x";
    assert HasPrefix(c, Http) && c[|Http|..] == HostYoutuBe + "/" + "x";
    HostThenPathOf(HostYoutuBe, "x");
  }

  /** "youtube.com" is not an accepted host: after "youtube" the pattern wants "/". */
  lemma RejectsYoutubeDotCom()
    ensures !IsYouTubeUrl("https://youtube.com/x")
  {
    var b := "https://youtube.com/x";
    var t := b[|Https|..];
    assert t == "youtube.com/x";
    assert t[|HostYoutube|] == '.';
    assert t[..|HostYoutuBe|] != HostYoutuBe by { assert t[5] != HostYoutuBe[5]; }
    assert !HasPrefix(b, Http) by { assert b[4] != Http[4]; }
    if AfterScheme(b) { AfterSchemeStart(b); }
  }

  /** Inputs that start with neither a scheme nor a host are rejected. */
  lemma RejectsOtherStarts()
    ensures !IsYouTubeUrl("m.youtube.com/x")
    ensures !IsYouTubeUrl("not a url")
    ensures !IsYouTubeUrl(" ")
    ensures !IsYouTubeUrl("")
  {
    RejectsStart("m.youtube.com/x");
    RejectsStart("not a url");
    RejectsStart(" ");
  }

  lemma RejectsStart(url: string)
    requires |url| > 0 && url[0] != 'h' && url[0] != 'w' && url[0] != 'y'
    ensures !IsYouTubeUrl(url)
  {
    assert !HasPrefix(url, Https) by { assert url[0] != Https[0]; }
    assert !HasPrefix(url, Http) by { assert url[0] != Http[0]; }
    if AfterScheme(url) { AfterSchemeStart(url); }
  }

  /** A host other than the three is rejected even behind a scheme. */
  lemma RejectsOtherHost()
    ensures !IsYouTubeUrl("http://example.com/x")
  {
    var u := "http://example.com/x";
    assert !HasPrefix(u, Https) by { assert u[4] != Https[4]; }
    assert HasPrefix(u, Http);
    var t := u[|Http|..];
    assert t[0] == 'e';
    if AfterScheme(t) { AfterSchemeStart(t); }
    if AfterScheme(u) { AfterSchemeStart(u); }
  }

  /** The path must hold at least one character, and no line terminator. */
  lemma RejectsBadPath()
    ensures !IsYouTubeUrl("youtube/")
    ensures !IsYouTubeUrl("youtube/a\nb")
  {
    NoSchemeBranch("youtube/");
    var d := "youtube/a\nb";
    assert d[|HostYoutube| + 1..][1] == '\n';
    NoSchemeBranch(d);
  }

  lemma NoSchemeBranch(url: string)
    requires |url| > 0 && url[0] == 'y'
    ensures IsYouTubeUrl(url) <==> AfterScheme(url)
  {
    assert !HasPrefix(url, Https) by { assert url[0] != Https[0]; }
    assert !HasPrefix(url, Http) by { assert url[0] != Http[0]; }
  }
}
