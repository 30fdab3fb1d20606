/**
 * The site-entry normalisation shared by the options page (`getSiteInputs`)
 * and onboarding (`addSite`): trim, lower-case, drop a leading `http://` or
 * `https://`, drop a leading `www.`, keep what precedes the first "/".
 */
module Sites {
  import opened Strings

  /** `replace(/^https?:\/\//, '')`. */
  function StripScheme(s: string): (r: string)
    ensures |r| <= |s| && r == s[|s| - |r|..]
    ensures StartsWith(s, "https://") ==> s == "https://" + r
    ensures !StartsWith(s, "https://") && StartsWith(s, "http://") ==> s == "http://" + r
    ensures !StartsWith(s, "https://") && !StartsWith(s, "http://") ==> r == s
  {
    if StartsWith(s, "https://") then s[8..] else StripPrefix(s, "http://")
  }

  /** `replace(/^www\./, '')`. */
  function StripWww(s: string): (r: string)
    ensures StartsWith(s, "www.") ==> s == "www." + r
    ensures !StartsWith(s, "www.") ==> r == s
  {
    StripPrefix(s, "www.")
  }

  /** `split('/')[0]`: the text before the first slash. */
  function BeforeSlash(s: string): (r: string)
    ensures |r| <= |s| && r == s[..|r|]
    ensures forall i :: 0 <= i < |r| ==> r[i] != '/'
    ensures |r| < |s| ==> s[|r|] == '/'
  {
    s[..IndexOf(s, '/')]
  }

  /** The three cuts applied to the trimmed, lower-cased entry. */
  function Cuts(s: string): (r: string)
    ensures forall i :: 0 <= i < |r| ==> r[i] != '/'
  {
    BeforeSlash(StripWww(StripScheme(s)))
  }

  /** The cuts only drop characters, so lower-case text stays lower-case. */
  lemma CutsKeepLower(s: string)
    requires IsLower(s)
    ensures IsLower(Cuts(s))
  {
    var a := StripScheme(s);
    SliceKeepsLower(s, |s| - |a|, |s|);
    var b := StripWww(a);
    if StartsWith(a, "www.") {
      assert b == a[4..];
      SliceKeepsLower(a, 4, |a|);
    }
    var c := BeforeSlash(b);
    SliceKeepsLower(b, 0, |c|);
  }

  /** Any slice of lower-case text is lower-case. */
  lemma SliceKeepsLower(s: string, i: nat, j: nat)
    requires IsLower(s) && i <= j <= |s|
    ensures IsLower(s[i..j])
  {
    forall k | 0 <= k < j - i ensures !IsUpper(s[i..j][k]) {
      assert s[i..j][k] == s[i + k];
    }
  }

  /** What a typed site entry is stored as. */
  function NormalizeSite(entry: string): (r: string)
    ensures forall i :: 0 <= i < |r| ==> r[i] != '/'
    ensures IsLower(r)
  {
    LowerIsLower(Trim(entry));
    CutsKeepLower(Lower(Trim(entry)));
    Cuts(Lower(Trim(entry)))
  }

  /** An entry that is blank after trimming normalises to nothing. */
  lemma BlankEntryIsDropped(entry: string)
    requires Trim(entry) == ""
    ensures NormalizeSite(entry) == ""
  {
  }

  /** A bare lower-case host name with no surrounding space is stored as typed. */
  lemma {:induction false} PlainHostIsKept(host: string)
    requires host != [] && !IsSpace(host[0]) && !IsSpace(host[|host| - 1])
    requires IsLower(host) && forall i :: 0 <= i < |host| ==> host[i] != '/'
    requires !StartsWith(host, "http://") && !StartsWith(host, "https://") && !StartsWith(host, "www.")
    ensures NormalizeSite(host) == host
  {
    assert TrimStart(host) == host;
    assert Trim(host) == host;
    LowerOfLower(host);
    assert IndexOf(host, '/') == |host|;
  }

  /** The scheme cut removes exactly a leading `http://` or `https://`. */
  lemma SchemeCut(x: string, scheme: string)
    requires scheme == "https://" || scheme == "http://"
    requires |scheme| <= |x| && x[..|scheme|] == scheme
    ensures StripScheme(x) == x[|scheme|..]
  {
    if scheme == "http://" {
      assert x[4] == ':';
    }
  }

  /** The `www.` cut removes a `www.` that is there. */
  lemma WwwCut(x: string)
    requires 4 <= |x| && x[..4] == "www."
    ensures StripWww(x) == x[4..]
  {
  }

  /** The `www.` cut leaves a host alone that does not start with `www.`. */
  lemma NoWwwCut(x: string, h: string)
    requires !StartsWith(h, "www.")
    requires |h| < |x| && x[|h|] == '/'
    requires forall i :: 0 <= i < |h| ==> x[i] == h[i]
    ensures StripWww(x) == x
  {
    if |h| >= 4 {
      assert x[..4] == h[..4];
    } else {
      assert x[|h|] == '/';
    }
  }

  /** The slash cut keeps a host that is followed by a slash. */
  lemma SlashCut(b: string, h: string)
    requires forall i :: 0 <= i < |h| ==> h[i] != '/'
    requires |h| < |b| && b[|h|] == '/'
    requires forall i :: 0 <= i < |h| ==> b[i] == h[i]
    ensures BeforeSlash(b) == h
  {
  }

  /** The three cuts after lower-casing keep exactly the host of an address. */
  lemma CutsKeepHost(x: string, scheme: string, www: bool, h: string)
    requires scheme == "https://" || scheme == "http://"
    requires forall i :: 0 <= i < |h| ==> h[i] != '/'
    requires www || !StartsWith(h, "www.")
    requires var k := |scheme| + (if www then 4 else 0);
      k + |h| < |x| && x[..|scheme|] == scheme && (www ==> x[|scheme|..k] == "www.")
      && x[k + |h|] == '/' && forall i :: 0 <= i < |h| ==> x[k + i] == h[i]
    ensures Cuts(x) == h
  {
    SchemeCut(x, scheme);
    var a := x[|scheme|..];
    var k := |scheme| + (if www then 4 else 0);
    if www {
      assert a[..4] == "www.";
      WwwCut(a);
      assert a[4..] == x[k..];
    } else {
      NoWwwCut(a, h);
    }
    SlashCut(x[k..], h);
  }


  /**
   * After trimming and lower-casing, an address with a scheme and optionally
   * `www.` comes down to its host: the scheme, the `www.` and everything from
   * the first slash on are dropped.
   */
  lemma CutsOfAddress(scheme: string, www: bool, host: string, rest: string)
    requires scheme == "https://" || scheme == "http://"
    requires forall i :: 0 <= i < |host| ==> host[i] != '/'
    requires www || !StartsWith(host, "www.")
    ensures Cuts(scheme + (if www then "www." else "") + host + "/" + rest) == host
  {
    var w := if www then "www." else "";
    var x := scheme + w + host + "/" + rest;
    var k := |scheme| + |w|;
    assert x[..|scheme|] == scheme;
    assert www ==> x[|scheme|..k] == "www.";
    assert forall i :: 0 <= i < |host| ==> x[k + i] == host[i];
    assert x[k + |host|] == '/';
    CutsKeepHost(x, scheme, www, host);
  }
}
