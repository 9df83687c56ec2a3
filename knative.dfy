/** The Knative Serving compute backend (`KnativeServingBackend` in
    `pywren_ibm_cloud/compute/backends/knative/knative.py`): the service-name encoding
    of a runtime, the runtime key, the host cache, the two watch loops of image build
    and service creation, the classification of invocation responses and the
    sequencing of runtime creation, listing and deletion.

    The Kubernetes cluster and the HTTP endpoint are oracles: every answer the code
    would receive is a parameter (a lookup result, an event stream as a sequence of
    records, an HTTP outcome), and every request it issues is appended to `calls`. */
module Knative {
  import opened Wrappers
  import opened PyStr
  import opened PyValues
  import Utils

  // ---------------------------------------------------------------------------
  // Errors

  /** The ways the modelled operations fail (each is an exception in the code). */
  datatype KnativeError =
    | NotAServiceName      // `rsplit('--', 1)` found no "--" to unpack
    | BadMemory            // `int(...)` of the memory part failed
    | UnsupportedPython    // no default image for this Python version
    | ServiceLookupFailed  // the service could not be read from the cluster
    | NoPodName            // the taskrun never reported a pod name
    | ImageBuildFailed     // the build pod reached phase "Failed"
    | ServiceWatchFailed   // a readiness check raised (missing key or index)
    | NoServiceUrl         // the watch ended without any service URL
    | MetaInvokeFailed     // the "/preinstalls" probe could not be invoked
    | BadRuntimeMeta       // the probe result is falsy or has no "preinstalls"
    | InvalidIPv6Url       // `urlparse` of the cluster met an unbalanced '[' or ']'

  // ---------------------------------------------------------------------------
  // Service names

  /** `str(n)` uses only digits and '-'. */
  lemma IntToStrChars(n: int)
    ensures forall i :: 0 <= i < |IntToStr(n)| ==> IsDigit(IntToStr(n)[i]) || IntToStr(n)[i] == '-'
  {
    var d := NatToStr(if n < 0 then -n else n);
    assert forall i :: 0 <= i < |d| ==> IsDigit(d[i]);
  }

  /** `_format_service_name`: '/' and ':' of the image become "--", followed by
      "--<memory>mb". A service name is a valid name for a cluster resource in that it
      holds neither '/' nor ':'. */
  function FormatServiceName(image: string, memory: int): (name: string)
    ensures '/' !in name && ':' !in name && name != []
  {
    ReplaceCharOut(image, '/', "--", '/');
    ReplaceCharOut(Replace(image, "/", "--"), ':', "--", '/');
    ReplaceCharOut(Replace(image, "/", "--"), ':', "--", ':');
    IntToStrChars(memory);
    EncodeImage(image) + "--" + IntToStr(memory) + "mb"
  }

  /** The runtime part of a service name: '/' and ':' of the image become "--". */
  function EncodeImage(image: string): string {
    Replace(Replace(image, "/", "--"), ":", "--")
  }

  /** `_unformat_service_name`: split at the last "--"; the first "--" of the runtime part
      becomes '/', every later one ':'; the memory is the integer left after removing
      "mb". */
  function UnformatServiceName(name: string): (r: Result<(string, int), KnativeError>)
    ensures !Contains(name, "--") ==> r == Err(NotAServiceName)
  {
    match RSplitOnce(name, "--")
    case None => Err(NotAServiceName)
    case Some((runtime, mem)) =>
      var image := Replace(ReplaceFirst(runtime, "--", "/"), "--", ":");
      match ParseInt(Replace(mem, "mb", ""))
      case None => Err(BadMemory)
      case Some(m) => Ok((image, m))
  }

  /** A part of an image name that survives the encoding: non-empty, without '/' or ':',
      without "--" and not ending in '-'. */
  predicate NamePart(p: string) {
    p != [] && '/' !in p && ':' !in p && !Contains(p, "--") && p[|p| - 1] != '-'
  }

  /** A tag that survives the encoding: without '/', ':' or "--". */
  predicate TagPart(t: string) {
    '/' !in t && ':' !in t && !Contains(t, "--")
  }

  /** The image `user/repo` or `user/repo:tag`. */
  function ImageName(user: string, repo: string, tag: Option<string>): string {
    user + "/" + repo + (if tag.Some? then ":" + tag.value else "")
  }

  /** No "--" in x as a condition on its characters. */
  predicate NoDoubleDash(x: string) {
    forall j :: 0 <= j < |x| - 1 ==> !(x[j] == '-' && x[j + 1] == '-')
  }

  lemma NoDoubleDashOf(x: string)
    ensures !Contains(x, "--") <==> NoDoubleDash(x)
  {
    if Contains(x, "--") {
      var i := Find(x, "--").value;
      OccursAtPair(x, '-', '-', i);
      assert x[i] == '-' && x[i + 1] == '-';
    } else {
      forall j | 0 <= j < |x| - 1 ensures !(x[j] == '-' && x[j + 1] == '-') {
        OccursAtPair(x, '-', '-', j);
      }
    }
  }

  /** "--" cannot start inside a prefix without "--" that does not end in '-'. */
  lemma NoSeparatorBefore(x: string, y: string)
    requires NoDoubleDash(x) && (x == [] || x[|x| - 1] != '-')
    ensures forall j: nat :: j < |x| ==> !OccursAt(x + y, "--", j)
  {
    forall j: nat | j < |x| ensures !OccursAt(x + y, "--", j) {
      OccursAtPair(x + y, '-', '-', j);
      assert (x + y)[j] == x[j];
      if j + 1 < |x| {
        assert (x + y)[j + 1] == x[j + 1];
      }
    }
  }

  /** `rsplit(sep, 1)` splits at the occurrence after which `sep` no longer occurs. */
  lemma RSplitAtLast(x: string, sep: string, y: string)
    requires sep != []
    requires forall j: nat :: |x| < j ==> !OccursAt(x + sep + y, sep, j)
    ensures RSplitOnce(x + sep + y, sep) == Some((x, y))
  {
    var s := x + sep + y;
    assert s[|x|..|x| + |sep|] == sep;
    assert OccursAt(s, sep, |x|);
    var (a, b) := RSplitOnce(s, sep).value;
    assert s[|a|..|a| + |sep|] == sep;
    assert OccursAt(s, sep, |a|);
    assert |a| == |x|;
    assert a == s[..|x|] == x;
  }

  /** The memory part has no '-', so the last "--" is the one before it. */
  lemma RSplitBeforeMemory(runtime: string, mem: string)
    requires '-' !in mem
    ensures RSplitOnce(runtime + "--" + mem, "--") == Some((runtime, mem))
  {
    var s := runtime + "--" + mem;
    forall j: nat | |runtime| < j ensures !OccursAt(s, "--", j) {
      OccursAtPair(s, '-', '-', j);
      if j + 1 < |s| {
        assert s[j + 1] == mem[j + 1 - |runtime| - 2];
      }
    }
    RSplitAtLast(runtime, "--", mem);
  }

  /** The first "--" of `x + "--" + y` is the one after `x`. */
  lemma FindFirstSeparator(x: string, y: string)
    requires NoDoubleDash(x) && (x == [] || x[|x| - 1] != '-')
    ensures Find(x + "--" + y, "--") == Some(|x|)
  {
    var s := x + "--" + y;
    NoSeparatorBefore(x, "--" + y);
    assert x + ("--" + y) == s;
    assert s[|x|..|x| + 2] == "--";
    assert OccursAt(s, "--", |x|);
  }

  lemma ReplaceDashPairHead(t: string, rep: string)
    ensures Replace("--" + t, "--", rep) == rep + Replace(t, "--", rep)
  {
    var s := "--" + t;
    assert s[..2] == "--" && s[2..] == t;
  }

  lemma ReplaceCharOnly(c: char, rep: string)
    ensures Replace([c], [c], rep) == rep
  {
    assert [c][..1] == [c] && [c][1..] == [];
  }

  /** The digits of the memory followed by "mb" lose exactly the "mb". */
  lemma StripMb(m: nat)
    ensures Replace(NatToStr(m) + "mb", "mb", "") == NatToStr(m)
  {
    var d := NatToStr(m);
    forall j: nat | j < |d| ensures !OccursAt(d + "mb", "mb", j) {
      OccursAtPair(d + "mb", 'm', 'b', j);
      assert (d + "mb")[j] == d[j];
    }
    ReplaceNoMatchPrefix(d, "mb", "mb", "");
    var mb := "mb";
    assert mb[..2] == mb && mb[2..] == [];
  }

  /** Replacing a single element that occurs once, between `a` and `b`. */
  lemma ReplaceCharBetween(a: string, c: char, b: string, rep: string)
    requires c !in a && c !in b
    ensures Replace(a + [c] + b, [c], rep) == a + rep + b
  {
    ReplaceCharConcat(a, [c] + b, c, rep);
    ReplaceCharConcat([c], b, c, rep);
    ReplaceAbsent(a, [c], rep);
    ReplaceAbsent(b, [c], rep);
    ReplaceCharOnly(c, rep);
    assert a + [c] + b == a + ([c] + b);
  }

  /** Encoding an image `user/repo[:tag]`: the runtime part becomes `user--repo[--tag]`. */
  lemma EncodedImage(user: string, repo: string, tag: Option<string>)
    requires NamePart(user) && NamePart(repo) && (tag.Some? ==> TagPart(tag.value))
    ensures EncodeImage(ImageName(user, repo, tag)) ==
      user + "--" + repo + (if tag.Some? then "--" + tag.value else "")
  {
    var t1 := if tag.Some? then ":" + tag.value else "";
    assert ImageName(user, repo, tag) == user + ['/'] + (repo + t1);
    ReplaceCharBetween(user, '/', repo + t1, "--");
    var step := user + "--" + repo;
    assert ':' !in step;
    if tag.Some? {
      assert user + "--" + (repo + t1) == step + [':'] + tag.value;
      ReplaceCharBetween(step, ':', tag.value, "--");
    } else {
      assert user + "--" + (repo + t1) == step;
      ReplaceAbsent(step, ":", "--");
    }
  }

  /** The first "--" of `user--rest` is the one after `user`, and becomes '/'. */
  lemma FirstSeparatorToSlash(user: string, rest: string)
    requires NamePart(user)
    ensures ReplaceFirst(user + "--" + rest, "--", "/") == (user + "/") + rest
  {
    var runtime := user + "--" + rest;
    NoDoubleDashOf(user);
    FindFirstSeparator(user, rest);
    assert runtime == user + "--" + rest;
    assert runtime[..|user|] == user && runtime[|user| + 2..] == rest;
  }

  /** No "--" starts inside `user/`, so replacing "--" leaves it alone. */
  lemma SlashPrefixKept(user: string, rest: string)
    requires NamePart(user)
    ensures Replace((user + "/") + rest, "--", ":") == (user + "/") + Replace(rest, "--", ":")
  {
    NoDoubleDashOf(user);
    assert NoDoubleDash(user + "/") by {
      forall j | 0 <= j < |user + "/"| - 1
        ensures !((user + "/")[j] == '-' && (user + "/")[j + 1] == '-')
      {
        if j + 1 < |user| {
          assert (user + "/")[j] == user[j] && (user + "/")[j + 1] == user[j + 1];
        }
      }
    }
    NoSeparatorBefore(user + "/", rest);
    ReplaceNoMatchPrefix(user + "/", rest, "--", ":");
  }

  /** The remaining "--" (before the tag, if any) becomes ':'. */
  lemma TagSeparatorToColon(repo: string, tag: Option<string>)
    requires NamePart(repo) && (tag.Some? ==> TagPart(tag.value))
    ensures Replace(repo + (if tag.Some? then "--" + tag.value else ""), "--", ":") ==
              repo + (if tag.Some? then ":" + tag.value else "")
  {
    NoDoubleDashOf(repo);
    var t2 := if tag.Some? then "--" + tag.value else "";
    if tag.Some? {
      NoSeparatorBefore(repo, t2);
      ReplaceNoMatchPrefix(repo, t2, "--", ":");
      ReplaceDashPairHead(tag.value, ":");
      ReplaceNoMatch(tag.value, "--", ":");
    } else {
      assert repo + t2 == repo;
      ReplaceNoMatch(repo, "--", ":");
      assert repo + "" == repo;
    }
  }

  /** Decoding the runtime part `user--repo[--tag]` gives back `user/repo[:tag]`. */
  lemma DecodedImage(user: string, repo: string, tag: Option<string>)
    requires NamePart(user) && NamePart(repo) && (tag.Some? ==> TagPart(tag.value))
    ensures var runtime := user + "--" + repo + (if tag.Some? then "--" + tag.value else "");
      Replace(ReplaceFirst(runtime, "--", "/"), "--", ":") == ImageName(user, repo, tag)
  {
    var t2 := if tag.Some? then "--" + tag.value else "";
    var rest := repo + t2;
    assert user + "--" + repo + t2 == user + "--" + rest;
    FirstSeparatorToSlash(user, rest);
    SlashPrefixKept(user, rest);
    TagSeparatorToColon(repo, tag);
    assert ImageName(user, repo, tag) == (user + "/") + (repo + (if tag.Some? then ":" + tag.value else ""));
  }

  /** Decoding a service name gives back the image and memory it was made from, for an
      image `user/repo` or `user/repo:tag` whose parts survive the encoding (in
      particular any non-empty parts without '/', ':' or '-') and any memory. */
  lemma ServiceNameRoundTrip(user: string, repo: string, tag: Option<string>, memory: nat)
    requires NamePart(user) && NamePart(repo) && (tag.Some? ==> TagPart(tag.value))
    ensures UnformatServiceName(FormatServiceName(ImageName(user, repo, tag), memory)) ==
      Ok((ImageName(user, repo, tag), memory))
  {
    var image := ImageName(user, repo, tag);
    var runtime := user + "--" + repo + (if tag.Some? then "--" + tag.value else "");
    EncodedImage(user, repo, tag);
    var mem := NatToStr(memory) + "mb";
    assert FormatServiceName(image, memory) == runtime + "--" + mem;
    assert '-' !in mem by {
      assert forall i :: 0 <= i < |NatToStr(memory)| ==> IsDigit(NatToStr(memory)[i]);
    }
    RSplitBeforeMemory(runtime, mem);
    StripMb(memory);
    ParseIntOfIntToStr(memory);
    DecodedImage(user, repo, tag);
  }

  /** A part without '-' that is non-empty and has no '/' or ':' is a `NamePart`. */
  lemma DashFreeNamePart(p: string)
    requires p != [] && '/' !in p && ':' !in p && '-' !in p
    ensures NamePart(p) && TagPart(p)
  {
    NoDoubleDashOf(p);
  }

  /** Two well-formed runtimes share a service name only if image and memory agree. */
  lemma ServiceNameInjective(u1: string, r1: string, t1: Option<string>, m1: nat,
                             u2: string, r2: string, t2: Option<string>, m2: nat)
    requires NamePart(u1) && NamePart(r1) && (t1.Some? ==> TagPart(t1.value))
    requires NamePart(u2) && NamePart(r2) && (t2.Some? ==> TagPart(t2.value))
    requires FormatServiceName(ImageName(u1, r1, t1), m1) == FormatServiceName(ImageName(u2, r2, t2), m2)
    ensures ImageName(u1, r1, t1) == ImageName(u2, r2, t2) && m1 == m2
  {
    ServiceNameRoundTrip(u1, r1, t1, m1);
    ServiceNameRoundTrip(u2, r2, t2, m2);
  }

  lemma EncodedColon(a: string, b: string)
    requires NamePart(a) && NamePart(b)
    ensures EncodeImage(a + ":" + b) == a + "--" + b
  {
    assert a + ":" + b == a + [':'] + b;
    ReplaceAbsent(a + ":" + b, "/", "--");
    ReplaceCharBetween(a, ':', b, "--");
  }

  lemma SameServiceName(a: string, b: string, memory: nat)
    requires NamePart(a) && NamePart(b)
    ensures FormatServiceName(a + ":" + b, memory) == FormatServiceName(ImageName(a, b, None), memory)
  {
    EncodedColon(a, b);
    EncodedImage(a, b, None);
  }

  /** The encoding does not tell ':' from '/': `a:b` and `a/b` get the same service name,
      and that name decodes as `a/b`. So an image without a user part, such as
      `python:3.7`, is listed as `python/3.7`. */
  lemma ColonAndSlashCollide(a: string, b: string, memory: nat)
    requires NamePart(a) && NamePart(b)
    ensures FormatServiceName(a + ":" + b, memory) == FormatServiceName(ImageName(a, b, None), memory)
    ensures UnformatServiceName(FormatServiceName(a + ":" + b, memory)) == Ok((a + "/" + b, memory))
  {
    SameServiceName(a, b, memory);
    assert ImageName(a, b, None) == a + "/" + b;
    ServiceNameRoundTrip(a, b, None, memory);
  }

  // ---------------------------------------------------------------------------
  // Runtime key

  /** The six parts `urlparse` returns. */
  datatype ParsedUrl = ParsedUrl(
    scheme: string, netloc: string, path: string, params: string, query: string, fragment: string)

  /** `scheme_chars` of `urllib.parse`: ASCII letters, digits, '+', '-' and '.'. */
  predicate IsSchemeChar(c: char) {
    ('a' <= c <= 'z') || ('A' <= c <= 'Z') || ('0' <= c <= '9') || c == '+' || c == '-' || c == '.'
  }

  /** The characters that end a network location. */
  predicate IsNetlocEnd(c: char) { c == '/' || c == '?' || c == '#' }

  /** `str.lower()` on ASCII letters (a scheme holds no other letters). */
  function AsciiLower(s: string): (r: string)
    ensures |r| == |s|
    ensures forall k :: 0 <= k < |s| ==> (r[k] == s[k] <==> !('A' <= s[k] <= 'Z'))
  {
    seq(|s|, k requires 0 <= k < |s| => if 'A' <= s[k] <= 'Z' then (s[k] as int + 32) as char else s[k])
  }

  /** The schemes whose URLs `urlparse` splits into path and parameters (`uses_params`). */
  const UsesParams: seq<string> :=
    ["", "ftp", "hdl", "prospero", "http", "imap", "https", "shttp", "rtsp", "rtspu",
     "sip", "sips", "mms", "sftp", "tel"]

  /** The scheme `urlsplit` takes off `s`, lower-cased, and the rest of `s`. It splits at
      the first ':' when the text before it is "http", or when that text is a non-empty
      run of scheme characters and what follows the ':' is not a port number (it is
      empty or holds a non-digit); otherwise the scheme is empty and the rest is `s`. */
  function SplitUrlScheme(s: string): (r: (string, string))
    ensures r.0 == "" ==> r.1 == s
    ensures r.0 != "" ==>
      |r.0| < |s| && s[|r.0|] == ':' && r.1 == s[|r.0| + 1..] && r.0 == AsciiLower(s[..|r.0|]) && ':' !in s[..|r.0|]
  {
    match Find(s, ":")
    case None => ("", s)
    case Some(i) =>
      assert s[i..i + 1] == ":";
      assert forall j :: 0 <= j < i ==> s[j] != ':' by {
        forall j | 0 <= j < i ensures s[j] != ':' { OccursAtChar(s, ':', j); }
      }
      var rest := s[i + 1..];
      if i == 0 then ("", s)
      else if s[..i] == "http" then ("http", rest)
      else if (forall k :: 0 <= k < i ==> IsSchemeChar(s[k])) && (rest == [] || !AllDigits(rest)) then
        (AsciiLower(s[..i]), rest)
      else ("", s)
  }

  /** The index of the first '/', '?' or '#' of `u` at or after `j`, or `|u|`. */
  function NetlocEnd(u: string, j: nat): (d: nat)
    requires j <= |u|
    ensures j <= d <= |u|
    ensures forall k :: j <= k < d ==> !IsNetlocEnd(u[k])
    ensures d < |u| ==> IsNetlocEnd(u[d])
    decreases |u| - j
  {
    if j == |u| || IsNetlocEnd(u[j]) then j else NetlocEnd(u, j + 1)
  }

  /** `_splitparams`: the parameters follow the first ';' of the last path segment (of
      the whole path when it holds no '/'). */
  function SplitParams(url: string): (r: (string, string))
    ensures r.1 == "" || url == r.0 + ";" + r.1
    ensures ';' !in url ==> r == (url, "")
    ensures forall x :: x in r.0 || x in r.1 ==> x in url
  {
    var start := match RFind(url, "/") case Some(j) => j case None => 0;
    match FindFrom(url, ";", start)
    case None => (url, "")
    case Some(i) =>
      assert url[i..i + 1] == ";";
      assert url == url[..i] + ";" + url[i + 1..];
      (url[..i], url[i + 1..])
  }

  /** Python 3.7's `urlparse(s)`: the scheme (see `SplitUrlScheme`); after a leading
      "//" the network location, up to the first '/', '?' or '#'; then the fragment
      after the first '#', the query after the first '?' of what precedes it, and, for
      the schemes of `UsesParams`, the parameters after a ';' of the path's last
      segment. A network location with '[' but no ']', or ']' but no '[', raises
      `ValueError`. */
  function ParseUrl(s: string): (r: Result<ParsedUrl, KnativeError>)
    ensures r.Err? ==> r == Err(InvalidIPv6Url)
    ensures r.Ok? ==> forall k :: 0 <= k < |r.value.netloc| ==> !IsNetlocEnd(r.value.netloc[k])
    ensures r.Ok? ==> ('[' in r.value.netloc <==> ']' in r.value.netloc)
    ensures r.Ok? ==> '#' !in r.value.path && '#' !in r.value.params && '#' !in r.value.query
    ensures r.Ok? ==> '?' !in r.value.path && '?' !in r.value.params
    ensures r.Ok? && r.value.scheme != "" ==>
      |r.value.scheme| < |s| && s[|r.value.scheme|] == ':' && ':' !in s[..|r.value.scheme|]
  {
    var (scheme, u) := SplitUrlScheme(s);
    var (netloc, u1) := SplitNetloc(u);
    if ('[' in netloc) != (']' in netloc) then Err(InvalidIPv6Url)
    else
      var t := SplitTail(scheme, u1);
      Ok(ParsedUrl(scheme, netloc, t.0, t.1, t.2, t.3))
  }

  /** What follows the network location, as path, parameters, query and fragment: the
      fragment after the first '#', the query after the first '?' before it, and the
      parameters when the scheme uses them. */
  function SplitTail(scheme: string, u: string): (r: (string, string, string, string))
    ensures '#' !in r.0 && '#' !in r.1 && '#' !in r.2
    ensures '?' !in r.0 && '?' !in r.1
    ensures '#' !in u && '?' !in u && ';' !in u ==> r == (u, "", "", "")
  {
    var (u2, fragment) := FirstSplit(u, '#');
    var (u3, query) := FirstSplit(u2, '?');
    var (path, params) := if scheme in UsesParams && ';' in u3 then SplitParams(u3) else (u3, "");
    (path, params, query, fragment)
  }

  /** `_splitnetloc(u, 2)` after a leading "//", else no network location. */
  function SplitNetloc(u: string): (r: (string, string))
    ensures forall k :: 0 <= k < |r.0| ==> !IsNetlocEnd(r.0[k])
    ensures !StartsWith(u, "//") ==> r == ("", u)
  {
    if StartsWith(u, "//") then (var d := NetlocEnd(u, 2); (u[2..d], u[d..])) else ("", u)
  }

  /** `s.split(c, 1)` unpacked into two, with an empty second part when `c` is absent. */
  function FirstSplit(s: string, c: char): (r: (string, string))
    ensures s == r.0 + (if c in s then [c] else []) + r.1
    ensures c !in r.0
    ensures c !in s ==> r == (s, "")
    ensures forall x :: x in r.0 || x in r.1 ==> x in s
  {
    match SplitOnce(s, [c])
    case None =>
      assert c !in s by {
        forall j | 0 <= j < |s| ensures s[j] != c { OccursAtChar(s, c, j); }
      }
      (s, "")
    case Some((a, b)) =>
      assert c !in a by {
        forall j | 0 <= j < |a| ensures a[j] != c { OccursAtChar(s, c, j); assert s[j] == a[j]; }
      }
      assert s[|a|] == c;
      (a, b)
  }

  /** With a scheme of scheme characters, `scheme://host` followed by nothing or by a
      '/', '?' or '#' has `host` as its network location. */
  lemma ParseUrlNetloc(scheme: string, host: string, tail: string)
    requires scheme != [] && forall k :: 0 <= k < |scheme| ==> IsSchemeChar(scheme[k])
    requires forall k :: 0 <= k < |host| ==> !IsNetlocEnd(host[k])
    requires '[' in host <==> ']' in host
    requires tail == [] || IsNetlocEnd(tail[0])
    ensures ParseUrl(scheme + "://" + host + tail).Ok?
    ensures ParseUrl(scheme + "://" + host + tail).value.scheme == AsciiLower(scheme)
    ensures ParseUrl(scheme + "://" + host + tail).value.netloc == host
  {
    var u := "//" + host + tail;
    NetlocOf(host, tail);
    assert !AllDigits(u) by { assert !IsDigit(u[0]); }
    SchemeSplitAt(scheme, u);
    ParseUrlOfParts(scheme + ":" + u, AsciiLower(scheme), u, host, tail);
    SchemeSlashes(scheme, host, tail);
  }

  /** `scheme://host...` is `scheme`, ':' and `//host...`. */
  lemma SchemeSlashes(scheme: string, host: string, tail: string)
    ensures scheme + "://" + host + tail == scheme + ":" + ("//" + host + tail)
  {
    assert "://" == ":" + "//";
  }

  /** Without a scheme, `//host` followed by nothing or by a '/', '?' or '#' has `host`
      as its network location. */
  lemma ParseUrlNetlocNoScheme(host: string, tail: string)
    requires forall k :: 0 <= k < |host| ==> !IsNetlocEnd(host[k])
    requires '[' in host <==> ']' in host
    requires tail == [] || IsNetlocEnd(tail[0])
    ensures ParseUrl("//" + host + tail).Ok?
    ensures ParseUrl("//" + host + tail).value.scheme == ""
    ensures ParseUrl("//" + host + tail).value.netloc == host
  {
    var u := "//" + host + tail;
    NetlocOf(host, tail);
    NoSchemeBeforeSlash(u);
    ParseUrlOfParts(u, "", u, host, tail);
  }

  /** A string that starts with '/' has no scheme. */
  lemma NoSchemeBeforeSlash(s: string)
    requires s != [] && s[0] == '/'
    ensures SplitUrlScheme(s) == ("", s)
  {
    var r := SplitUrlScheme(s);
    if r.0 != "" {
      assert false;
    }
  }

  /** `ParseUrl` from the scheme split and the network location split of its input. */
  lemma ParseUrlOfParts(s: string, scheme: string, u: string, netloc: string, rest: string)
    requires SplitUrlScheme(s) == (scheme, u) && SplitNetloc(u) == (netloc, rest)
    requires '[' in netloc <==> ']' in netloc
    ensures var t := SplitTail(scheme, rest);
      ParseUrl(s) == Ok(ParsedUrl(scheme, netloc, t.0, t.1, t.2, t.3))
  {
  }

  /** After "//", the network location is `host` when a '/', '?' or '#' (or the end)
      follows it. */
  lemma NetlocOf(host: string, tail: string)
    requires forall k :: 0 <= k < |host| ==> !IsNetlocEnd(host[k])
    requires tail == [] || IsNetlocEnd(tail[0])
    ensures SplitNetloc("//" + host + tail) == (host, tail)
  {
    var u := "//" + host + tail;
    assert StartsWith(u, "//") by { assert u[..2] == "//"; }
    var d := NetlocEnd(u, 2);
    assert forall k :: 2 <= k < 2 + |host| ==> u[k] == host[k - 2];
    assert 2 + |host| < |u| ==> u[2 + |host|] == tail[0];
    assert d == 2 + |host|;
    assert u[2..d] == host && u[d..] == tail;
  }

  /** The first ':' of `a + ":" + b` is the one after `a` when `a` holds none. */
  lemma FirstColonAt(a: string, b: string)
    requires ':' !in a
    ensures Find(a + ":" + b, ":") == Some(|a|)
  {
    var s := a + ":" + b;
    OccursAtChar(s, ':', |a|);
    forall j: nat | j < |a| ensures !OccursAt(s, ":", j) {
      OccursAtChar(s, ':', j);
      assert s[j] == a[j];
    }
  }

  /** `scheme:rest` splits as `AsciiLower(scheme)` and `rest` when the scheme is made of
      scheme characters and `rest` is not a port number. */
  lemma SchemeSplitAt(scheme: string, rest: string)
    requires scheme != [] && forall k :: 0 <= k < |scheme| ==> IsSchemeChar(scheme[k])
    requires rest == [] || !AllDigits(rest)
    ensures SplitUrlScheme(scheme + ":" + rest) == (AsciiLower(scheme), rest)
  {
    var s := scheme + ":" + rest;
    FirstColonAt(scheme, rest);
    assert s[..|scheme|] == scheme && s[|scheme| + 1..] == rest;
    if scheme == "http" {
      assert AsciiLower(scheme) == scheme;
    }
  }

  /** A string `scheme:rest` whose `rest` is not a port number and neither starts with
      "//" nor holds '#', '?' or ';' is all path after the scheme: an Amazon resource
      name `arn:aws:eks:...` parses into scheme "arn" and path `aws:eks:...`. */
  lemma ParseUrlOpaque(scheme: string, rest: string)
    requires scheme != [] && forall k :: 0 <= k < |scheme| ==> IsSchemeChar(scheme[k])
    requires rest == [] || !AllDigits(rest)
    requires !StartsWith(rest, "//") && '#' !in rest && '?' !in rest && ';' !in rest
    ensures ParseUrl(scheme + ":" + rest) == Ok(ParsedUrl(AsciiLower(scheme), "", rest, "", "", ""))
  {
    SchemeSplitAt(scheme, rest);
  }

  /** `host:port` with a port of digits keeps the ':' in the path: the text before it is no
      scheme, since a port number follows. */
  lemma ParseUrlHostPort(host: string, port: string)
    requires host != [] && host != "http" && forall k :: 0 <= k < |host| ==> IsSchemeChar(host[k])
    requires port != [] && AllDigits(port)
    ensures ParseUrl(host + ":" + port) == Ok(ParsedUrl("", "", host + ":" + port, "", "", ""))
  {
    var s := host + ":" + port;
    NoSchemeBeforePort(host, port);
    HostPortPlain(host, port);
    assert SplitNetloc(s) == ("", s);
  }

  /** The text before a port number is not taken as a scheme. */
  lemma NoSchemeBeforePort(host: string, port: string)
    requires host != [] && host != "http" && forall k :: 0 <= k < |host| ==> IsSchemeChar(host[k])
    requires port != [] && AllDigits(port)
    ensures SplitUrlScheme(host + ":" + port) == ("", host + ":" + port)
  {
    var s := host + ":" + port;
    FirstColonAt(host, port);
    assert s[..|host|] == host && s[|host| + 1..] == port;
  }

  /** `host:port` holds no "//" at its start and no '#', '?' or ';'. */
  lemma HostPortPlain(host: string, port: string)
    requires host != [] && forall k :: 0 <= k < |host| ==> IsSchemeChar(host[k])
    requires AllDigits(port)
    ensures var s := host + ":" + port; !StartsWith(s, "//") && '#' !in s && '?' !in s && ';' !in s
  {
    var s := host + ":" + port;
    assert !StartsWith(s, "//") by { assert s[..2][0] == host[0]; }
    forall k | 0 <= k < |s| ensures IsSchemeChar(s[k]) || s[k] == ':' {
      if k > |host| { assert s[k] == port[k - |host| - 1]; }
    }
  }

  /** The cluster part of a runtime key: the network location, or the path when that is
      empty; a cluster that `urlparse` rejects raises. */
  function ClusterKey(cluster: string): (r: Result<string, KnativeError>)
    ensures r.Err? <==> ParseUrl(cluster).Err?
    ensures r.Err? ==> r == Err(InvalidIPv6Url)
  {
    match ParseUrl(cluster)
    case Err(e) => Err(e)
    case Ok(u) => Ok(if u.netloc != "" then u.netloc else u.path)
  }

  /** An EKS cluster named by its Amazon resource name is keyed by that name without
      its "arn:" scheme. */
  lemma ArnClusterKey(region: string, account: string, name: string)
    requires forall c :: c in region + account + name ==> c != '#' && c != '?' && c != ';'
    ensures ClusterKey("arn:aws:eks:" + region + ":" + account + ":cluster/" + name)
      == Ok("aws:eks:" + region + ":" + account + ":cluster/" + name)
  {
    var rest := "aws:eks:" + region + ":" + account + ":cluster/" + name;
    assert rest[0] == 'a';
    assert !StartsWith(rest, "//") by { assert rest[..2][0] == 'a'; }
    assert !AllDigits(rest) by { assert !IsDigit(rest[0]); }
    assert "arn:aws:eks:" + region + ":" + account + ":cluster/" + name == "arn" + ":" + rest;
    forall c | c in rest ensures c != '#' && c != '?' && c != ';' {
      if c in region || c in account || c in name {
        assert c in region + account + name;
      }
    }
    assert forall k :: 0 <= k < |"arn"| ==> IsSchemeChar("arn"[k]);
    ParseUrlOpaque("arn", rest);
  }

  /** `os.path.join(a, b)` for two components. */
  function PathJoin(a: string, b: string): string {
    if StartsWith(b, "/") then b
    else if a == "" || EndsWith(a, "/") then a + b
    else a + "/" + b
  }

  /** `os.path.join(clusterKey, namespace, service)` for a service name, which is
      non-empty and holds no '/'. */
  function JoinKey(clusterKey: string, namespace: string, service: string): (r: string)
    requires service != [] && '/' !in service
    ensures (clusterKey != "" && !EndsWith(clusterKey, "/") &&
             namespace != "" && namespace[0] != '/' && !EndsWith(namespace, "/")) ==>
      r == clusterKey + "/" + namespace + "/" + service
  {
    assert namespace != "" ==> namespace[..1] == [namespace[0]];
    assert service[..1] == [service[0]];
    PathJoin(PathJoin(clusterKey, namespace), service)
  }

  /** `get_runtime_key`: cluster key, namespace and service name joined as a path; it
      raises when the cluster does not parse. */
  function RuntimeKey(cluster: string, namespace: string, image: string, memory: int): (r: Result<string, KnativeError>)
    ensures r.Err? <==> ClusterKey(cluster).Err?
    ensures r.Err? ==> r == Err(InvalidIPv6Url)
    ensures ClusterKey(cluster).Ok? ==> var ck := ClusterKey(cluster).value;
      ck != "" && !EndsWith(ck, "/") && namespace != "" && namespace[0] != '/' && !EndsWith(namespace, "/") ==>
        r == Ok(ck + "/" + namespace + "/" + FormatServiceName(image, memory))
  {
    match ClusterKey(cluster)
    case Err(e) => Err(e)
    case Ok(ck) => Ok(JoinKey(ck, namespace, FormatServiceName(image, memory)))
  }

  /** Joining a path with a non-empty component without '/' makes that component the
      text after the last '/' (or the whole result when there is no '/'). */
  lemma JoinLastSegment(a: string, last: string)
    requires last != [] && '/' !in last
    ensures var p := PathJoin(a, last);
      (RSplitOnce(p, "/").None? ==> p == last) &&
      (RSplitOnce(p, "/").Some? ==> RSplitOnce(p, "/").value.1 == last)
  {
    var p := PathJoin(a, last);
    assert last[..1] == [last[0]];
    if a == "" {
      assert p == last;
      forall j: nat | j < |p| ensures !OccursAt(p, "/", j) {
        OccursAtChar(p, '/', j);
      }
    } else {
      var x := if EndsWith(a, "/") then a[..|a| - 1] else a;
      assert p == x + "/" + last by {
        if EndsWith(a, "/") {
          assert a == x + "/" by { assert a[|a| - 1..] == "/"; }
        }
      }
      forall j: nat | |x| < j ensures !OccursAt(p, "/", j) {
        if j < |p| {
          OccursAtChar(p, '/', j);
          assert p[j] == last[j - |x| - 1];
        }
      }
      RSplitAtLast(x, "/", last);
    }
  }

  /** The last path segment of a runtime key is the service name, so keys of different
      service names differ. */
  lemma RuntimeKeyLastSegment(cluster: string, namespace: string, image: string, memory: int)
    ensures RuntimeKey(cluster, namespace, image, memory).Ok? ==>
      var key := RuntimeKey(cluster, namespace, image, memory).value;
      var svc := FormatServiceName(image, memory);
      (RSplitOnce(key, "/").None? ==> key == svc) &&
      (RSplitOnce(key, "/").Some? ==> RSplitOnce(key, "/").value.1 == svc)
  {
    if ClusterKey(cluster).Ok? {
      JoinLastSegment(PathJoin(ClusterKey(cluster).value, namespace), FormatServiceName(image, memory));
    }
  }

  // ---------------------------------------------------------------------------
  // Watch loops: the taskrun and pod watch of the image build

  /** A taskrun event; `status` absent or null is `None`. */
  datatype TaskRunEvent = TaskRunEvent(status: Option<TaskRunStatus>)

  /** A taskrun status; a `podName` that is absent or null is `None`. */
  datatype TaskRunStatus = TaskRunStatus(podName: Option<string>)

  /** A pod event, reduced to the pod's phase. */
  datatype PodEvent = PodEvent(phase: string)

  /** The position of the first taskrun event that carries a status (the event count if none). */
  function FirstWithStatus(events: seq<TaskRunEvent>): (r: nat)
    ensures r <= |events|
    ensures forall i :: 0 <= i < r ==> events[i].status.None?
    ensures r < |events| ==> events[r].status.Some?
  {
    if events == [] then 0
    else if events[0].status.Some? then 0
    else 1 + FirstWithStatus(events[1..])
  }

  /** The pod name the taskrun watch yields: that of the first event with a status. */
  function PodNameOutcome(events: seq<TaskRunEvent>): Result<string, KnativeError> {
    var k := FirstWithStatus(events);
    if k < |events| && events[k].status.value.podName.Some? then Ok(events[k].status.value.podName.value)
    else Err(NoPodName)
  }

  /** Lines 271-281: watch taskrun events until one carries a status; its pod name is the
      result, and the watch fails when there is none. `consumed` counts the events read. */
  method AwaitPodName(events: seq<TaskRunEvent>) returns (r: Result<string, KnativeError>, consumed: nat)
    ensures consumed == Min(FirstWithStatus(events) + 1, |events|)
    ensures r == PodNameOutcome(events)
    ensures r.Ok? ==> exists i :: 0 <= i < consumed && events[i].status == Some(TaskRunStatus(Some(r.value)))
  {
    var podName: Option<string> := None;
    var stopped := false;
    var i := 0;
    while i < |events| && !stopped
      invariant 0 <= i <= |events|
      invariant !stopped ==> podName.None? && forall j :: 0 <= j < i ==> events[j].status.None?
      invariant stopped ==> 0 < i && i - 1 == FirstWithStatus(events) && podName == events[i - 1].status.value.podName
    {
      if events[i].status.Some? {
        podName := events[i].status.value.podName;
        stopped := true;
      }
      i := i + 1;
    }
    consumed := i;
    if podName.None? {
      r := Err(NoPodName);
    } else {
      r := Ok(podName.value);
    }
  }

  /** The position of the first pod event in a final phase (the event count if none). */
  function FirstFinalPhase(events: seq<PodEvent>): (r: nat)
    ensures r <= |events|
    ensures forall i :: 0 <= i < r ==> events[i].phase != "Succeeded" && events[i].phase != "Failed"
    ensures r < |events| ==> events[r].phase == "Succeeded" || events[r].phase == "Failed"
  {
    if events == [] then 0
    else if events[0].phase == "Succeeded" || events[0].phase == "Failed" then 0
    else 1 + FirstFinalPhase(events[1..])
  }

  /** The outcome of the pod watch: failure exactly when the first final phase is "Failed". */
  function PodPhaseOutcome(events: seq<PodEvent>): Result<(), KnativeError> {
    var k := FirstFinalPhase(events);
    if k < |events| && events[k].phase == "Failed" then Err(ImageBuildFailed) else Ok(())
  }

  /** Lines 283-290: watch pod events until phase "Succeeded" (done) or "Failed" (raise);
      a stream that ends first lets the build carry on. */
  method AwaitPodPhase(events: seq<PodEvent>) returns (r: Result<(), KnativeError>, consumed: nat)
    ensures consumed == Min(FirstFinalPhase(events) + 1, |events|)
    ensures r == PodPhaseOutcome(events)
    ensures r.Err? <==> exists i :: 0 <= i < consumed && events[i].phase == "Failed"
  {
    var i := 0;
    var stopped := false;
    r := Ok(());
    while i < |events| && !stopped
      invariant 0 <= i <= |events|
      invariant !stopped ==> r.Ok? && forall j :: 0 <= j < i ==> events[j].phase != "Succeeded" && events[j].phase != "Failed"
      invariant stopped ==> r.Ok? && 0 < i && i - 1 == FirstFinalPhase(events) && events[i - 1].phase == "Succeeded"
    {
      if events[i].phase == "Succeeded" {
        stopped := true;
      }
      if events[i].phase == "Failed" {
        return Err(ImageBuildFailed), i + 1;
      }
      i := i + 1;
    }
    consumed := i;
  }

  // ---------------------------------------------------------------------------
  // Watch loop: service readiness

  /** A service event; a `status` that is absent or null is `None`. */
  datatype ServiceEvent = ServiceEvent(status: Option<ServiceStatus>)

  /** A service status. `conditions` is `None` when the key is absent (reading it raises);
      each condition is its `status` field, `None` when that key is absent. `url` is
      `None` when absent or null. */
  datatype ServiceStatus = ServiceStatus(conditions: Option<seq<Option<string>>>, url: Option<string>)

  /** What one event tells the watch: keep waiting, stop, or raise. */
  datatype Verdict = Waiting | Ready | Broken

  /** Lines 353-354: `conditions and conditions[0..2]['status'] == 'True'`, evaluated left
      to right: an empty list waits, a missing index or key raises. */
  function ConditionsVerdict(cs: seq<Option<string>>): (v: Verdict)
    ensures v == Ready <==> |cs| >= 3 && forall k :: 0 <= k < 3 ==> cs[k] == Some("True")
    ensures v == Waiting <==>
              (cs == [] ||
               exists k ::
                 0 <= k < 3 && k < |cs| && cs[k].Some? && cs[k] != Some("True") &&
                 forall j :: 0 <= j < k ==> cs[j] == Some("True"))
  {
    if cs == [] then Waiting
    else if cs[0].None? then Broken
    else if cs[0] != Some("True") then Waiting
    else if |cs| < 2 || cs[1].None? then Broken
    else if cs[1] != Some("True") then Waiting
    else if |cs| < 3 || cs[2].None? then Broken
    else if cs[2] != Some("True") then Waiting
    else Ready
  }

  /** The verdict on one event: no status waits, a status without conditions raises. */
  function EventVerdict(e: ServiceEvent): Verdict {
    match e.status
    case None => Waiting
    case Some(st) =>
      match st.conditions
      case None => Broken
      case Some(cs) => ConditionsVerdict(cs)
  }

  /** The URL an event records (only a status whose conditions could be read gets that far). */
  function UrlOf(e: ServiceEvent): Option<string> {
    if e.status.Some? && e.status.value.conditions.Some? then e.status.value.url else None
  }

  /** The last URL recorded by any of `events`. */
  function LastUrl(events: seq<ServiceEvent>): (r: Option<string>)
    ensures r.Some? ==> exists i :: 0 <= i < |events| && UrlOf(events[i]) == r
    ensures r.None? ==> forall i :: 0 <= i < |events| ==> UrlOf(events[i]).None?
  {
    if events == [] then None
    else if UrlOf(events[|events| - 1]).Some? then UrlOf(events[|events| - 1])
    else LastUrl(events[..|events| - 1])
  }

  /** The position of the first event that does not leave the watch waiting. */
  function FirstStop(events: seq<ServiceEvent>): (r: nat)
    ensures r <= |events|
    ensures forall i :: 0 <= i < r ==> EventVerdict(events[i]) == Waiting
    ensures r < |events| ==> EventVerdict(events[r]) != Waiting
  {
    if events == [] then 0
    else if EventVerdict(events[0]) != Waiting then 0
    else 1 + FirstStop(events[1..])
  }

  /** Reading one more event updates the last URL seen when that event carries one. */
  lemma LastUrlStep(events: seq<ServiceEvent>, i: nat)
    requires i < |events|
    ensures LastUrl(events[..i + 1]) == if UrlOf(events[i]).Some? then UrlOf(events[i]) else LastUrl(events[..i])
  {
    assert events[..i + 1][..i] == events[..i];
    assert events[..i + 1][i] == events[i];
  }

  /** The outcome of the readiness watch: the stop event raising is a failure; otherwise
      the last URL seen up to the stop (or the end of the stream), failing if none. */
  function ServiceWatchOutcome(events: seq<ServiceEvent>): Result<string, KnativeError> {
    var k := FirstStop(events);
    if k < |events| && EventVerdict(events[k]) == Broken then Err(ServiceWatchFailed)
    else
      var u := LastUrl(events[..Min(k + 1, |events|)]);
      if u.Some? then Ok(u.value) else Err(NoServiceUrl)
  }

  /** Lines 343-358: read service events, remembering the last URL, until one reports
      the first three conditions "True". */
  method AwaitServiceReady(events: seq<ServiceEvent>) returns (r: Result<string, KnativeError>, consumed: nat)
    ensures consumed == Min(FirstStop(events) + 1, |events|)
    ensures r == ServiceWatchOutcome(events)
  {
    var url: Option<string> := None;
    var stopped := false;
    var i := 0;
    while i < |events| && !stopped
      invariant 0 <= i <= |events|
      invariant url == LastUrl(events[..i])
      invariant !stopped ==> i <= FirstStop(events)
      invariant stopped ==> 0 < i && i - 1 == FirstStop(events) && EventVerdict(events[i - 1]) == Ready
    {
      var e := events[i];
      LastUrlStep(events, i);
      var v := EventVerdict(e);
      if v == Broken {
        return Err(ServiceWatchFailed), i + 1;
      }
      if UrlOf(e).Some? {
        url := UrlOf(e);
      }
      if v == Ready {
        stopped := true;
      }
      i := i + 1;
    }
    consumed := i;
    if url.Some? {
      r := Ok(url.value);
    } else {
      r := Err(NoServiceUrl);
    }
  }

  /** A successful watch returns a URL that one of the events it read reported. */
  lemma ServiceUrlWasReported(events: seq<ServiceEvent>)
    requires ServiceWatchOutcome(events).Ok?
    ensures exists i ::
              0 <= i < Min(FirstStop(events) + 1, |events|) &&
              UrlOf(events[i]) == Some(ServiceWatchOutcome(events).value)
  {
    var n := Min(FirstStop(events) + 1, |events|);
    var u := LastUrl(events[..n]);
    var i :| 0 <= i < n && UrlOf(events[..n][i]) == u;
    assert events[..n][i] == events[i];
  }

  // ---------------------------------------------------------------------------
  // Invocation responses and host names

  /** What the HTTP exchange of an invocation produced: a transport failure, or a status
      and the body parsed as JSON (`None` when it does not parse). */
  datatype HttpOutcome = TransportFailed | Response(status: int, body: Option<Value>)

  /** Lines 510-529: status 200 or 202 with a parsed body gives the body (when the result
      is wanted) or its "activationId"; every other outcome is caught and gives `None`. */
  function ClassifyResponse(outcome: HttpOutcome, returnResult: bool): (r: Option<Value>)
    ensures r.Some? <==>
              (outcome.Response? && outcome.status in {200, 202} && outcome.body.Some? &&
               (returnResult || GetItem(outcome.body.value, "activationId").Some?))
    ensures r.Some? && returnResult ==> r == outcome.body
    ensures r.Some? && !returnResult ==> r == GetItem(outcome.body.value, "activationId")
    ensures outcome.Response? && outcome.status == 404 ==> r.None?
  {
    match outcome
    case TransportFailed => None
    case Response(status, body) =>
      if (status == 200 || status == 202) && body.Some? then
        if returnResult then body else GetItem(body.value, "activationId")
      else None
  }

  /** `url[7:]`: the host of an "http://" URL. */
  function HostOf(url: string): string {
    Slice(url, 7, |url|)
  }

  /** The endpoint `invoke` rebuilds from a cached host is the service URL itself when
      the service reported an "http://" URL. */
  lemma EndpointFromHttpHost(url: string)
    requires StartsWith(url, "http://")
    ensures "http://" + HostOf(url) == url
  {
    assert url == url[..7] + url[7..];
  }

  /** For an "https://" URL the cached host keeps the second '/' of the scheme, and the
      endpoint `invoke` rebuilds from it is not the service URL. */
  lemma HttpsHostKeepsSlash(rest: string)
    ensures HostOf("https://" + rest) == "/" + rest
    ensures "http://" + HostOf("https://" + rest) != "https://" + rest
  {
    assert ("https://" + rest)[7..] == "/" + rest;
    assert ("http://" + ("/" + rest))[4] == ':';
    assert ("https://" + rest)[4] == 's';
  }

  /** The image revision: "latest" for a development version, else the version itself. */
  function Revision(version: string): string {
    if Contains(version, "SNAPSHOT") then "latest" else version
  }

  /** A probe result `_generate_runtime_meta` accepts: truthy and holding "preinstalls". */
  predicate AcceptableMeta(meta: Option<Value>) {
    meta.Some? && Truthy(meta.value) && ContainsKey(meta.value, "preinstalls") == Ok(true)
  }

  /** The route an invocation posts to: the payload's "service_route", "/" by default. */
  function RouteOf(payload: map<string, Value>): (r: Value)
    ensures "service_route" !in payload ==> r == VStr("/")
  {
    if "service_route" in payload then payload["service_route"] else VStr("/")
  }

  // ---------------------------------------------------------------------------
  // Listing

  /** A listed service: its name and its `type` label (`None` when reading either raises). */
  datatype ServiceItem = ServiceItem(name: Option<string>, runtimeType: Option<string>)

  /** The runtime a listed service stands for, if it is a decodable pywren runtime. */
  function DecodedRuntime(item: ServiceItem): Option<(string, int)> {
    if item.runtimeType == Some("pywren-runtime") && item.name.Some? then
      match UnformatServiceName(item.name.value)
      case Ok(rt) => Some(rt)
      case Err(_) => None
    else None
  }

  /** What one service item contributes to `list_runtimes(filter)`. */
  function ListedOne(item: ServiceItem, filter: string): seq<(string, int)> {
    match DecodedRuntime(item)
    case Some(rt) => if filter == rt.0 || filter == "all" then [rt] else []
    case None => []
  }

  /** The runtimes `list_runtimes(filter)` reports for `items`, in order. */
  function Listed(items: seq<ServiceItem>, filter: string): seq<(string, int)> {
    if items == [] then []
    else Listed(items[..|items| - 1], filter) + ListedOne(items[|items| - 1], filter)
  }

  /** A service item standing for runtime `rt` and passing the filter. */
  predicate Passes(item: ServiceItem, filter: string, rt: (string, int)) {
    DecodedRuntime(item) == Some(rt) && (filter == rt.0 || filter == "all")
  }

  lemma ListedOnePasses(item: ServiceItem, filter: string, rt: (string, int))
    ensures rt in ListedOne(item, filter) <==> Passes(item, filter, rt)
  {
  }

  /** Every listed runtime comes from an item that passes the filter. */
  lemma {:induction false} ListedFrom(items: seq<ServiceItem>, filter: string, rt: (string, int))
    requires rt in Listed(items, filter)
    ensures exists i :: 0 <= i < |items| && Passes(items[i], filter, rt)
  {
    var init := items[..|items| - 1];
    var last := items[|items| - 1];
    assert Listed(items, filter) == Listed(init, filter) + ListedOne(last, filter);
    if rt in Listed(init, filter) {
      ListedFrom(init, filter, rt);
      var i :| 0 <= i < |init| && Passes(init[i], filter, rt);
      assert items[i] == init[i];
    } else {
      ListedOnePasses(last, filter, rt);
      assert Passes(items[|items| - 1], filter, rt);
    }
  }

  /** An item that passes the filter has its runtime listed. */
  lemma {:induction false} ListedTo(items: seq<ServiceItem>, filter: string, rt: (string, int), i: nat)
    requires i < |items| && Passes(items[i], filter, rt)
    ensures rt in Listed(items, filter)
  {
    var init := items[..|items| - 1];
    var last := items[|items| - 1];
    assert Listed(items, filter) == Listed(init, filter) + ListedOne(last, filter);
    if i == |items| - 1 {
      ListedOnePasses(last, filter, rt);
    } else {
      assert init[i] == items[i];
      ListedTo(init, filter, rt, i);
    }
  }

  /** A runtime is listed exactly when some item decodes to it and it passes the filter. */
  lemma ListedMembership(items: seq<ServiceItem>, filter: string, rt: (string, int))
    ensures rt in Listed(items, filter) <==> exists i :: 0 <= i < |items| && Passes(items[i], filter, rt)
  {
    if rt in Listed(items, filter) {
      ListedFrom(items, filter, rt);
    }
    if exists i :: 0 <= i < |items| && Passes(items[i], filter, rt) {
      var i :| 0 <= i < |items| && Passes(items[i], filter, rt);
      ListedTo(items, filter, rt, i);
    }
  }

  /** Listing keeps the order of the items: the listing of two batches is the
      concatenation of their listings. */
  lemma {:induction false} ListedConcat(a: seq<ServiceItem>, b: seq<ServiceItem>, filter: string)
    ensures Listed(a + b, filter) == Listed(a, filter) + Listed(b, filter)
  {
    if b == [] {
      assert a + b == a;
    } else {
      var b0 := b[..|b| - 1];
      assert (a + b)[..|a + b| - 1] == a + b0;
      ListedConcat(a, b0, filter);
    }
  }

  /** Every listed runtime with the "all" filter decodes from the name of a listed service. */
  lemma ListedAllDecoded(items: seq<ServiceItem>, rt: (string, int))
    requires rt in Listed(items, "all")
    ensures exists i ::
              0 <= i < |items| && items[i].name.Some? &&
              UnformatServiceName(items[i].name.value) == Ok(rt)
  {
    ListedMembership(items, "all", rt);
    var i :| 0 <= i < |items| && Passes(items[i], "all", rt);
  }

  // ---------------------------------------------------------------------------
  // The backend

  /** The requests the backend issues to the cluster and the endpoint. */
  datatype ClusterCall =
    | RegistryQueried(image: string, tag: string)           // Docker Hub tag lookup
    | BuildPrepared                                         // account and build resources, old taskrun removed
    | TaskRunCreated(imageUrl: string, imageTag: string)
    | TaskRunDeleted
    | ServiceDeleted(name: string)
    | ServiceCreated(name: string, image: string, memoryLimit: string, timeoutSeconds: int)
    | ServiceQueried(name: string)
    | Posted(endpoint: string, route: Value, host: string, payload: map<string, Value>)

  /** The cluster's answer to a service lookup: the service's `status.url`, or a failure. */
  datatype Lookup = Found(url: string) | LookupFailed

  /** What the cluster answers during an image build: the registry status of the tag
      and the taskrun and pod event streams. */
  datatype BuildEnv = BuildEnv(registryStatus: int, taskRuns: seq<TaskRunEvent>, pods: seq<PodEvent>)

  /** What the cluster and the endpoint answer during `create_runtime`. */
  datatype CreateEnv = CreateEnv(build: BuildEnv, serviceEvents: seq<ServiceEvent>, probe: HttpOutcome)

  /** The deletions for a list of runtimes, in order. */
  function DeletionCalls(runtimes: seq<(string, int)>): seq<ClusterCall> {
    if runtimes == [] then []
    else
      var last := runtimes[|runtimes| - 1];
      DeletionCalls(runtimes[..|runtimes| - 1]) + [ServiceDeleted(FormatServiceName(last.0, last.1))]
  }

  /** Deleting one more runtime adds its deletion to the calls. */
  lemma DeletionCallsStep(runtimes: seq<(string, int)>, i: nat)
    requires i < |runtimes|
    ensures DeletionCalls(runtimes[..i + 1]) ==
              DeletionCalls(runtimes[..i]) + [ServiceDeleted(FormatServiceName(runtimes[i].0, runtimes[i].1))]
  {
    assert runtimes[..i + 1][..i] == runtimes[..i];
  }

  class KnativeServingBackend {
    const namespace: string
    const cluster: string
    const dockerUser: string
    const dockerRepo: string
    /** `sys.version_info` major and minor. */
    const pythonMajor: int
    const pythonMinor: int
    /** The pywren version (`__version__`). */
    const version: string
    /** The default image templates for Python 3.5, 3.6 and 3.7 (with a "<USER>" placeholder). */
    const runtimeDefault35: string
    const runtimeDefault36: string
    const runtimeDefault37: string

    var endpoint: Option<string>
    /** The host cache: service name to host. */
    var serviceHosts: map<string, string>
    /** The `Host` header of the next invocation. */
    var hostHeader: Option<string>
    var calls: seq<ClusterCall>

    /** The backend for a cluster context; the endpoint is the configured one, if any. */
    constructor (namespace: string, cluster: string, dockerUser: string, dockerRepo: string,
                 pythonMajor: int, pythonMinor: int, version: string,
                 runtimeDefault35: string, runtimeDefault36: string, runtimeDefault37: string,
                 endpoint: Option<string>)
      ensures this.namespace == namespace && this.cluster == cluster
      ensures this.dockerUser == dockerUser && this.dockerRepo == dockerRepo
      ensures this.pythonMajor == pythonMajor && this.pythonMinor == pythonMinor && this.version == version
      ensures this.runtimeDefault35 == runtimeDefault35 && this.runtimeDefault36 == runtimeDefault36
      ensures this.runtimeDefault37 == runtimeDefault37
      ensures this.endpoint == endpoint && serviceHosts == map[] && hostHeader == None && calls == []
    {
      this.namespace := namespace;
      this.cluster := cluster;
      this.dockerUser := dockerUser;
      this.dockerRepo := dockerRepo;
      this.pythonMajor := pythonMajor;
      this.pythonMinor := pythonMinor;
      this.version := version;
      this.runtimeDefault35 := runtimeDefault35;
      this.runtimeDefault36 := runtimeDefault36;
      this.runtimeDefault37 := runtimeDefault37;
      this.endpoint := endpoint;
      serviceHosts := map[];
      hostHeader := None;
      calls := [];
    }

    /** `_get_default_runtime_image_name`: the template for the running Python version
      with the Docker user filled in; other versions leave the name unbound. */
    function DefaultRuntimeImageName(): (r: Result<string, KnativeError>)
      ensures var v := Utils.VersionStr(pythonMajor, pythonMinor);
        r.Ok? <==> v == "3.5" || v == "3.6" || v == "3.7"
      ensures Utils.VersionStr(pythonMajor, pythonMinor) == "3.5" ==>
        r == Ok(Replace(runtimeDefault35, "<USER>", dockerUser))
      ensures Utils.VersionStr(pythonMajor, pythonMinor) == "3.6" ==>
        r == Ok(Replace(runtimeDefault36, "<USER>", dockerUser))
      ensures Utils.VersionStr(pythonMajor, pythonMinor) == "3.7" ==>
        r == Ok(Replace(runtimeDefault37, "<USER>", dockerUser))
      ensures r.Err? ==> r == Err(UnsupportedPython)
    {
      var v := Utils.VersionStr(pythonMajor, pythonMinor);
      if v == "3.5" then Ok(Replace(runtimeDefault35, "<USER>", dockerUser))
      else if v == "3.6" then Ok(Replace(runtimeDefault36, "<USER>", dockerUser))
      else if v == "3.7" then Ok(Replace(runtimeDefault37, "<USER>", dockerUser))
      else Err(UnsupportedPython)
    }

    /** `get_runtime_key`: the key's last path segment is the runtime's service name; a
        cluster `urlparse` rejects raises. */
    function GetRuntimeKey(image: string, memory: int): (r: Result<string, KnativeError>)
      ensures r.Err? ==> r == Err(InvalidIPv6Url)
      ensures r.Ok? && RSplitOnce(r.value, "/").None? ==> r.value == FormatServiceName(image, memory)
      ensures r.Ok? && RSplitOnce(r.value, "/").Some? ==> RSplitOnce(r.value, "/").value.1 == FormatServiceName(image, memory)
    {
      RuntimeKeyLastSegment(cluster, namespace, image, memory);
      RuntimeKey(cluster, namespace, image, memory)
    }

    /** The host an invocation of `name` would use: the cached one, else the looked-up one. */
    function HostFor(name: string, lookup: Lookup): Option<string>
      reads this
    {
      if name in serviceHosts then Some(serviceHosts[name])
      else if lookup.Found? then Some(HostOf(lookup.url))
      else None
    }

    /** `_get_service_host`: a cached host is returned without asking the cluster; otherwise
        the service is looked up, and its URL without the first 7 characters is cached and
        returned. */
    method GetServiceHost(name: string, lookup: Lookup) returns (r: Result<string, KnativeError>)
      modifies this
      ensures endpoint == old(endpoint) && hostHeader == old(hostHeader)
      ensures name in old(serviceHosts) ==>
        r == Ok(old(serviceHosts)[name]) && serviceHosts == old(serviceHosts) && calls == old(calls)
      ensures name !in old(serviceHosts) ==> calls == old(calls) + [ServiceQueried(name)]
      ensures name !in old(serviceHosts) && lookup.Found? ==>
        r == Ok(HostOf(lookup.url)) && serviceHosts == old(serviceHosts)[name := HostOf(lookup.url)]
      ensures name !in old(serviceHosts) && lookup.LookupFailed? ==>
        r == Err(ServiceLookupFailed) && serviceHosts == old(serviceHosts)
    {
      if name in serviceHosts {
        return Ok(serviceHosts[name]);
      }
      calls := calls + [ServiceQueried(name)];
      match lookup {
        case LookupFailed =>
          return Err(ServiceLookupFailed);
        case Found(url) =>
          var host := HostOf(url);
          serviceHosts := serviceHosts[name := host];
          return Ok(host);
      }
    }

    /** Whether the build looks the tag up in Docker Hub first. */
    predicate ChecksRegistry() {
      dockerRepo == "docker.io" && Revision(version) != "latest"
    }

    /** The outcome of `_build_docker_image_from_git`. */
    function BuildOutcome(env: BuildEnv): Result<(), KnativeError> {
      if ChecksRegistry() && env.registryStatus == 200 then Ok(())
      else if PodNameOutcome(env.taskRuns).Err? then Err(NoPodName)
      else PodPhaseOutcome(env.pods)
    }

    /** The requests `_build_docker_image_from_git` issues. */
    function BuildCalls(image: string, env: BuildEnv): seq<ClusterCall> {
      var rev := Revision(version);
      var query := if ChecksRegistry() then [RegistryQueried(image, rev)] else [];
      if ChecksRegistry() && env.registryStatus == 200 then query
      else
        query + [BuildPrepared, TaskRunCreated(dockerRepo + "/" + image, rev)] +
          (if BuildOutcome(env).Ok? then [TaskRunDeleted] else [])
    }

    /** `_build_docker_image_from_git`: skip when Docker Hub already has the tag; otherwise
        prepare the build, start the taskrun, wait for its pod and for the pod's final
        phase, and remove the taskrun. */
    method BuildImageFromGit(image: string, env: BuildEnv) returns (r: Result<(), KnativeError>)
      modifies this
      ensures r == BuildOutcome(env)
      ensures calls == old(calls) + BuildCalls(image, env)
      ensures endpoint == old(endpoint) && serviceHosts == old(serviceHosts) && hostHeader == old(hostHeader)
    {
      var rev := Revision(version);
      if dockerRepo == "docker.io" && rev != "latest" {
        calls := calls + [RegistryQueried(image, rev)];
        if env.registryStatus == 200 {
          return Ok(());
        }
      }
      calls := calls + [BuildPrepared, TaskRunCreated(dockerRepo + "/" + image, rev)];
      var podName, _ := AwaitPodName(env.taskRuns);
      if podName.Err? {
        return Err(NoPodName);
      }
      var phase, _ := AwaitPodPhase(env.pods);
      if phase.Err? {
        return phase;
      }
      calls := calls + [TaskRunDeleted];
      return Ok(());
    }

    /** The requests `_create_service` issues before watching. */
    function ServiceCalls(image: string, memory: int, timeout: int): seq<ClusterCall> {
      var name := FormatServiceName(image, memory);
      [ServiceDeleted(name),
       ServiceCreated(name, dockerRepo + "/" + image + ":" + Revision(version), IntToStr(memory) + "Mi", timeout)]
    }

    /** `_create_service`: replace the service, watch it until ready, cache its host. */
    method CreateService(image: string, memory: int, timeout: int, events: seq<ServiceEvent>)
      returns (r: Result<string, KnativeError>)
      modifies this
      ensures r == ServiceWatchOutcome(events)
      ensures calls == old(calls) + ServiceCalls(image, memory, timeout)
      ensures r.Ok? ==> serviceHosts == old(serviceHosts)[FormatServiceName(image, memory) := HostOf(r.value)]
      ensures r.Err? ==> serviceHosts == old(serviceHosts)
      ensures endpoint == old(endpoint) && hostHeader == old(hostHeader)
    {
      var name := FormatServiceName(image, memory);
      calls := calls + ServiceCalls(image, memory, timeout);
      var url, _ := AwaitServiceReady(events);
      if url.Ok? {
        serviceHosts := serviceHosts[name := HostOf(url.value)];
      }
      return url;
    }

    /** `invoke`: set the `Host` header from the host cache (looking the service up on a
        miss), default the endpoint to that host, post the payload and classify the
        response. Only the lookup can raise. */
    method Invoke(image: string, memory: int, payload: map<string, Value>, returnResult: bool,
                  lookup: Lookup, outcome: HttpOutcome)
      returns (r: Result<Option<Value>, KnativeError>)
      modifies this
      ensures var name := FormatServiceName(image, memory);
        var host := old(HostFor(name, lookup));
        var queried := if name in old(serviceHosts) then [] else [ServiceQueried(name)];
        (host.None? ==>
           r == Err(ServiceLookupFailed) && calls == old(calls) + queried &&
           serviceHosts == old(serviceHosts) && endpoint == old(endpoint) && hostHeader == old(hostHeader)) &&
        (host.Some? ==>
          r == Ok(ClassifyResponse(outcome, returnResult)) &&
          serviceHosts == old(serviceHosts)[name := host.value] &&
          hostHeader == host &&
          endpoint == (if old(endpoint).None? then Some("http://" + host.value) else old(endpoint)) &&
          calls == old(calls) + queried + [Posted(endpoint.value, RouteOf(payload), host.value, payload)])
    {
      var name := FormatServiceName(image, memory);
      var host := GetServiceHost(name, lookup);
      if host.Err? {
        return Err(host.error);
      }
      hostHeader := Some(host.value);
      if endpoint.None? {
        var again := GetServiceHost(name, lookup);
        endpoint := Some("http://" + again.value);
      }
      calls := calls + [Posted(endpoint.value, RouteOf(payload), host.value, payload)];
      return Ok(ClassifyResponse(outcome, returnResult));
    }

    /** `_generate_runtime_meta`: probe route "/preinstalls" and accept only a truthy
        result that holds "preinstalls". */
    method GenerateRuntimeMeta(image: string, memory: int, lookup: Lookup, outcome: HttpOutcome)
      returns (r: Result<Value, KnativeError>)
      modifies this
      ensures var name := FormatServiceName(image, memory);
        var host := old(HostFor(name, lookup));
        var queried := if name in old(serviceHosts) then [] else [ServiceQueried(name)];
        (host.None? ==>
           r == Err(MetaInvokeFailed) && calls == old(calls) + queried && endpoint == old(endpoint) &&
           serviceHosts == old(serviceHosts) && hostHeader == old(hostHeader)) &&
        (host.Some? ==>
          endpoint == (if old(endpoint).None? then Some("http://" + host.value) else old(endpoint)) &&
          hostHeader == host &&
          calls == old(calls) + queried + [Posted(endpoint.value, VStr("/preinstalls"), host.value, ProbePayload())] &&
          serviceHosts == old(serviceHosts)[name := host.value] &&
          (r.Ok? <==> AcceptableMeta(ClassifyResponse(outcome, true))) &&
          (r.Ok? ==> Some(r.value) == ClassifyResponse(outcome, true)) &&
          (r.Err? ==> r == Err(BadRuntimeMeta)))
      ensures r.Ok? ==> Truthy(r.value) && ContainsKey(r.value, "preinstalls") == Ok(true)
    {
      var meta := Invoke(image, memory, ProbePayload(), true, lookup, outcome);
      if meta.Err? {
        return Err(MetaInvokeFailed);
      }
      if !AcceptableMeta(meta.value) {
        return Err(BadRuntimeMeta);
      }
      return Ok(meta.value.value);
    }

    /** The payload of the metadata probe. */
    function ProbePayload(): map<string, Value> {
      map["service_route" := VStr("/preinstalls")]
    }

    /** The state the second half of `create_runtime` leaves behind when it started from
        `calls0`, `endpoint0`, `hosts0` and `header0`: a service whose watch fails leaves
        everything but the call log as it was; a ready one is cached under its service
        name, becomes the endpoint when none was set, and is probed with its host as the
        `Host` header. */
    predicate DeployedAs(target: string, memory: int, timeout: int, events: seq<ServiceEvent>, probe: HttpOutcome,
                         calls0: seq<ClusterCall>, endpoint0: Option<string>, hosts0: map<string, string>,
                         header0: Option<string>, r: Result<Value, KnativeError>)
      reads this
    {
      var url := ServiceWatchOutcome(events);
      (url.Err? ==>
         r == Err(url.error) && calls == calls0 + ServiceCalls(target, memory, timeout) &&
         endpoint == endpoint0 && serviceHosts == hosts0 && hostHeader == header0) &&
      (url.Ok? ==>
         endpoint == (if endpoint0.None? then Some(url.value) else endpoint0) &&
         serviceHosts == hosts0[FormatServiceName(target, memory) := HostOf(url.value)] &&
         hostHeader == Some(HostOf(url.value)) &&
         calls == calls0 + ServiceCalls(target, memory, timeout) +
           [Posted(endpoint.value, VStr("/preinstalls"), HostOf(url.value), ProbePayload())] &&
         (r.Ok? <==> AcceptableMeta(ClassifyResponse(probe, true))) &&
         (r.Ok? ==> Some(r.value) == ClassifyResponse(probe, true)) &&
         (r.Err? ==> r == Err(BadRuntimeMeta)))
    }

    /** The second half of `create_runtime`: create the service, take its URL as endpoint
        when none is set, and probe it for the runtime metadata. */
    method DeployRuntime(target: string, memory: int, timeout: int, events: seq<ServiceEvent>, probe: HttpOutcome)
      returns (r: Result<Value, KnativeError>)
      modifies this
      ensures DeployedAs(target, memory, timeout, events, probe,
                         old(calls), old(endpoint), old(serviceHosts), old(hostHeader), r)
    {
      var url := CreateService(target, memory, timeout, events);
      if url.Err? {
        return Err(url.error);
      }
      if endpoint.None? {
        endpoint := Some(url.value);
      }
      r := GenerateRuntimeMeta(target, memory, LookupFailed, probe);
    }

    /** `create_runtime`: build the image only for "default" or the default image name,
        then deploy and probe the service. A failed build raises before the service is
        touched. */
    method CreateRuntime(image: string, memory: int, timeout: int, env: CreateEnv)
      returns (r: Result<Value, KnativeError>)
      modifies this
      ensures DefaultRuntimeImageName().Err? ==>
        r == Err(UnsupportedPython) && calls == old(calls) &&
        endpoint == old(endpoint) && serviceHosts == old(serviceHosts) && hostHeader == old(hostHeader)
      ensures DefaultRuntimeImageName().Ok? ==>
        var dflt := DefaultRuntimeImageName().value;
        var builds := image == "default" || image == dflt;
        var target := if builds then dflt else image;
        var built := if builds then BuildCalls(dflt, env.build) else [];
        (builds && BuildOutcome(env.build).Err? ==>
           r == Err(BuildOutcome(env.build).error) && calls == old(calls) + built &&
           endpoint == old(endpoint) && serviceHosts == old(serviceHosts) && hostHeader == old(hostHeader)) &&
        (!(builds && BuildOutcome(env.build).Err?) ==>
           DeployedAs(target, memory, timeout, env.serviceEvents, env.probe,
                      old(calls) + built, old(endpoint), old(serviceHosts), old(hostHeader), r))
    {
      var dflt := DefaultRuntimeImageName();
      if dflt.Err? {
        return Err(UnsupportedPython);
      }
      var target := image;
      ghost var built: seq<ClusterCall> := [];
      if image == "default" || image == dflt.value {
        target := dflt.value;
        var outcome := BuildImageFromGit(dflt.value, env.build);
        built := BuildCalls(dflt.value, env.build);
        if outcome.Err? {
          return Err(outcome.error);
        }
      }
      ghost var calls1 := calls;
      assert calls1 == old(calls) + built;
      r := DeployRuntime(target, memory, timeout, env.serviceEvents, env.probe);
    }

    /** `delete_runtime`: delete the service. The host cache keeps its entry. */
    method DeleteRuntime(image: string, memory: int)
      modifies this
      ensures calls == old(calls) + [ServiceDeleted(FormatServiceName(image, memory))]
      ensures serviceHosts == old(serviceHosts) && endpoint == old(endpoint) && hostHeader == old(hostHeader)
    {
      calls := calls + [ServiceDeleted(FormatServiceName(image, memory))];
    }

    /** `list_runtimes`: the decoded (image, memory) of every pywren runtime service whose
        image is `filter`, or of all of them for "all"; other services are skipped. */
    method ListRuntimes(items: seq<ServiceItem>, filter: string) returns (r: seq<(string, int)>)
      ensures r == Listed(items, filter)
    {
      r := [];
      var i := 0;
      while i < |items|
        invariant 0 <= i <= |items|
        invariant r == Listed(items[..i], filter)
      {
        assert items[..i + 1][..i] == items[..i];
        // The source catches every failure of the label lookup and of the decoding.
        var decoded := DecodedRuntime(items[i]);
        if decoded.Some? && (filter == decoded.value.0 || filter == "all") {
          r := r + [decoded.value];
        }
        i := i + 1;
      }
      assert items[..i] == items;
    }

    /** `delete_all_runtimes`: delete every runtime `list_runtimes()` reports, in order. */
    method DeleteAllRuntimes(items: seq<ServiceItem>)
      modifies this
      ensures calls == old(calls) + DeletionCalls(Listed(items, "all"))
      ensures serviceHosts == old(serviceHosts) && endpoint == old(endpoint) && hostHeader == old(hostHeader)
    {
      var runtimes := ListRuntimes(items, "all");
      var i := 0;
      while i < |runtimes|
        invariant 0 <= i <= |runtimes|
        invariant calls == old(calls) + DeletionCalls(runtimes[..i])
        invariant serviceHosts == old(serviceHosts) && endpoint == old(endpoint) && hostHeader == old(hostHeader)
      {
        DeletionCallsStep(runtimes, i);
        DeleteRuntime(runtimes[i].0, runtimes[i].1);
        assert calls == old(calls) + DeletionCalls(runtimes[..i + 1]);
        i := i + 1;
      }
      assert runtimes[..i] == runtimes;
    }
  }
}
