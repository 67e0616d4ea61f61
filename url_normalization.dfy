/** The server's string normalisers for addresses and paths typed into the
    settings: `_normalize_external_url`, `_build_tailscale_health_url` and
    `_normalize_cloud_path` (server.py). */
module UrlNormalization {
  import opened Text

  /** `Settings().cloud_storage_path` without a `CLOUD_STORAGE_PATH`
      environment variable: `str(Path("D:/TheCloud"))` on Windows. */
  const DefaultCloudStoragePath: string := "D:\\TheCloud"

  /** `_normalize_external_url(value, scheme)`: blank input gives `""`; a
      value already starting with `http://` or `https://` is returned
      stripped; a scheme-relative `//host` gets `scheme:` in front; anything
      else gets `scheme://` in front. */
  function NormalizeExternalUrl(value: string, scheme: string): (r: string)
    ensures r == "" <==> Strip(value, PyWhitespace) == ""
    ensures r != "" ==> EndsWith(r, Strip(value, PyWhitespace))
  {
    if value == "" then ""
    else
      var cleaned := Strip(value, PyWhitespace);
      if cleaned == "" then ""
      else if StartsWith(cleaned, "http://") || StartsWith(cleaned, "https://") then cleaned
      else if StartsWith(cleaned, "//") then
        assert (scheme + ":" + cleaned)[|scheme + ":"|..] == cleaned;
        scheme + ":" + cleaned
      else
        assert (scheme + "://" + cleaned)[|scheme + "://"|..] == cleaned;
        scheme + "://" + cleaned
  }

  /** Blank input, and only blank input, normalises to `""`. */
  lemma NormalizeBlank(value: string, scheme: string)
    ensures NormalizeExternalUrl(value, scheme) == "" <==> AllIn(value, PyWhitespace)
  {
    StripEmptyIff(value, PyWhitespace);
  }

  /** A value that already starts with `http://` or `https://` once stripped
      is returned stripped and otherwise unchanged, whatever the scheme. */
  lemma NormalizeKeepsHttpUrl(value: string, scheme: string)
    requires var cleaned := Strip(value, PyWhitespace);
      StartsWith(cleaned, "http://") || StartsWith(cleaned, "https://")
    ensures NormalizeExternalUrl(value, scheme) == Strip(value, PyWhitespace)
  {
  }

  /** A scheme-relative `//host/...` becomes `scheme://host/...`. */
  lemma NormalizeSchemeRelative(value: string, scheme: string)
    requires StartsWith(Strip(value, PyWhitespace), "//")
    ensures NormalizeExternalUrl(value, scheme)
         == scheme + "://" + Strip(value, PyWhitespace)[2..]
  {
    var cleaned := Strip(value, PyWhitespace);
    assert cleaned[0] == '/';
    assert !StartsWith(cleaned, "http://");
    assert !StartsWith(cleaned, "https://");
    assert NormalizeExternalUrl(value, scheme) == scheme + ":" + cleaned;
    assert cleaned == "//" + cleaned[2..];
    assert scheme + ":" + cleaned == scheme + "://" + cleaned[2..];
  }

  /** A value without a scheme keeps its text after a `scheme://` prefix. */
  lemma NormalizeBareHost(value: string, scheme: string)
    requires var cleaned := Strip(value, PyWhitespace);
      cleaned != "" && !StartsWith(cleaned, "//")
      && !StartsWith(cleaned, "http://") && !StartsWith(cleaned, "https://")
    ensures NormalizeExternalUrl(value, scheme) == scheme + "://" + Strip(value, PyWhitespace)
  {
  }

  /** With scheme `http` or `https`, a non-blank result always carries an
      `http://` or `https://` prefix and no surrounding whitespace. */
  lemma NormalizeGivesHttpUrl(value: string, scheme: string)
    requires scheme == "http" || scheme == "https"
    requires !AllIn(value, PyWhitespace)
    ensures var r := NormalizeExternalUrl(value, scheme);
      (StartsWith(r, "http://") || StartsWith(r, "https://"))
      && Strip(r, PyWhitespace) == r
  {
    StripEmptyIff(value, PyWhitespace);
    var cleaned := Strip(value, PyWhitespace);
    var r := NormalizeExternalUrl(value, scheme);
    if StartsWith(cleaned, "http://") || StartsWith(cleaned, "https://") {
      assert r == cleaned;
      StripIdempotent(value, PyWhitespace);
    } else {
      var rest := if StartsWith(cleaned, "//") then cleaned[2..] else cleaned;
      NormalizeAddsScheme(value, scheme);
      assert rest != [] ==> rest[|rest| - 1] == cleaned[|cleaned| - 1];
      SchemePrefixed(scheme, rest);
    }
  }

  /** Without an `http://`/`https://` prefix the result is `scheme://` followed
      by the stripped value, less a leading `//`. */
  lemma NormalizeAddsScheme(value: string, scheme: string)
    requires var cleaned := Strip(value, PyWhitespace);
      cleaned != "" && !StartsWith(cleaned, "http://") && !StartsWith(cleaned, "https://")
    ensures var cleaned := Strip(value, PyWhitespace);
      NormalizeExternalUrl(value, scheme)
      == scheme + "://" + (if StartsWith(cleaned, "//") then cleaned[2..] else cleaned)
  {
    if StartsWith(Strip(value, PyWhitespace), "//") {
      NormalizeSchemeRelative(value, scheme);
    }
  }

  /** `scheme://rest` for scheme `http` or `https` starts with that prefix and,
      when `rest` does not end in whitespace, is its own strip. */
  lemma SchemePrefixed(scheme: string, rest: string)
    requires scheme == "http" || scheme == "https"
    requires rest == [] || !InClass(rest[|rest| - 1], PyWhitespace)
    ensures var r := scheme + "://" + rest;
      (StartsWith(r, "http://") || StartsWith(r, "https://"))
      && Strip(r, PyWhitespace) == r
  {
    var r := scheme + "://" + rest;
    assert r[..|scheme + "://"|] == scheme + "://";
    if scheme == "http" {
      assert scheme + "://" == "http://";
    } else {
      assert scheme + "://" == "https://";
    }
    assert r[0] == 'h';
    assert r[|r| - 1] == if rest == [] then '/' else rest[|rest| - 1];
    StripFixpoint(r, PyWhitespace);
  }

  /** Normalising an already normalised URL changes nothing (schemes `http`
      and `https`), so the server may normalise stored values again safely. */
  lemma NormalizeIdempotent(value: string, scheme: string)
    requires scheme == "http" || scheme == "https"
    ensures var r := NormalizeExternalUrl(value, scheme);
      NormalizeExternalUrl(r, scheme) == r
  {
    var r := NormalizeExternalUrl(value, scheme);
    NormalizeBlank(value, scheme);
    if r != "" {
      NormalizeGivesHttpUrl(value, scheme);
    }
  }

  // ---------------------------------------------------------------------
  // _build_tailscale_health_url

  /** The host-and-port part of an address: what precedes the first `/`. */
  function HostPortOf(target: string): string {
    if '/' in target then Before(target, '/') else target
  }

  /** The path part: `/health` without a `/`, otherwise `/` followed by what
      follows the first `/` with its leading slashes removed. */
  function PathOf(target: string): (p: string)
    ensures StartsWith(p, "/")
  {
    if '/' in target then
      var p := "/" + LStrip(After(target, '/'), Only('/'));
      if p == "" then "/health" else p
    else "/health"
  }

  /** The host: what precedes the first `:` of the host-and-port part, stripped. */
  function HostOf(hostPort: string): string {
    Strip(if ':' in hostPort then Before(hostPort, ':') else hostPort, PyWhitespace)
  }

  /** The port: what follows the first `:`, stripped, `8088` when missing or blank. */
  function PortOf(hostPort: string): (port: string)
    ensures port != ""
  {
    var port := Strip(if ':' in hostPort then After(hostPort, ':') else "8088", PyWhitespace);
    if port == "" then "8088" else port
  }

  /** `_build_tailscale_health_url(value)`: turns a Tailscale address (a host,
      `host:port`, optionally followed by a path) into the URL of its health
      check. */
  function BuildTailscaleHealthUrl(value: string): (r: string)
    ensures Strip(value, PyWhitespace) == "" ==> r == ""
    ensures Contains(Strip(value, PyWhitespace), "://") ==> r == Strip(value, PyWhitespace)
  {
    if value == "" then "" else HealthUrlFor(Strip(value, PyWhitespace))
  }

  /** The health URL of an already stripped, non-empty address `target`. */
  function HealthUrlFor(target: string): (r: string)
    ensures target == "" ==> r == ""
    ensures Contains(target, "://") ==> r == target
  {
    if target == "" then ""
    else if Contains(target, "://") then target
    else
      var hostPort := HostPortOf(target);
      var path := PathOf(target);
      var host := HostOf(hostPort);
      var port := PortOf(hostPort);
      if host == "" then ""
      else
        var path' := if StartsWith(path, "/") then path else "/" + path;
        "http://" + host + ":" + port + path'
  }

  /** Blank input gives no URL. */
  lemma HealthUrlBlank(value: string)
    requires AllIn(value, PyWhitespace)
    ensures BuildTailscaleHealthUrl(value) == ""
  {
    StripEmptyIff(value, PyWhitespace);
  }

  /** An address without `://` that yields a URL yields `http://host:port/path`
      with a non-blank host, a non-blank port and a path that starts with `/`. */
  lemma HealthUrlShape(value: string)
    requires !Contains(Strip(value, PyWhitespace), "://")
    requires BuildTailscaleHealthUrl(value) != ""
    ensures exists host, port, path ::
      BuildTailscaleHealthUrl(value) == "http://" + host + ":" + port + path
      && host != "" && port != "" && StartsWith(path, "/")
  {
    var target := Strip(value, PyWhitespace);
    var hostPort := HostPortOf(target);
    assert BuildTailscaleHealthUrl(value)
        == "http://" + HostOf(hostPort) + ":" + PortOf(hostPort) + PathOf(target);
  }

  /** `"://"` can only occur in a string that contains both `:` and `/`. */
  lemma ContainsSchemeHasColon(t: string)
    requires Contains(t, "://")
    ensures ':' in t && '/' in t
  {
    var i :| 0 <= i <= |t| - 3 && OccursAt(t, "://", i);
    assert t[i] == t[i..i + 3][0] == ':';
    assert t[i + 1] == t[i..i + 3][1] == '/';
  }

  /** A bare host gets port 8088 and path `/health`. */
  lemma HealthUrlBareHost(value: string)
    requires var t := Strip(value, PyWhitespace); t != "" && ':' !in t && '/' !in t
    ensures BuildTailscaleHealthUrl(value)
         == "http://" + Strip(value, PyWhitespace) + ":8088/health"
  {
    TargetBareHost(Strip(value, PyWhitespace));
  }

  lemma TargetBareHost(t: string)
    requires t != "" && ':' !in t && '/' !in t
    requires !InClass(t[0], PyWhitespace) && !InClass(t[|t| - 1], PyWhitespace)
    ensures HealthUrlFor(t) == "http://" + t + ":8088/health"
  {
    if Contains(t, "://") { ContainsSchemeHasColon(t); }
    assert HostPortOf(t) == t;
    assert PathOf(t) == "/health";
    StripFixpoint(t, PyWhitespace);
    assert HostOf(t) == t;
    StripFixpoint("8088", PyWhitespace);
    assert PortOf(t) == "8088";
    assert HealthUrlFor(t) == "http://" + t + ":" + "8088" + "/health";
  }

  /** `host:port` keeps its port, or gets 8088 when the port is blank, and
      gets path `/health`. */
  lemma HealthUrlHostPort(value: string, host: string, port: string)
    requires Strip(value, PyWhitespace) == host + ":" + port
    requires ':' !in host && '/' !in host + ":" + port
    requires Strip(host, PyWhitespace) == host && host != ""
    ensures BuildTailscaleHealthUrl(value)
         == "http://" + host + ":"
          + (if Strip(port, PyWhitespace) == "" then "8088" else Strip(port, PyWhitespace))
          + "/health"
  {
    TargetHostPort(host + ":" + port, host, port);
  }

  lemma TargetHostPort(t: string, host: string, port: string)
    requires t == host + ":" + port
    requires ':' !in host && '/' !in t
    requires Strip(host, PyWhitespace) == host && host != ""
    ensures HealthUrlFor(t)
         == "http://" + host + ":"
          + (if Strip(port, PyWhitespace) == "" then "8088" else Strip(port, PyWhitespace))
          + "/health"
  {
    if Contains(t, "://") { ContainsSchemeHasColon(t); }
    assert HostPortOf(t) == t;
    assert PathOf(t) == "/health";
    SplitAtFirst(t, host, ':', port);
    assert HostOf(t) == host;
  }

  /** Splitting `a + [c] + b` at its first `c`, when `a` has none, gives `a` and `b`. */
  lemma SplitAtFirst(t: string, a: string, c: char, b: string)
    requires t == a + [c] + b && c !in a
    ensures c in t && Before(t, c) == a && After(t, c) == b
  {
    assert t[|a|] == c;
    assert t[..|a|] == a;
    assert IndexOf(t, c) == |a|;
    assert t[|a| + 1..] == b;
  }

  /** With a `/`, the path is what follows the first `/`, leading slashes
      removed, never the `/health` default. */
  lemma HealthUrlKeepsPath(value: string, hostPort: string, rest: string)
    requires Strip(value, PyWhitespace) == hostPort + "/" + rest
    requires '/' !in hostPort
    requires BuildTailscaleHealthUrl(value) != ""
    requires !Contains(Strip(value, PyWhitespace), "://")
    ensures EndsWith(BuildTailscaleHealthUrl(value), "/" + LStrip(rest, Only('/')))
  {
    TargetKeepsPath(hostPort + "/" + rest, hostPort, rest);
  }

  lemma TargetKeepsPath(t: string, hostPort: string, rest: string)
    requires t == hostPort + "/" + rest && '/' !in hostPort
    requires HealthUrlFor(t) != "" && !Contains(t, "://")
    ensures EndsWith(HealthUrlFor(t), "/" + LStrip(rest, Only('/')))
  {
    SplitAtSlash(t, hostPort, rest);
    HealthUrlParts(t);
    SuffixOfConcat("http://" + HostOf(hostPort) + ":" + PortOf(hostPort), PathOf(t));
  }

  /** The host-and-port and path parts of an address with a `/`. */
  lemma SplitAtSlash(t: string, hostPort: string, rest: string)
    requires t == hostPort + "/" + rest && '/' !in hostPort
    ensures HostPortOf(t) == hostPort
    ensures PathOf(t) == "/" + LStrip(rest, Only('/'))
  {
    SplitAtFirst(t, hostPort, '/', rest);
  }

  lemma SuffixOfConcat(a: string, b: string)
    ensures EndsWith(a + b, b)
  {
    assert (a + b)[|a|..] == b;
  }

  /** The health URL of a target without `://`, in terms of its parts. */
  lemma HealthUrlParts(t: string)
    requires t != "" && !Contains(t, "://")
    ensures var hostPort := HostPortOf(t);
      HealthUrlFor(t)
      == if HostOf(hostPort) == "" then ""
         else "http://" + HostOf(hostPort) + ":" + PortOf(hostPort) + PathOf(t)
  {
  }

  /** An address that starts with `:` or `/` names no host and gives `""`. */
  lemma HealthUrlNoHost(value: string)
    requires var t := Strip(value, PyWhitespace);
      t != "" && (t[0] == ':' || t[0] == '/') && !Contains(t, "://")
    ensures BuildTailscaleHealthUrl(value) == ""
  {
    TargetNoHost(Strip(value, PyWhitespace));
  }

  lemma TargetNoHost(t: string)
    requires t != "" && (t[0] == ':' || t[0] == '/') && !Contains(t, "://")
    ensures HealthUrlFor(t) == ""
  {
    var hostPort := HostPortOf(t);
    if t[0] == '/' {
      assert IndexOf(t, '/') == 0;
      assert hostPort == "";
    } else {
      assert hostPort == "" || hostPort[0] == ':';
      if hostPort != "" {
        assert IndexOf(hostPort, ':') == 0;
      }
    }
    assert HostOf(hostPort) == "";
  }

  // ---------------------------------------------------------------------
  // _normalize_cloud_path

  /** `_normalize_cloud_path(path)`: strips whitespace, then double quotes;
      falls back to the default path when nothing is left. */
  function NormalizeCloudPath(path: string): (r: string)
    ensures r != ""
  {
    if path == "" then DefaultCloudStoragePath
    else
      var cleaned := Strip(Strip(path, PyWhitespace), Only('"'));
      if cleaned == "" then DefaultCloudStoragePath else cleaned
  }

  /** The normalised path is the default, or a part of the given path that
      neither starts nor ends with a double quote. */
  lemma CloudPathShape(path: string)
    ensures var r := NormalizeCloudPath(path);
      r == DefaultCloudStoragePath || (r[0] != '"' && r[|r| - 1] != '"' && Contains(path, r))
  {
    if path != "" {
      var stripped := Strip(path, PyWhitespace);
      var cleaned := Strip(stripped, Only('"'));
      if cleaned != "" {
        StripInfix(path, PyWhitespace);
        StripInfix(stripped, Only('"'));
        ContainsTransitive(path, stripped, cleaned);
      }
    }
  }

  lemma ContainsTransitive(a: string, b: string, c: string)
    requires Contains(a, b) && Contains(b, c)
    ensures Contains(a, c)
  {
    var i :| 0 <= i <= |a| - |b| && OccursAt(a, b, i);
    var j :| 0 <= j <= |b| - |c| && OccursAt(b, c, j);
    forall k | 0 <= k < |c| ensures a[i + j + k] == c[k] {
      assert c[k] == b[j + k] == a[i + j + k];
    }
    assert a[i + j..i + j + |c|] == c;
    assert OccursAt(a, c, i + j);
  }

  /** A path with no surrounding whitespace or quotes is kept as it is. */
  lemma CloudPathKept(path: string)
    requires path != ""
    requires !InClass(path[0], PyWhitespace) && !InClass(path[|path| - 1], PyWhitespace)
    requires path[0] != '"' && path[|path| - 1] != '"'
    ensures NormalizeCloudPath(path) == path
  {
    StripFixpoint(path, PyWhitespace);
    StripFixpoint(path, Only('"'));
  }

  /** Normalising twice can differ from normalising once: whitespace inside
      the quotes is only removed by the second pass. The server normalises a
      new cloud path twice (once in `update_settings`, once more in
      `_update_cloud_storage_status`). */
  lemma CloudPathNotIdempotent()
    ensures NormalizeCloudPath("\" a\"") == " a"
    ensures NormalizeCloudPath(" a") == "a"
  {
    QuotedPathOnce();
    SpacedPathOnce();
  }

  lemma QuotedPathOnce()
    ensures NormalizeCloudPath("\" a\"") == " a"
  {
    StripFixpoint("\" a\"", PyWhitespace);
    QuotesAroundSpace();
  }

  lemma SpacedPathOnce()
    ensures NormalizeCloudPath(" a") == "a"
  {
    SpaceBeforeA();
    StripFixpoint("a", Only('"'));
  }

  lemma QuotesAroundSpace()
    ensures Strip("\" a\"", Only('"')) == " a"
  {
    var s := "\" a\"";
    assert LStrip(s[1..], Only('"')) == s[1..];
    assert s[1..] == " a\"";
    assert s[1..][..2] == " a";
    assert RStrip(" a", Only('"')) == " a";
  }

  lemma SpaceBeforeA()
    ensures Strip(" a", PyWhitespace) == "a"
  {
    assert " a"[1..] == "a";
    assert LStrip("a", PyWhitespace) == "a";
    assert RStrip("a", PyWhitespace) == "a";
  }
}
