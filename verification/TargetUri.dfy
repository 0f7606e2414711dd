/** Comparison of target URIs (section 4.3 of RFC 9449): query and fragment are ignored. */
module TargetUri {
  import opened Wrappers

  /** The parts of a parsed URL; a default port is parsed as None. */
  datatype Url = Url(scheme: string, host: Option<string>, port: Option<nat>, path: string,
                     query: Option<string>, fragment: Option<string>)

  function Digit(n: nat): char
    requires n < 10
  {
    '0' + n as char
  }

  /** A port in decimal. */
  function Decimal(n: nat): (s: string)
    ensures s != "" && forall i :: 0 <= i < |s| ==> '0' <= s[i] <= '9'
  {
    if n < 10 then [Digit(n)] else Decimal(n / 10) + [Digit(n % 10)]
  }

  function Authority(url: Url): string {
    (if url.host.Some? then url.host.value else "") + (if url.port.Some? then ":" + Decimal(url.port.value) else "")
  }

  /** `normalize_htu` on a parsed URL; None is a string that does not parse. */
  function NormalizeHtu(raw: Option<Url>): Option<string> {
    match raw
    case None => None
    case Some(url) => Some(url.scheme + "://" + Authority(url) + url.path)
  }

  /** The same by pushes onto a buffer. */
  method BuildHtu(raw: Option<Url>) returns (r: Option<string>)
    ensures r == NormalizeHtu(raw)
  {
    if raw.None? {
      return None;
    }
    var url := raw.value;
    var buffer := url.scheme;
    buffer := buffer + "://";
    if url.host.Some? {
      buffer := buffer + url.host.value;
    }
    if url.port.Some? {
      buffer := buffer + [':'];
      buffer := buffer + Decimal(url.port.value);
    }
    buffer := buffer + url.path;
    assert buffer == url.scheme + "://" + Authority(url) + url.path;
    return Some(buffer);
  }

  /** What a parser guarantees: a host with ':' is a bracketed IPv6 address, and a URL without a host has no port. */
  predicate WellFormed(url: Url) {
    && ':' !in url.scheme
    && (url.host.None? ==> url.port.None?)
    && (url.host.Some? ==> HostOk(url.host.value) && (url.path == "" || url.path[0] == '/'))
  }

  predicate HostOk(host: string) {
    '/' !in host && (':' in host ==> host[|host| - 1] == ']')
  }

  lemma FirstCut(a: string, x: string, b: string, y: string, sep: char)
    requires sep !in a && sep !in b && a + [sep] + x == b + [sep] + y
    ensures a == b && x == y
  {
    var s, t := a + [sep] + x, b + [sep] + y;
    assert s[|a|] == sep && t[|b|] == sep;
    assert forall i :: 0 <= i < |a| ==> s[i] == a[i];
    assert forall i :: 0 <= i < |b| ==> t[i] == b[i];
    assert s[..|a|] == a && t[..|b|] == b && s[|a| + 1..] == x && t[|b| + 1..] == y;
  }

  lemma LastCut(a: string, x: string, b: string, y: string, sep: char)
    requires sep !in x && sep !in y && a + [sep] + x == b + [sep] + y
    ensures a == b && x == y
  {
    var s, t := a + [sep] + x, b + [sep] + y;
    assert s[|a|] == sep && t[|b|] == sep;
    assert forall i :: |a| < i < |s| ==> s[i] == x[i - |a| - 1];
    assert forall i :: |b| < i < |t| ==> t[i] == y[i - |b| - 1];
    assert s[..|a|] == a && t[..|b|] == b && s[|a| + 1..] == x && t[|b| + 1..] == y;
  }

  lemma {:induction false} DecimalInjective(m: nat, n: nat)
    requires Decimal(m) == Decimal(n)
    ensures m == n
  {
    var s, t := Decimal(m), Decimal(n);
    assert s[|s| - 1] == Digit(m % 10) && t[|t| - 1] == Digit(n % 10);
    if m >= 10 && n >= 10 {
      assert s[..|s| - 1] == Decimal(m / 10) && t[..|t| - 1] == Decimal(n / 10);
      DecimalInjective(m / 10, n / 10);
    }
  }

  lemma PortedIsNotBare(host: string, port: nat, bare: string)
    requires ':' in bare ==> bare[|bare| - 1] == ']'
    ensures host + ":" + Decimal(port) != bare
  {
  }

  lemma AuthorityInjective(a: Url, b: Url)
    requires WellFormed(a) && WellFormed(b) && a.host.Some? && b.host.Some? && Authority(a) == Authority(b)
    ensures a.host == b.host && a.port == b.port
  {
    var (g, h) := (a.host.value, b.host.value);
    assert a.port.None? ==> Authority(a) == g;
    assert b.port.None? ==> Authority(b) == h;
    assert a.port.Some? ==> Authority(a) == g + ":" + Decimal(a.port.value);
    assert b.port.Some? ==> Authority(b) == h + ":" + Decimal(b.port.value);
    assert a.port.Some? <==> b.port.Some? by {
      if a.port.Some? { PortedIsNotBare(g, a.port.value, h); }
      if b.port.Some? { PortedIsNotBare(h, b.port.value, g); }
    }
    if a.port.Some? {
      LastCut(g, Decimal(a.port.value), h, Decimal(b.port.value), ':');
      DecimalInjective(a.port.value, b.port.value);
    }
  }

  lemma AuthorityHasNoSlash(url: Url)
    requires WellFormed(url) && url.host.Some?
    ensures '/' !in Authority(url)
  {
  }

  lemma SlashIffPath(a: string, p: string)
    requires '/' !in a && (p == "" || p[0] == '/')
    ensures '/' in a + p <==> p != ""
  {
  }

  lemma AuthorityAndPath(a: string, p: string, b: string, q: string)
    requires '/' !in a && '/' !in b && (p == "" || p[0] == '/') && (q == "" || q[0] == '/') && a + p == b + q
    ensures a == b && p == q
  {
    SlashIffPath(a, p);
    SlashIffPath(b, q);
    if p == "" {
      assert a + p == a && b + q == b;
    } else {
      assert a + p == a + ['/'] + p[1..] && b + q == b + ['/'] + q[1..];
      FirstCut(a, p[1..], b, q[1..], '/');
    }
  }

  /** Equal but for query and fragment. */
  predicate SameTarget(a: Url, b: Url) {
    a.(query := None, fragment := None) == b.(query := None, fragment := None)
  }

  /** `a` has no host, and its path spells the authority and the path of `b`. */
  predicate Mimics(a: Url, b: Url) {
    a.scheme == b.scheme && a.host.None? && b.host.Some? && a.path == Authority(b) + b.path
  }

  lemma SchemeAndRest(a: Url, b: Url)
    requires ':' !in a.scheme && ':' !in b.scheme
    ensures NormalizeHtu(Some(a)) == NormalizeHtu(Some(b))
            <==> a.scheme == b.scheme && Authority(a) + a.path == Authority(b) + b.path
  {
    var (x, y) := (Authority(a) + a.path, Authority(b) + b.path);
    assert a.scheme + "://" + Authority(a) + a.path == a.scheme + [':'] + ("//" + x);
    assert b.scheme + "://" + Authority(b) + b.path == b.scheme + [':'] + ("//" + y);
    if NormalizeHtu(Some(a)) == NormalizeHtu(Some(b)) {
      FirstCut(a.scheme, "//" + x, b.scheme, "//" + y, ':');
      assert ("//" + x)[2..] == x && ("//" + y)[2..] == y;
    }
  }

  /**
   Two URLs normalise alike iff they agree in everything but query and fragment, or one without a host mimics
   the other.
   */
  lemma NormalizedIff(a: Url, b: Url)
    requires WellFormed(a) && WellFormed(b)
    ensures NormalizeHtu(Some(a)) == NormalizeHtu(Some(b)) <==> SameTarget(a, b) || Mimics(a, b) || Mimics(b, a)
  {
    SchemeAndRest(a, b);
    assert a.host.None? ==> Authority(a) + a.path == a.path;
    assert b.host.None? ==> Authority(b) + b.path == b.path;
    if a.host.Some? && b.host.Some? && NormalizeHtu(Some(a)) == NormalizeHtu(Some(b)) {
      AuthorityHasNoSlash(a);
      AuthorityHasNoSlash(b);
      AuthorityAndPath(Authority(a), a.path, Authority(b), b.path);
      AuthorityInjective(a, b);
    }
  }

  /** Outside http and https, whose URLs always have a host, an opaque path can mimic an authority. */
  lemma OpaquePathMimics()
    ensures var (a, b) := (Url("web", None, None, "example.com/token", None, None),
                           Url("web", Some("example.com"), None, "/token", None, None));
            WellFormed(a) && WellFormed(b) && !SameTarget(a, b) && NormalizeHtu(Some(a)) == NormalizeHtu(Some(b))
  {
    var (a, b) := (Url("web", None, None, "example.com/token", None, None),
                   Url("web", Some("example.com"), None, "/token", None, None));
    assert Authority(b) + b.path == "example.com/token" && Authority(a) + a.path == a.path;
    SchemeAndRest(a, b);
  }

  /** The normal form: scheme, "://", host, a colon and the port if there is one, path. */
  lemma NormalFormLaw(scheme: string, host: string, port: nat, path: string, query: Option<string>,
                      fragment: Option<string>)
    ensures NormalizeHtu(None) == None
    ensures NormalizeHtu(Some(Url(scheme, Some(host), None, path, query, fragment)))
            == Some(scheme + "://" + host + path)
    ensures NormalizeHtu(Some(Url(scheme, Some(host), Some(port), path, query, fragment)))
            == Some(scheme + "://" + host + ":" + Decimal(port) + path)
  {
    assert host + "" == host && host + (":" + Decimal(port)) == host + ":" + Decimal(port);
    assert scheme + "://" + (host + ":" + Decimal(port)) == scheme + "://" + host + ":" + Decimal(port);
  }

  /** Ports are written in decimal, most significant digit first. */
  lemma DecimalSpelled()
    ensures Decimal(8080) == "8080" && Decimal(443) == "443" && Decimal(0) == "0"
  {
    assert Decimal(8) == "8" && Decimal(80) == "80" && Decimal(808) == "808";
    assert Decimal(4) == "4" && Decimal(44) == "44";
  }
}
