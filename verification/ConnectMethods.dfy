/** How goproxy/transport names the route of a connection: the pool key, the address to dial, the TLS host name. */
module ConnectMethods {

  import opened Options

  /** A URL by the three things this package asks of it. */
  datatype URL = URL(text: string, scheme: string, host: string)

  datatype ConnectMethod = ConnectMethod(proxyURL: Option<URL>, targetScheme: string, targetAddr: string)

  /** strings.LastIndex for one character. */
  function LastIndex(s: string, c: char): (i: int)
    ensures -1 <= i < |s|
    ensures i >= 0 ==> s[i] == c
    ensures forall j :: i < j < |s| ==> s[j] != c
  {
    if s == [] then -1
    else if s[|s| - 1] == c then |s| - 1
    else LastIndex(s[..|s| - 1], c)
  }

  predicate HasPort(s: string) {
    LastIndex(s, ':') > LastIndex(s, ']')
  }

  /** The default port of a scheme; empty for a scheme that the table lacks. */
  function DefaultPort(scheme: string): string {
    if scheme == "http" then "80" else if scheme == "https" then "443" else ""
  }

  function CanonicalAddr(url: URL): string {
    if HasPort(url.host) then url.host else url.host + ":" + DefaultPort(url.scheme)
  }

  function ProxyString(cm: ConnectMethod): string {
    if cm.proxyURL.Some? then cm.proxyURL.value.text else ""
  }

  /** The key under which idle connections of this route are kept. */
  function Key(cm: ConnectMethod): string {
    ProxyString(cm) + "|" + cm.targetScheme + "|" + cm.targetAddr
  }

  function Addr(cm: ConnectMethod): string {
    if cm.proxyURL.Some? then CanonicalAddr(cm.proxyURL.value) else cm.targetAddr
  }

  function TlsHost(cm: ConnectMethod): string {
    var h := cm.targetAddr;
    if HasPort(h) then h[..LastIndex(h, ':')] else h
  }

  lemma {:induction false} LastIndexIs(s: string, c: char, i: int)
    requires -1 <= i < |s| && (i >= 0 ==> s[i] == c) && forall j :: i < j < |s| ==> s[j] != c
    ensures LastIndex(s, c) == i
  {
  }

  /** A canonical address always ends in a colon and a port, and making it canonical again changes nothing. */
  lemma {:induction false} CanonicalAddrHasPort(url: URL)
    ensures HasPort(CanonicalAddr(url))
    ensures forall text, scheme :: CanonicalAddr(URL(text, scheme, CanonicalAddr(url))) == CanonicalAddr(url)
  {
    if !HasPort(url.host) {
      DefaultPortIsLast(url.host, DefaultPort(url.scheme));
    }
  }

  /** The port that is added is that of the scheme, and none is added to an address that has one. */
  lemma {:induction false} PortOfScheme(text: string, host: string, scheme: string)
    ensures !HasPort(host) ==> CanonicalAddr(URL(text, "http", host)) == host + ":80"
    ensures !HasPort(host) ==> CanonicalAddr(URL(text, "https", host)) == host + ":443"
    ensures !HasPort(host) && scheme != "http" && scheme != "https" ==>
              CanonicalAddr(URL(text, scheme, host)) == host + ":"
    ensures HasPort(host) ==> CanonicalAddr(URL(text, scheme, host)) == host
  {
    assert host + ":" + "80" == host + ":80" && host + ":" + "443" == host + ":443" && host + ":" + "" == host + ":";
  }

  /** What is dialled: the proxy if there is one, be it with an empty URL, and else the target. */
  lemma {:induction false} ProxyIsDialled(text: string, host: string, scheme: string, target: string)
    ensures HasPort(host) ==> Addr(ConnectMethod(Some(URL(text, scheme, host)), "https", target)) == host
    ensures !HasPort(host) ==>
              && Addr(ConnectMethod(Some(URL(text, "http", host)), scheme, target)) == host + ":80"
              && Addr(ConnectMethod(Some(URL(text, "https", host)), scheme, target)) == host + ":443"
    ensures Addr(ConnectMethod(None, scheme, target)) == target
  {
    PortOfScheme(text, host, scheme);
  }

  lemma {:induction false} DefaultPortIsLast(host: string, port: string)
    requires ':' !in port && ']' !in port
    ensures var a := host + ":" + port;
            LastIndex(a, ':') == |host| && LastIndex(a, ']') < |host| && a[..|host|] == host
  {
    var a := host + ":" + port;
    forall j | |host| < j < |a|
      ensures a[j] != ':' && a[j] != ']'
    {
      assert a[j] == port[j - |host| - 1];
      assert port[j - |host| - 1] in port;
    }
    LastIndexIs(a, ':', |host|);
  }

  /**
   * The certificate is checked against the host as the URL gave it: TlsHost takes back the port
   * that CanonicalAddr added, for names, IPv4 and bracketed IPv6 literals alike.
   */
  lemma {:induction false} TlsHostUndoesDefaultPort(cm: ConnectMethod, url: URL)
    requires cm.targetAddr == CanonicalAddr(url)
    ensures HasPort(cm.targetAddr)
    ensures !HasPort(url.host) ==> TlsHost(cm) == url.host
    ensures forall route: ConnectMethod :: route.targetAddr == url.host && !HasPort(url.host) ==>
              TlsHost(route) == url.host
    ensures HasPort(url.host) ==>
              exists port :: url.host == TlsHost(cm) + ":" + port && ':' !in port && ']' !in port
  {
    CanonicalAddrHasPort(url);
    if HasPort(url.host) {
      var i := LastIndex(url.host, ':');
      var port := url.host[i + 1..];
      assert url.host == url.host[..i] + ":" + port;
    } else {
      DefaultPortIsLast(url.host, DefaultPort(url.scheme));
    }
  }

  // ----- which routes share a key -----

  /** RoundTrip hands every other scheme to the protocols that were registered for it. */
  predicate Web(scheme: string) {
    scheme == "http" || scheme == "https"
  }

  /** The routes that connectMethodForRequest builds, with any proxy. */
  ghost predicate Buildable(cm: ConnectMethod) {
    Web(cm.targetScheme) && exists url: URL :: url.scheme == cm.targetScheme && CanonicalAddr(url) == cm.targetAddr
  }

  predicate SameParts(a: ConnectMethod, b: ConnectMethod) {
    ProxyString(a) == ProxyString(b) && a.targetScheme == b.targetScheme && a.targetAddr == b.targetAddr
  }

  /** A nil proxy is no proxy, and so not the proxy of an empty URL, whose string is empty as well. */
  predicate SameRoute(a: ConnectMethod, b: ConnectMethod) {
    SameParts(a, b) && (a.proxyURL.None? <==> b.proxyURL.None?)
  }

  /** Without the proxy of an empty URL. */
  predicate Proper(cm: ConnectMethod) {
    cm.proxyURL.Some? ==> cm.proxyURL.value.text != ""
  }

  lemma {:induction false} BuildableIsWithPort(cm: ConnectMethod)
    ensures Buildable(cm) <==> Web(cm.targetScheme) && HasPort(cm.targetAddr)
  {
    if Buildable(cm) {
      var url: URL :| url.scheme == cm.targetScheme && CanonicalAddr(url) == cm.targetAddr;
      CanonicalAddrHasPort(url);
    } else if HasPort(cm.targetAddr) {
      assert CanonicalAddr(URL("", cm.targetScheme, cm.targetAddr)) == cm.targetAddr;
    }
  }

  /** The positions of the two separators in a key. */
  function ProxyEnd(cm: ConnectMethod): nat {
    |ProxyString(cm)|
  }

  function SchemeEnd(cm: ConnectMethod): nat {
    ProxyEnd(cm) + 1 + |cm.targetScheme|
  }

  /** Plain and secure requests are built, and no others. */
  lemma {:induction false} BothSchemesAreBuilt(url: URL, proxyURL: Option<URL>)
    ensures url.scheme == "http" || url.scheme == "https" <==>
            Buildable(ConnectMethod(proxyURL, url.scheme, CanonicalAddr(url)))
  {
    CanonicalAddrHasPort(url);
    BuildableIsWithPort(ConnectMethod(proxyURL, url.scheme, CanonicalAddr(url)));
  }

  /** A key cut at its separators. */
  lemma {:induction false} KeyCuts(cm: ConnectMethod)
    ensures var key, p, e := Key(cm), ProxyEnd(cm), SchemeEnd(cm);
            && p < e < |key| && key[p] == '|' && key[e] == '|'
            && key[..p] == ProxyString(cm) && key[p + 1..e] == cm.targetScheme && key[e + 1..] == cm.targetAddr
            && forall i :: p < i < e ==> key[i] in cm.targetScheme
  {
  }

  lemma {:induction false} SchemeHasNoBar(cm: ConnectMethod, i: nat)
    requires '|' !in cm.targetScheme && i < |Key(cm)| && Key(cm)[i] == '|'
    ensures i <= ProxyEnd(cm) || SchemeEnd(cm) <= i
  {
    KeyCuts(cm);
  }

  /**
   * Of two routes with one key, the one with the shorter proxy string has a separator in its target,
   * and the other has one in its proxy.
   */
  lemma {:induction false} ConfusedBySeparators(a: ConnectMethod, b: ConnectMethod)
    requires Key(a) == Key(b) && '|' !in a.targetScheme && '|' !in b.targetScheme
    requires ProxyEnd(a) < ProxyEnd(b)
    ensures '|' in ProxyString(b) && '|' in a.targetAddr
  {
    KeyCuts(a);
    KeyCuts(b);
    assert ProxyString(b)[ProxyEnd(a)] == Key(a)[ProxyEnd(a)];
    SchemeHasNoBar(a, ProxyEnd(b));
    assert a.targetAddr[SchemeEnd(b) - SchemeEnd(a) - 1] == Key(a)[SchemeEnd(b)];
  }

  lemma {:induction false} SamePartsIfSameCut(a: ConnectMethod, b: ConnectMethod)
    requires Key(a) == Key(b) && '|' !in a.targetScheme && '|' !in b.targetScheme
    requires ProxyEnd(a) == ProxyEnd(b)
    ensures SameParts(a, b)
  {
    KeyCuts(a);
    KeyCuts(b);
    SchemeHasNoBar(a, SchemeEnd(b));
    SchemeHasNoBar(b, SchemeEnd(a));
  }

  /** One has the separator in its proxy string while the other has it in its target. */
  predicate SeparatorsMeet(a: ConnectMethod, b: ConnectMethod) {
    ('|' in ProxyString(a) && '|' in b.targetAddr) || ('|' in ProxyString(b) && '|' in a.targetAddr)
  }

  /**
   * Two routes share a key exactly when they agree in proxy string, scheme and target, as long as
   * schemes are free of the separator and it is not in the proxy of the one and the target of the
   * other. So it is enough that no proxy has it, and also that no target has it.
   */
  lemma {:induction false} KeyDeterminesRoute(a: ConnectMethod, b: ConnectMethod)
    requires '|' !in a.targetScheme && '|' !in b.targetScheme && !SeparatorsMeet(a, b)
    ensures Key(a) == Key(b) <==> SameParts(a, b)
  {
    if Key(a) == Key(b) {
      if ProxyEnd(a) < ProxyEnd(b) {
        ConfusedBySeparators(a, b);
      } else if ProxyEnd(b) < ProxyEnd(a) {
        ConfusedBySeparators(b, a);
      } else {
        SamePartsIfSameCut(a, b);
      }
    }
  }

  /** At i the text has a web scheme between two separators. */
  predicate SchemeAt(s: string, i: nat, scheme: string) {
    && Web(scheme) && i + 1 + |scheme| < |s|
    && s[i] == '|' && s[i + 1 + |scheme|] == '|' && s[i + 1..i + 1 + |scheme|] == scheme
  }

  /** What comes behind a scheme at i and its separator. */
  function Behind(s: string, i: nat, scheme: string): string
    requires SchemeAt(s, i, scheme)
  {
    s[i + 2 + |scheme|..]
  }

  /** The proxy string itself has a scheme as a field behind its first, the last field included. */
  ghost predicate SchemeInProxy(cm: ConnectMethod) {
    exists i: nat, w :: SchemeAt(ProxyString(cm) + "|", i, w)
  }

  /** The target itself has a scheme as a field, and an address with a port behind it. */
  ghost predicate SchemeInTarget(cm: ConnectMethod) {
    exists i: nat, w :: SchemeAt("|" + cm.targetAddr, i, w) && HasPort(Behind("|" + cm.targetAddr, i, w))
  }

  lemma {:induction false} PortOfSuffix(s: string, i: nat)
    requires i <= |s| && HasPort(s[i..])
    ensures HasPort(s)
  {
    var c, b := LastIndex(s[i..], ':'), LastIndex(s[i..], ']');
    assert s[i..][c] == s[i + c];
    forall j | i + c < j < |s|
      ensures s[j] != ':' && s[j] != ']'
    {
      assert s[i..][j - i] == s[j];
    }
    LastIndexIs(s, ':', i + c);
  }

  lemma {:induction false} PortBehind(before: string, addr: string)
    requires HasPort(addr)
    ensures HasPort(before + addr)
  {
    assert (before + addr)[|before|..] == addr;
    PortOfSuffix(before + addr, |before|);
  }

  /** The route as which a key with a scheme at i reads. */
  function ReadAt(key: string, i: nat, scheme: string): ConnectMethod
    requires SchemeAt(key, i, scheme)
  {
    ConnectMethod(if i == 0 then None else Some(URL(key[..i], "", "")), scheme, Behind(key, i, scheme))
  }

  lemma {:induction false} KeyOfReadAt(key: string, i: nat, scheme: string)
    requires SchemeAt(key, i, scheme)
    ensures Key(ReadAt(key, i, scheme)) == key && Proper(ReadAt(key, i, scheme))
  {
  }

  lemma {:induction false} SchemeOfKey(cm: ConnectMethod)
    requires Web(cm.targetScheme)
    ensures SchemeAt(Key(cm), ProxyEnd(cm), cm.targetScheme)
    ensures Behind(Key(cm), ProxyEnd(cm), cm.targetScheme) == cm.targetAddr
  {
    KeyCuts(cm);
  }

  lemma {:induction false} WebHasNoBar(scheme: string)
    requires Web(scheme)
    ensures '|' !in scheme
  {
  }

  /** A scheme in the front or the back part of a text is a scheme in the text; and the other way round. */
  lemma {:induction false} SchemeInFront(s: string, n: nat, i: nat, w: string)
    requires n <= |s|
    ensures SchemeAt(s[..n], i, w) <==> SchemeAt(s, i, w) && i + 1 + |w| < n
  {
    if i + 1 + |w| < n {
      assert s[..n][i + 1..i + 1 + |w|] == s[i + 1..i + 1 + |w|];
    }
  }

  lemma {:induction false} SchemeInBack(s: string, n: nat, i: nat, w: string)
    requires n <= |s|
    ensures SchemeAt(s[n..], i, w) <==> SchemeAt(s, n + i, w)
    ensures SchemeAt(s[n..], i, w) ==> Behind(s[n..], i, w) == Behind(s, n + i, w)
  {
    if n + i + 1 + |w| < |s| {
      assert s[n..][i + 1..i + 1 + |w|] == s[n + i + 1..n + i + 1 + |w|];
    }
  }

  lemma {:induction false} FrontAndBack(cm: ConnectMethod)
    ensures Key(cm)[..ProxyEnd(cm) + 1] == ProxyString(cm) + "|"
    ensures Key(cm)[SchemeEnd(cm)..] == "|" + cm.targetAddr
  {
    KeyCuts(cm);
  }

  ghost predicate SharesItsKey(a: ConnectMethod) {
    exists b :: Buildable(b) && Key(b) == Key(a) && !SameRoute(a, b)
  }

  /** With a different route that has no empty proxy URL. */
  ghost predicate SharesWithProper(a: ConnectMethod) {
    exists b :: Buildable(b) && Proper(b) && Key(b) == Key(a) && !SameRoute(a, b)
  }

  lemma {:induction false} SharesByReadAt(a: ConnectMethod, j: nat, w: string)
    requires SchemeAt(Key(a), j, w) && j != ProxyEnd(a) && HasPort(Behind(Key(a), j, w))
    ensures SharesWithProper(a)
  {
    var b := ReadAt(Key(a), j, w);
    KeyOfReadAt(Key(a), j, w);
    BuildableIsWithPort(b);
    assert ProxyEnd(b) == j;
    assert Buildable(b) && Proper(b) && Key(b) == Key(a) && !SameRoute(a, b);
  }

  lemma {:induction false} SchemeInProxyShares(a: ConnectMethod, i: nat, w: string)
    requires HasPort(a.targetAddr) && SchemeAt(ProxyString(a) + "|", i, w)
    ensures SharesWithProper(a)
  {
    FrontAndBack(a);
    KeyCuts(a);
    SchemeInFront(Key(a), ProxyEnd(a) + 1, i, w);
    var rest, from := Behind(Key(a), i, w), SchemeEnd(a) - i - |w| - 1;
    assert rest[from..] == a.targetAddr;
    PortOfSuffix(rest, from);
    SharesByReadAt(a, i, w);
  }

  lemma {:induction false} SchemeInTargetShares(a: ConnectMethod, i: nat, w: string)
    requires SchemeAt("|" + a.targetAddr, i, w) && HasPort(Behind("|" + a.targetAddr, i, w))
    ensures SharesWithProper(a)
  {
    FrontAndBack(a);
    SchemeInBack(Key(a), SchemeEnd(a), i, w);
    SharesByReadAt(a, SchemeEnd(a) + i, w);
  }

  lemma {:induction false} EarlierSchemeIsInProxy(a: ConnectMethod, j: nat, w: string)
    requires SchemeAt(Key(a), j, w) && j < ProxyEnd(a)
    ensures SchemeInProxy(a)
  {
    var p := ProxyEnd(a);
    WebHasNoBar(w);
    KeyCuts(a);
    FrontAndBack(a);
    SchemeInFront(Key(a), p + 1, j, w);
  }

  lemma {:induction false} LaterSchemeIsInTarget(a: ConnectMethod, j: nat, w: string)
    requires '|' !in a.targetScheme && SchemeAt(Key(a), j, w) && ProxyEnd(a) < j && HasPort(Behind(Key(a), j, w))
    ensures SchemeInTarget(a)
  {
    SchemeHasNoBar(a, j);
    FrontAndBack(a);
    SchemeInBack(Key(a), SchemeEnd(a), j - SchemeEnd(a), w);
  }

  lemma {:induction false} OtherReadingHasScheme(a: ConnectMethod, b: ConnectMethod)
    requires Buildable(a) && Buildable(b) && Key(b) == Key(a) && !SameParts(a, b)
    ensures SchemeInProxy(a) || SchemeInTarget(a)
  {
    BuildableIsWithPort(b);
    SchemeOfKey(b);
    WebHasNoBar(a.targetScheme);
    WebHasNoBar(b.targetScheme);
    if ProxyEnd(a) < ProxyEnd(b) {
      LaterSchemeIsInTarget(a, ProxyEnd(b), b.targetScheme);
    } else if ProxyEnd(b) < ProxyEnd(a) {
      EarlierSchemeIsInProxy(a, ProxyEnd(b), b.targetScheme);
    } else {
      SamePartsIfSameCut(a, b);
    }
  }

  lemma {:induction false} SchemeInPartShares(a: ConnectMethod)
    requires Buildable(a) && (SchemeInProxy(a) || SchemeInTarget(a))
    ensures SharesWithProper(a)
  {
    if SchemeInProxy(a) {
      var i: nat, w :| SchemeAt(ProxyString(a) + "|", i, w);
      BuildableIsWithPort(a);
      SchemeInProxyShares(a, i, w);
    } else {
      var i: nat, w :| SchemeAt("|" + a.targetAddr, i, w) && HasPort(Behind("|" + a.targetAddr, i, w));
      SchemeInTargetShares(a, i, w);
    }
  }

  /** No proxy and the proxy of an empty URL give one key, and different addresses to dial. */
  lemma {:induction false} EmptyProxyCollides(scheme: string, addr: string)
    requires Web(scheme) && HasPort(addr)
    ensures var a, b := ConnectMethod(None, scheme, addr), ConnectMethod(Some(URL("", "", "")), scheme, addr);
            && Buildable(a) && Buildable(b) && Key(a) == Key(b) && !SameRoute(a, b)
            && Addr(a) == addr && Addr(b) == ":"
  {
    BuildableIsWithPort(ConnectMethod(None, scheme, addr));
    BuildableIsWithPort(ConnectMethod(Some(URL("", "", "")), scheme, addr));
  }

  /**
   * Exactly which routes share their key with a different one: those with a whole scheme between
   * separators in the proxy string or the target, where the latter must go on as an address with a
   * port, and those without a proxy or with an empty proxy URL. Any other separator does no harm.
   */
  lemma {:induction false} SharedKeysExactly(a: ConnectMethod)
    requires Buildable(a)
    ensures SharesItsKey(a) <==> SchemeInProxy(a) || SchemeInTarget(a) || ProxyString(a) == ""
  {
    if SchemeInProxy(a) || SchemeInTarget(a) {
      SchemeInPartShares(a);
    } else if ProxyString(a) == "" {
      var b := a.(proxyURL := if a.proxyURL.None? then Some(URL("", "", "")) else None);
      assert Buildable(b) && Key(b) == Key(a) && !SameRoute(a, b);
    } else if SharesItsKey(a) {
      var b :| Buildable(b) && Key(b) == Key(a) && !SameRoute(a, b);
      OtherReadingHasScheme(a, b);
    }
  }

  /** And where nobody gives an empty proxy URL: only those with a whole scheme. */
  lemma {:induction false} ProperlySharedKeysExactly(a: ConnectMethod)
    requires Buildable(a) && Proper(a)
    ensures SharesWithProper(a) <==> SchemeInProxy(a) || SchemeInTarget(a)
  {
    if SchemeInProxy(a) || SchemeInTarget(a) {
      SchemeInPartShares(a);
    } else if SharesWithProper(a) {
      var b :| Buildable(b) && Proper(b) && Key(b) == Key(a) && !SameRoute(a, b);
      OtherReadingHasScheme(a, b);
    }
  }

  /** One text of a proxy URL stands for one scheme and one host. */
  predicate TextNamesProxy(a: ConnectMethod, b: ConnectMethod) {
    a.proxyURL.Some? && b.proxyURL.Some? && a.proxyURL.value.text == b.proxyURL.value.text ==>
      a.proxyURL.value.scheme == b.proxyURL.value.scheme && a.proxyURL.value.host == b.proxyURL.value.host
  }

  /** The same route is dialled at the same address. */
  lemma {:induction false} SameRouteSameAddr(a: ConnectMethod, b: ConnectMethod)
    requires SameRoute(a, b) && TextNamesProxy(a, b)
    ensures Addr(a) == Addr(b)
  {
  }

  /** What lies between two schemes can be read as the end of the proxy or as the start of the target. */
  lemma {:induction false} TwoReadings(a: ConnectMethod, b: ConnectMethod, x: string)
    requires ProxyString(a) == ProxyString(b) + "|" + b.targetScheme + "|" + x
    requires b.targetAddr == x + "|" + a.targetScheme + "|" + a.targetAddr
    ensures Key(a) == Key(b) && !SameParts(a, b)
  {
    var p, w, v, y := ProxyString(b), b.targetScheme, a.targetScheme, a.targetAddr;
    assert (p + "|" + w + "|" + x) + ("|" + v + "|" + y) == (p + "|" + w + "|") + (x + "|" + v + "|" + y);
  }

  /** Two routes that the package can build and that share a key: a proxy with a query, and a host with separators. */
  lemma {:induction false} SeparatorsCollide()
    ensures var a := ConnectMethod(Some(URL("http://p?q" + "|" + "http" + "|" + "x:80", "http", "p")), "http", "y:80");
            var b := ConnectMethod(Some(URL("http://p?q", "http", "p")), "http", "x:80" + "|" + "http" + "|" + "y:80");
            Buildable(a) && Buildable(b) && Key(a) == Key(b) && !SameParts(a, b)
  {
    var a := ConnectMethod(Some(URL("http://p?q" + "|" + "http" + "|" + "x:80", "http", "p")), "http", "y:80");
    var b := ConnectMethod(Some(URL("http://p?q", "http", "p")), "http", "x:80" + "|" + "http" + "|" + "y:80");
    LastIndexIs(a.targetAddr, ':', 1);
    TwoReadings(a, b, "x:80");
    PortBehind("x:80" + "|" + "http" + "|", a.targetAddr);
    BuildableIsWithPort(a);
    BuildableIsWithPort(b);
  }

  /** A separator alone is no collision: this route has one and shares its key only over an empty proxy. */
  lemma {:induction false} SeparatorAloneIsHarmless()
    ensures var a := ConnectMethod(None, "http", "y|r:80"); Buildable(a) && !SharesWithProper(a)
  {
    var a := ConnectMethod(None, "http", "y|r:80");
    LastIndexIs(a.targetAddr, ':', 3);
    BuildableIsWithPort(a);
    ProperlySharedKeysExactly(a);
  }
}
