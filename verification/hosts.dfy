/** From a registry key to the hosts and URLs an app is told about, and from a Host header back to the key. */
module Hosts {
  import opened Wrappers
  import opened Text
  import opened Labels

  const HOST_SUFFIX := ".adj.ac"
  const VERIFY_HOST := "__adj_verify__.adj.ac"

  function HostOf(key: string): string {
    key + HOST_SUFFIX
  }

  predicate AllDigits(s: string) {
    forall i :: 0 <= i < |s| ==> IsDigit(s[i])
  }

  /** Cut a trailing `:port`; what follows the last colon must be digits, possibly none. */
  function StripPort(host: string): string {
    match FindLast(host, ':')
    case Some(i) => if AllDigits(host[i + 1..]) then host[..i] else host
    case None => host
  }

  function Dots(s: string): nat {
    if s == "" then 0 else (if s[0] == '.' then 1 else 0) + Dots(s[1..])
  }

  predicate EndsWith(s: string, suffix: string) {
    |suffix| <= |s| && s[|s| - |suffix|..] == suffix
  }

  /** `<name>` or `<label>.<name>` before the suffix, no label empty. */
  function NameFromHost(host: string): (r: Option<string>)
    ensures r.Some? ==> Lower(host) == HostOf(r.value)
  {
    var lower := Lower(host);
    if !EndsWith(lower, HOST_SUFFIX) then None
    else
      var prefix := lower[..|lower| - |HOST_SUFFIX|];
      assert lower == prefix + HOST_SUFFIX;
      if prefix == "" || Dots(prefix) > 1 then None
      else
        var (tag, base) := SplitKey(prefix);
        if base == "" || tag == Some("") then None else Some(prefix)
  }

  datatype Route = NotOurs | StatusPage | VerifyMarker | App(key: string)

  /** Where a Host header is sent, in the order the request handler decides. */
  function RouteOf(rawHost: string): Route {
    var host := StripPort(rawHost);
    match NameFromHost(host)
    case None => NotOurs
    case Some(name) =>
      if name == "status" then StatusPage
      else if host == VERIFY_HOST then VerifyMarker
      else App(name)
  }

  // ---------------------------------------------------------------- what a booted app is told

  function Decimal(n: nat): (r: string)
    ensures r != "" && AllDigits(r)
  {
    var digit := ['0' + (n % 10) as char];
    if n < 10 then digit else Decimal(n / 10) + digit
  }

  /** The number a string of digits stands for. */
  function Value(s: string): nat {
    if s == "" then 0
    else 10 * Value(s[..|s| - 1]) + (if IsDigit(s[|s| - 1]) then (s[|s| - 1] as int - '0' as int) else 0)
  }

  lemma {:induction false} DecimalValue(n: nat)
    ensures Value(Decimal(n)) == n
    decreases n
  {
    var digit := ['0' + (n % 10) as char];
    assert digit[..0] == "";
    if n >= 10 {
      DecimalValue(n / 10);
      var d := Decimal(n / 10) + digit;
      assert d[..|d| - 1] == Decimal(n / 10);
    }
  }

  lemma {:induction false} NoLeadingZero(n: nat)
    ensures Decimal(n)[0] == '0' ==> n == 0
    decreases n
  {
    if n >= 10 {
      NoLeadingZero(n / 10);
      assert Decimal(n)[0] == Decimal(n / 10)[0];
    }
  }

  /** The port a Host header names. */
  function PortIn(header: string): Option<nat> {
    match FindLast(header, ':')
    case None => None
    case Some(i) => Some(Value(header[i + 1..]))
  }

  datatype AdjVar = AdjName | AdjHost | AdjUrl | AdjUrlHttp | AdjUrlDirect | AdjUrlHttpDirect

  function VarName(v: AdjVar): string {
    match v
    case AdjName => "ADJ_NAME"
    case AdjHost => "ADJ_HOST"
    case AdjUrl => "ADJ_URL"
    case AdjUrlHttp => "ADJ_URL_HTTP"
    case AdjUrlDirect => "ADJ_URL_DIRECT"
    case AdjUrlHttpDirect => "ADJ_URL_HTTP_DIRECT"
  }

  lemma VarNamesDiffer(a: AdjVar, b: AdjVar)
    requires VarName(a) == VarName(b)
    ensures a == b
  {
    assert VarName(AdjName)[4] == 'N' && VarName(AdjHost)[4] == 'H';
  }

  function Url(secure: bool, header: string): string {
    (if secure then "https://" else "http://") + header
  }

  /** The variables the daemon owns. An unknown listener port drops the URL that would name it. */
  function AdjEnv(key: string, http: Option<nat>, https: Option<nat>): map<AdjVar, string> {
    var host := HostOf(key);
    map[AdjName := key, AdjHost := host, AdjUrl := Url(true, host), AdjUrlHttp := Url(false, host)]
    + (if https.Some? then map[AdjUrlDirect := Url(true, host + ":" + Decimal(https.value))] else map[])
    + (if http.Some? then map[AdjUrlHttpDirect := Url(false, host + ":" + Decimal(http.value))] else map[])
  }

  /** The layer of the child's environment these variables make. */
  function AdjLayer(key: string, http: Option<nat>, https: Option<nat>): (r: map<string, string>)
    ensures forall v <- AdjEnv(key, http, https) :: VarName(v) in r && r[VarName(v)] == AdjEnv(key, http, https)[v]
    ensures forall k <- r :: exists v :: v in AdjEnv(key, http, https) && VarName(v) == k
  {
    var vars := AdjEnv(key, http, https);
    assert forall a, b :: VarName(a) == VarName(b) ==> a == b by {
      forall a, b | VarName(a) == VarName(b) ensures a == b { VarNamesDiffer(a, b); }
    }
    map v | v in vars :: VarName(v) := vars[v]
  }

  /** One variable of the layer, by its name and its value. */
  predicate Shows(key: string, http: Option<nat>, https: Option<nat>, k: string, value: string) {
    || (k == "ADJ_NAME" && value == key)
    || (k == "ADJ_HOST" && value == key + ".adj.ac")
    || (k == "ADJ_URL" && value == "https://" + (key + ".adj.ac"))
    || (k == "ADJ_URL_HTTP" && value == "http://" + (key + ".adj.ac"))
    || (k == "ADJ_URL_DIRECT" && https.Some? && value == "https://" + (key + ".adj.ac" + ":" + Decimal(https.value)))
    || (k == "ADJ_URL_HTTP_DIRECT" && http.Some? && value == "http://" + (key + ".adj.ac" + ":" + Decimal(http.value)))
  }

  /** Those are exactly the variables of the layer. */
  lemma AdjLayerExactly(key: string, http: Option<nat>, https: Option<nat>, k: string, value: string)
    ensures k in AdjLayer(key, http, https) && AdjLayer(key, http, https)[k] == value <==>
            Shows(key, http, https, k, value)
  {
    var layer := AdjLayer(key, http, https);
    if k in layer {
      var v :| v in AdjEnv(key, http, https) && VarName(v) == k;
      VarShows(key, http, https, v);
    }
    if Shows(key, http, https, k, value) {
      var v := VarOf(key, http, https, k, value);
      assert layer[k] == value;
    }
  }

  lemma VarShows(key: string, http: Option<nat>, https: Option<nat>, v: AdjVar)
    requires v in AdjEnv(key, http, https)
    ensures Shows(key, http, https, VarName(v), AdjEnv(key, http, https)[v])
  {
    AdjEnvValue(key, http, https, v);
  }

  lemma NamesApart()
    ensures |"ADJ_NAME"| == |"ADJ_HOST"| == 8 && "ADJ_NAME"[4] == 'N' && "ADJ_HOST"[4] == 'H'
    ensures |"ADJ_URL"| == 7 && |"ADJ_URL_HTTP"| == 12 && |"ADJ_URL_DIRECT"| == 14 && |"ADJ_URL_HTTP_DIRECT"| == 19
  {}

  lemma VarOf(key: string, http: Option<nat>, https: Option<nat>, k: string, value: string) returns (v: AdjVar)
    requires Shows(key, http, https, k, value)
    ensures v in AdjEnv(key, http, https) && VarName(v) == k && AdjEnv(key, http, https)[v] == value
  {
    NamesApart();
    v := if k == "ADJ_NAME" then AdjName
         else if k == "ADJ_HOST" then AdjHost
         else if k == "ADJ_URL" then AdjUrl
         else if k == "ADJ_URL_HTTP" then AdjUrlHttp
         else if k == "ADJ_URL_DIRECT" then AdjUrlDirect
         else AdjUrlHttpDirect;
    AdjEnvSome(key, http, https, v);
    AdjEnvValue(key, http, https, v);
  }

  lemma AdjEnvSome(key: string, http: Option<nat>, https: Option<nat>, v: AdjVar)
    requires (v == AdjUrlDirect ==> https.Some?) && (v == AdjUrlHttpDirect ==> http.Some?)
    ensures v in AdjEnv(key, http, https)
  {}

  /** `host` in some letter case, with or without a port. */
  ghost predicate Addresses(header: string, key: string) {
    exists host: string, port: string ::
      Folds(host, HostOf(key)) && AllDigits(port) && (header == host || header == host + ":" + port)
  }

  // ---------------------------------------------------------------- round trip

  lemma {:induction false} DotsZero(s: string)
    ensures Dots(s) == 0 <==> '.' !in s
  {
    if s != "" { DotsZero(s[1..]); }
  }

  lemma {:induction false} DotsJoin(a: string, b: string)
    ensures Dots(a + b) == Dots(a) + Dots(b)
  {
    if a == "" {
      assert a + b == b;
    } else {
      assert (a + b)[1..] == a[1..] + b;
      DotsJoin(a[1..], b);
    }
  }

  /** Only characters that mean the same in any letter case and never delimit a port. */
  ghost predicate Plain(s: string) {
    forall i :: 0 <= i < |s| ==> LabelChar(s[i]) || s[i] == '.'
  }

  lemma PlainFacts(s: string)
    requires Plain(s)
    ensures Lower(s) == s && ':' !in s && '_' !in s
  {}

  lemma ValidKeyPlain(key: string)
    requires ValidKey(key)
    ensures Plain(key) && key != ""
  {}

  lemma ValidKeyDots(key: string)
    requires ValidKey(key)
    ensures Dots(key) <= 1
  {
    var (tag, base) := SplitKey(key);
    LabelHasNoDot(base);
    DotsZero(base);
    if tag.Some? {
      LabelHasNoDot(tag.value);
      DotsInstance(tag.value, base);
    }
  }

  lemma LabelHasNoDot(s: string)
    requires ValidLabel(s)
    ensures '.' !in s
  {}

  lemma DotsInstance(tag: string, base: string)
    requires '.' !in tag && '.' !in base
    ensures Dots(tag + "." + base) == 1
  {
    DotsZero(tag);
    DotsZero(base);
    DotsJoin(tag + ".", base);
    DotsJoin(tag, ".");
  }

  lemma NoneBeforeLowering(host: string, lowered: string, c: char)
    requires Lower(host) == lowered && c !in lowered && LowerChar(c) == c
    ensures c !in host
  {}

  lemma StripPortOf(host: string, port: string)
    requires ':' !in host && AllDigits(port)
    ensures StripPort(host) == host && StripPort(host + ":" + port) == host
  {}

  lemma NameFound(host: string, key: string)
    requires ValidKey(key) && Lower(host) == HostOf(key)
    ensures NameFromHost(host) == Some(key)
  {
    ValidKeyPlain(key);
    ValidKeyDots(key);
    var lower := Lower(host);
    SuffixCut(key, lower);
  }

  /** One or two labels, none empty: what a name read off a host looks like. */
  predicate HostName(name: string) {
    var (tag, base) := SplitKey(name);
    OneLabel(base) && (tag.Some? ==> OneLabel(tag.value))
  }

  lemma HostNameDots(name: string)
    ensures HostName(name) <==>
            name != "" && Dots(name) <= 1 && SplitKey(name).1 != "" && SplitKey(name).0 != Some("")
  {
    var (tag, base) := SplitKey(name);
    DotsZero(base);
    if tag.Some? {
      DotsZero(tag.value);
      DotsJoin(tag.value + ".", base);
      DotsJoin(tag.value, ".");
    }
  }

  /** A host carries a name exactly when, lower-cased, it is one or two labels before the suffix, and then that name. */
  lemma NameFromHostExactly(host: string, name: string)
    ensures NameFromHost(host) == Some(name) <==> Folds(host, name + ".adj.ac") && HostName(name)
  {
    FoldsExactly(host, name + ".adj.ac");
    var lower := Lower(host);
    if EndsWith(lower, HOST_SUFFIX) {
      HostNameDots(lower[..|lower| - |HOST_SUFFIX|]);
    }
    if lower == HostOf(name) {
      SuffixCut(name, lower);
    }
  }

  lemma SuffixCut(key: string, whole: string)
    requires whole == key + HOST_SUFFIX
    ensures EndsWith(whole, HOST_SUFFIX) && whole[..|whole| - |HOST_SUFFIX|] == key
  {}

  lemma VerifyHostMarked()
    ensures '_' in VERIFY_HOST
  {}

  lemma StatusNotValid()
    ensures !ValidKey("status")
  {}

  /** No registrable key is taken by the status page or the verify marker. */
  lemma HostRoutes(host: string, key: string)
    requires ValidKey(key) && Folds(host, HostOf(key))
    ensures StripPort(host) == host ==> RouteOf(host) == App(key)
    ensures ':' !in host && host != VERIFY_HOST && key != "status"
  {
    FoldsExactly(host, HostOf(key));
    ValidKeyPlain(key);
    assert Plain(HostOf(key));
    PlainFacts(HostOf(key));
    NoneBeforeLowering(host, HostOf(key), ':');
    NoneBeforeLowering(host, HostOf(key), '_');
    NameFound(host, key);
    VerifyHostMarked();
    StatusNotValid();
  }

  /** Every way of writing an app's host, in any letter case and with any port, reaches exactly that app. */
  lemma AddressRoutes(header: string, key: string)
    requires ValidKey(key) && Addresses(header, key)
    ensures RouteOf(header) == App(key)
  {
    var host: string, port: string :|
      Folds(host, HostOf(key)) && AllDigits(port) && (header == host || header == host + ":" + port);
    HostRoutes(host, key);
    StripPortOf(host, port);
  }

  lemma StripPortUndo(header: string) returns (port: string)
    ensures AllDigits(port)
    ensures header == StripPort(header) || header == StripPort(header) + ":" + port
  {
    port := "";
    match FindLast(header, ':') {
      case Some(i) =>
        if AllDigits(header[i + 1..]) {
          port := header[i + 1..];
          assert header == header[..i] + ":" + port;
        }
      case None =>
    }
  }

  /** And nothing else does: a header routed to a key is a way of writing that key's host. */
  lemma RoutesOnlyAddresses(header: string, key: string)
    ensures RouteOf(header) == App(key) ==> Addresses(header, key)
  {
    if RouteOf(header) == App(key) {
      FoldsExactly(StripPort(header), HostOf(key));
      var port := StripPortUndo(header);
      RoutedName(StripPort(header), key);
      AddressesWith(header, key, StripPort(header), port);
    }
  }

  lemma AddressesWith(header: string, key: string, host: string, port: string)
    requires Folds(host, HostOf(key)) && AllDigits(port) && (header == host || header == host + ":" + port)
    ensures Addresses(header, key)
  {}

  lemma RoutedName(host: string, key: string)
    requires NameFromHost(host) == Some(key)
    ensures Lower(host) == HostOf(key)
  {}

  /** What is not an app's: the status page in any letter case, the verify marker only as it is written, and no name. */
  lemma RouteExactly(header: string)
    ensures RouteOf(header) == StatusPage <==> Addresses(header, "status")
    ensures RouteOf(header) == VerifyMarker <==> Written(header, "__adj_verify__.adj.ac")
    ensures RouteOf(header) == NotOurs <==> forall name :: HostName(name) ==> !Addresses(header, name)
  {
    StatusExactly(header);
    VerifyExactly(header);
    forall name | HostName(name) && Addresses(header, name) ensures NameFromHost(StripPort(header)) == Some(name) {
      NamedBy(header, name);
    }
    if NameFromHost(StripPort(header)).Some? {
      AddressedBy(header, NameFromHost(StripPort(header)).value);
    }
  }

  lemma StatusExactly(header: string)
    ensures RouteOf(header) == StatusPage <==> Addresses(header, "status")
  {
    StatusIsName();
    if Addresses(header, "status") {
      NamedBy(header, "status");
    }
    if RouteOf(header) == StatusPage {
      AddressedBy(header, "status");
    }
  }

  lemma StatusIsName()
    ensures HostName("status")
  {
    assert '.' !in "status";
  }

  lemma VerifyExactly(header: string)
    ensures RouteOf(header) == VerifyMarker <==> Written(header, "__adj_verify__.adj.ac")
  {
    VerifyNamed();
    NotStatus();
    VerifySpelled();
    WrittenExactly(header, VERIFY_HOST, "__adj_verify__");
    RouteOfHost(header, StripPort(header));
  }

  lemma RouteOfHost(header: string, host: string)
    requires host == StripPort(header)
    ensures RouteOf(header) == VerifyMarker <==>
            NameFromHost(host).Some? && NameFromHost(host) != Some("status") && host == VERIFY_HOST
  {}

  lemma NotStatus()
    ensures "__adj_verify__" != "status"
  {
    assert |"__adj_verify__"| == 14 && |"status"| == 6;
  }

  lemma WrittenExactly(header: string, host: string, name: string)
    requires Folds(host, HostOf(name))
    ensures StripPort(header) == host <==> Written(header, host)
  {
    StripPortNamed(host, name, "");
    if port: string :| AllDigits(port) && header == host + ":" + port {
      StripPortNamed(host, name, port);
    }
    if StripPort(header) == host {
      var port := StripPortUndo(header);
    }
  }

  lemma VerifyNamed()
    ensures Folds(VERIFY_HOST, HostOf("__adj_verify__")) && NameFromHost(VERIFY_HOST) == Some("__adj_verify__")
  {
    VerifySpelled();
    NoDotInVerify();
    FoldsExactly(VERIFY_HOST, VERIFY_HOST);
    NameFromHostExactly(VERIFY_HOST, "__adj_verify__");
  }

  lemma VerifySpelled()
    ensures VERIFY_HOST == "__adj_verify__" + ".adj.ac" == "__adj_verify__.adj.ac" && Folds(VERIFY_HOST, VERIFY_HOST)
  {}

  lemma NoDotInVerify()
    ensures HostName("__adj_verify__")
  {
    assert '.' !in "__adj_verify__";
  }

  /** `header` is `host`, with or without a port. */
  ghost predicate Written(header: string, host: string) {
    header == host || exists port: string :: AllDigits(port) && header == host + ":" + port
  }

  lemma NamedBy(header: string, name: string)
    requires HostName(name) && Addresses(header, name)
    ensures NameFromHost(StripPort(header)) == Some(name)
  {
    var host: string, port: string :|
      Folds(host, HostOf(name)) && AllDigits(port) && (header == host || header == host + ":" + port);
    StripPortNamed(host, name, port);
    NameFromHostExactly(host, name);
  }

  /** After the last colon of a host there is a suffix, and so no port, unless one was added. */
  lemma StripPortNamed(host: string, name: string, port: string)
    requires Folds(host, HostOf(name)) && AllDigits(port)
    ensures StripPort(host) == host && StripPort(host + ":" + port) == host
  {
    var last := |host| - 1;
    assert HostOf(name)[last] == 'c' && !IsDigit(host[last]) && host[last] != ':';
    match FindLast(host, ':') {
      case Some(i) => assert host[i + 1..][last - i - 1] == host[last];
      case None =>
    }
    var whole := host + ":" + port;
    assert whole[|host|] == ':' && whole[|host| + 1..] == port && whole[..|host|] == host;
    FindLastIs(whole, ':', |host|);
  }

  lemma AddressedBy(header: string, name: string)
    requires NameFromHost(StripPort(header)) == Some(name)
    ensures HostName(name) && Addresses(header, name)
  {
    NameFromHostExactly(StripPort(header), name);
    var port := StripPortUndo(header);
    AddressesWith(header, name, StripPort(header), port);
  }

  /** Distinct keys never share an address. */
  lemma AddressesDiffer(header: string, a: string, b: string)
    requires ValidKey(a) && ValidKey(b) && Addresses(header, a) && Addresses(header, b)
    ensures a == b
  {
    AddressRoutes(header, a);
    AddressRoutes(header, b);
  }

  lemma HostItself(key: string)
    requires ValidKey(key)
    ensures Folds(HostOf(key), HostOf(key))
    ensures RouteOf(HostOf(key)) == App(key) && PortIn(HostOf(key)).None?
  {
    ValidKeyPlain(key);
    PlainHost(key);
    PlainFacts(HostOf(key));
    FoldsExactly(HostOf(key), HostOf(key));
    AddressesWith(HostOf(key), key, HostOf(key), "");
    AddressRoutes(HostOf(key), key);
  }

  lemma PlainHost(key: string)
    requires Plain(key)
    ensures Plain(HostOf(key))
  {}

  lemma HostWithPort(key: string, port: nat)
    requires ValidKey(key)
    ensures RouteOf(HostOf(key) + ":" + Decimal(port)) == App(key)
    ensures PortIn(HostOf(key) + ":" + Decimal(port)) == Some(port)
  {
    HostItself(key);
    HeaderRoutes(key, HostOf(key), Decimal(port));
    PortAfterColon(HostOf(key), port);
  }

  lemma HeaderRoutes(key: string, host: string, port: string)
    requires ValidKey(key) && Folds(host, HostOf(key)) && AllDigits(port)
    ensures RouteOf(host + ":" + port) == App(key)
  {
    AddressesWith(host + ":" + port, key, host, port);
    AddressRoutes(host + ":" + port, key);
  }

  lemma PortAfterColon(host: string, port: nat)
    ensures PortIn(host + ":" + Decimal(port)) == Some(port)
  {
    var whole := host + ":" + Decimal(port);
    assert whole[|host|] == ':' && whole[|host| + 1..] == Decimal(port);
    assert ':' !in Decimal(port);
    FindLastIs(whole, ':', |host|);
    DecimalValue(port);
  }

  /** A URL of the given scheme and port whose host is routed to `key`. */
  ghost predicate PointsAt(url: string, secure: bool, port: Option<nat>, key: string) {
    exists header: string ::
      && url == (if secure then "https://" + header else "http://" + header)
      && RouteOf(header) == App(key) && PortIn(header) == port
  }

  /**
   The variable leads back to the app: its value names the app, its host, or a URL on one of its addresses
   with the right scheme and, for the `_DIRECT` ones, that listener's port.
   */
  ghost predicate LeadsBack(v: AdjVar, value: string, key: string, http: Option<nat>, https: Option<nat>) {
    match v
    case AdjName => value == key
    case AdjHost => RouteOf(value) == App(key) && PortIn(value).None?
    case AdjUrl => PointsAt(value, true, None, key)
    case AdjUrlHttp => PointsAt(value, false, None, key)
    case AdjUrlDirect => PointsAt(value, true, https, key)
    case AdjUrlHttpDirect => PointsAt(value, false, http, key)
  }

  lemma AdjEnvValue(key: string, http: Option<nat>, https: Option<nat>, v: AdjVar)
    requires v in AdjEnv(key, http, https)
    ensures v == AdjUrlDirect ==> https.Some?
    ensures v == AdjUrlHttpDirect ==> http.Some?
    ensures AdjEnv(key, http, https)[v] ==
            match v
            case AdjName => key
            case AdjHost => HostOf(key)
            case AdjUrl => Url(true, HostOf(key))
            case AdjUrlHttp => Url(false, HostOf(key))
            case AdjUrlDirect => Url(true, HostOf(key) + ":" + Decimal(https.value))
            case AdjUrlHttpDirect => Url(false, HostOf(key) + ":" + Decimal(http.value))
  {}

  /** Every name, host and URL a booted app is told leads back to that app. */
  lemma AdjEnvRoutes(key: string, http: Option<nat>, https: Option<nat>, v: AdjVar)
    requires ValidKey(key) && v in AdjEnv(key, http, https)
    ensures LeadsBack(v, AdjEnv(key, http, https)[v], key, http, https)
  {
    AdjEnvValue(key, http, https, v);
    HostItself(key);
    match v
    case AdjName =>
    case AdjHost =>
    case AdjUrl => assert PointsAt(Url(true, HostOf(key)), true, None, key);
    case AdjUrlHttp => assert PointsAt(Url(false, HostOf(key)), false, None, key);
    case AdjUrlDirect => DirectLeads(true, https.value, key);
    case AdjUrlHttpDirect => DirectLeads(false, http.value, key);
  }

  lemma DirectLeads(secure: bool, port: nat, key: string)
    requires ValidKey(key)
    ensures PointsAt(Url(secure, HostOf(key) + ":" + Decimal(port)), secure, Some(port), key)
  {
    HostWithPort(key, port);
    HeaderPoints(secure, HostOf(key) + ":" + Decimal(port), Some(port), key);
  }

  lemma HeaderPoints(secure: bool, header: string, port: Option<nat>, key: string)
    requires RouteOf(header) == App(key) && PortIn(header) == port
    ensures PointsAt(Url(secure, header), secure, port, key)
  {}
}
