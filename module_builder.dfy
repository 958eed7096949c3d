/**
 * The check -> prober module mapping of `New`
 * (internal/scraper/scraper.go:59-136): the IP-version table, the
 * Ping / HTTP / DNS branches, header parsing and the module name.
 */
module ModuleBuilder {
  import opened Common
  import opened Text
  import opened Labels

  /** `worldping.IpVersion`; any value outside the three named ones is `Unrecognized`. */
  datatype IpVersion = Any | V4 | V6 | Unrecognized(code: int)

  datatype PingSettings = PingSettings(hostname: string, ipVersion: IpVersion)

  /** HTTP settings; `method` is the textual name of the method enum (its `String()`). */
  datatype HttpSettings = HttpSettings(url: string, httpMethod: string, body: string,
                                       headers: seq<string>, ipVersion: IpVersion)

  /** DNS settings; `recordType` is the textual name of the record-type enum. */
  datatype DnsSettings = DnsSettings(server: string, name: string, recordType: string,
                                     ipVersion: IpVersion)

  /** The three optional settings pointers of `worldping.CheckSettings`. */
  datatype Settings = Settings(ping: Option<PingSettings>, http: Option<HttpSettings>,
                               dns: Option<DnsSettings>)

  /** The fields of `worldping.Check` the scraper reads; durations are milliseconds. */
  datatype Check = Check(id: int, enabled: bool, offset: int, frequency: int, timeout: int,
                         labels: seq<LabelPair>, settings: Settings)

  /**
   * A Go `map[string]string`: `NilMap` is its zero value, which can be read
   * but not written; `MapOf` is an allocated map with its entries.
   */
  datatype GoMap = NilMap | MapOf(entries: map<string, string>)

  /** The blackbox exporter's per-prober configuration blocks (zero value: all empty, headers nil). */
  datatype IcmpProbe = IcmpProbe(ipProtocol: string, ipProtocolFallback: bool)
  datatype HttpProbe = HttpProbe(ipProtocol: string, ipProtocolFallback: bool, httpMethod: string,
                                 body: string, headers: GoMap)
  datatype DnsProbe = DnsProbe(ipProtocol: string, ipProtocolFallback: bool, queryName: string,
                               queryType: string, transportProtocol: string)

  /** `bbeconfig.Module`: the prober name, the timeout in nanoseconds and the three blocks. */
  datatype ProbeModule = ProbeModule(prober: string, timeoutNs: int, icmp: IcmpProbe,
                                     http: HttpProbe, dns: DnsProbe)

  /** What `New` derives from a check: target, check name, module name and module. */
  datatype Built = Built(target: string, checkName: string, moduleName: string, probeModule: ProbeModule)

  /** `fmt.Errorf("unsupported change")`. */
  datatype BuildError = UnsupportedChange

  const ZeroIcmp := IcmpProbe("", false)
  const ZeroHttp := HttpProbe("", false, "", "", NilMap)
  const ZeroDns := DnsProbe("", false, "", "", "")

  /** `ipVersionToIpProtocol`: the preferred protocol and whether falling back is allowed. */
  function IpVersionToIpProtocol(v: IpVersion): (r: (string, bool))
    ensures r.0 == "" <==> v.Unrecognized?
    ensures r.1 <==> v == Any
    ensures r.0 == "ip4" <==> v == V4
    ensures r.0 == "ip6" <==> v == V6 || v == Any
  {
    match v
    case V4 => ("ip4", false)
    case V6 => ("ip6", false)
    case Any => ("ip6", true)
    case Unrecognized(_) => ("", false)
  }

  /**
   * `fmt.Sprintf("%s_%s_%d", prober, ipProtocol, id)`. When prober and
   * protocol hold no `_`, the name splits back into its three parts, so it
   * determines the check id.
   */
  function ModuleName(prober: string, ipProtocol: string, id: int): (r: string)
    ensures '_' !in prober && '_' !in ipProtocol ==> ParseModuleName(r) == Some((prober, ipProtocol, id))
  {
    var digits := FormatInt(id);
    var r := prober + "_" + ipProtocol + "_" + digits;
    assert r == prober + ['_'] + (ipProtocol + ['_'] + digits);
    if '_' in prober || '_' in ipProtocol then r
    else
      SplitFirstOfJoin(prober, '_', ipProtocol + ['_'] + digits);
      SplitFirstOfJoin(ipProtocol, '_', digits);
      FormatIntRoundTrip(id);
      r
  }

  /** Reads a module name back into its prober, protocol and check id. */
  function ParseModuleName(s: string): Option<(string, string, int)>
  {
    match SplitFirst(s, '_')
    case None => None
    case Some(p) =>
      match SplitFirst(p.1, '_')
      case None => None
      case Some(q) =>
        match ParseInt(q.1)
        case None => None
        case Some(id) => Some((p.0, q.0, id))
  }

  /** Checks of one kind and IP version with different ids never share a module name. */
  lemma ModuleNameUnique(prober: string, ipProtocol: string, id1: int, id2: int)
    requires '_' !in prober && '_' !in ipProtocol
    requires id1 != id2
    ensures ModuleName(prober, ipProtocol, id1) != ModuleName(prober, ipProtocol, id2)
  {
  }

  /** One header string split at its first colon; the value loses its leading spaces. */
  function SplitHeader(h: string): (r: (string, string))
    ensures ':' !in h ==> r == (h, "")
    ensures ':' in h ==> && ':' !in r.0 && |r.0| < |h| && h[..|r.0|] == r.0 && h[|r.0|] == ':'
                         && r.1 == TrimLeftSpaces(h[|r.0| + 1..])
  {
    match SplitFirst(h, ':')
    case None => (h, "")
    case Some(p) => (p.0, TrimLeftSpaces(p.1))
  }

  /**
   * The header map the HTTP branch fills: each header inserted in turn, the
   * later one winning. A name is a key exactly when some header carries it.
   */
  function HeaderMap(headers: seq<string>): (r: map<string, string>)
    ensures forall name :: name in r <==> Carries(headers, name)
  {
    if headers == [] then map[]
    else
      var h := SplitHeader(headers[|headers| - 1]);
      CarriesStepAll(headers);
      HeaderMap(headers[..|headers| - 1])[h.0 := h.1]
  }

  /** The name part of a header string. */
  function HeaderName(h: string): string
  {
    SplitHeader(h).0
  }

  /** Some header string in `headers` carries `name`. */
  predicate Carries(headers: seq<string>, name: string)
  {
    exists i :: 0 <= i < |headers| && HeaderName(headers[i]) == name
  }

  /** A header is carried by `headers` when it is carried by its last element or by the rest. */
  lemma CarriesStep(headers: seq<string>, name: string)
    requires headers != []
    ensures Carries(headers, name)
        <==> HeaderName(headers[|headers| - 1]) == name || Carries(headers[..|headers| - 1], name)
  {
    var n := |headers| - 1;
    var init := headers[..n];
    if Carries(headers, name) && HeaderName(headers[n]) != name {
      var i :| 0 <= i < |headers| && HeaderName(headers[i]) == name;
      assert i < n && init[i] == headers[i];
      assert Carries(init, name);
    }
    if Carries(init, name) {
      var i :| 0 <= i < |init| && HeaderName(init[i]) == name;
      assert headers[i] == init[i];
      assert Carries(headers, name);
    }
    if HeaderName(headers[n]) == name {
      assert Carries(headers, name);
    }
  }

  /** `CarriesStep` for every name at once. */
  lemma CarriesStepAll(headers: seq<string>)
    requires headers != []
    ensures forall name :: Carries(headers, name)
                           <==> HeaderName(headers[|headers| - 1]) == name || Carries(headers[..|headers| - 1], name)
  {
    forall name {
      CarriesStep(headers, name);
    }
  }

  /** Last write wins: the value stored for a name is that of the last header carrying it. */
  lemma {:induction false} HeaderMapLastWins(headers: seq<string>, i: nat)
    requires i < |headers|
    requires forall j :: i < j < |headers| ==> HeaderName(headers[j]) != HeaderName(headers[i])
    ensures SplitHeader(headers[i]).0 in HeaderMap(headers)
    ensures HeaderMap(headers)[SplitHeader(headers[i]).0] == SplitHeader(headers[i]).1
  {
    if i < |headers| - 1 {
      var init := headers[..|headers| - 1];
      assert init[i] == headers[i];
      forall j | i < j < |init| ensures HeaderName(init[j]) != HeaderName(init[i]) {
        assert init[j] == headers[j];
      }
      HeaderMapLastWins(init, i);
    }
  }

  /** The header loop of `New` (:108-115), starting from an empty map. */
  method ParseHeaders(headers: seq<string>) returns (m: map<string, string>)
    ensures m == HeaderMap(headers)
  {
    m := map[];
    for k := 0 to |headers|
      invariant m == HeaderMap(headers[..k])
    {
      var parts := SplitFirst(headers[k], ':');
      var name, value;
      if parts.Some? {
        name, value := parts.value.0, TrimLeftSpaces(parts.value.1);
      } else {
        name, value := headers[k], "";
      }
      assert headers[..k + 1][..k] == headers[..k];
      m := m[name := value];
    }
    assert headers[..|headers|] == headers;
  }

  /** `m[k] = v` on a Go map: `None` is the run-time panic of an assignment to a nil map. */
  function Assign(m: GoMap, k: string, v: string): (r: Option<GoMap>)
    ensures r.None? <==> m.NilMap?
    ensures r.Some? ==> r.value.MapOf? && k in r.value.entries && r.value.entries[k] == v
  {
    match m
    case NilMap => None
    case MapOf(entries) => Some(MapOf(entries[k := v]))
  }

  /**
   * The header loop of `New` run on the map `start`: each header assigned in
   * turn, as `HeaderMap` does, `None` once an assignment has panicked.
   */
  function HeaderLoop(start: GoMap, headers: seq<string>): Option<GoMap>
  {
    if headers == [] then Some(start)
    else
      var h := SplitHeader(headers[|headers| - 1]);
      match HeaderLoop(start, headers[..|headers| - 1])
      case None => None
      case Some(m) => Assign(m, h.0, h.1)
  }

  /**
   * The header loop as the source writes it: it assigns into
   * `bbeModule.HTTP.Headers`, which keeps the nil zero value of the module.
   */
  function HeaderMapAsWritten(headers: seq<string>): Option<GoMap>
  {
    HeaderLoop(ZeroHttp.headers, headers)
  }

  /** On a nil map the loop panics exactly when there is a header to assign. */
  lemma {:induction false} NilMapLoop(headers: seq<string>)
    ensures HeaderLoop(NilMap, headers).None? <==> |headers| > 0
  {
    if headers != [] {
      var init := headers[..|headers| - 1];
      NilMapLoop(init);
      if init == [] {
        assert HeaderLoop(NilMap, init) == Some(NilMap);
      }
    }
  }

  /** On an allocated empty map the loop never panics and builds `HeaderMap`. */
  lemma {:induction false} AllocatedMapLoop(headers: seq<string>)
    ensures HeaderLoop(MapOf(map[]), headers) == Some(MapOf(HeaderMap(headers)))
  {
    if headers != [] {
      AllocatedMapLoop(headers[..|headers| - 1]);
    }
  }

  /** The loop as written panics exactly when the check has at least one header. */
  lemma HeaderMapAsWrittenPanics(headers: seq<string>)
    ensures HeaderMapAsWritten(headers).None? <==> |headers| > 0
  {
    NilMapLoop(headers);
  }

  /** The header `X-Probe: yes` splits into the name `X-Probe` and the value `yes`. */
  lemma SplitHeaderExample()
    ensures SplitHeader("X-Probe: yes") == ("X-Probe", "yes")
  {
    assert TrimLeftSpaces(" yes") == "yes" by {
      assert " yes"[1..] == "yes";
    }
    assert "X-Probe" + [':'] + " yes" == "X-Probe: yes";
    SplitFirstOfJoin("X-Probe", ':', " yes");
  }

  /** An HTTP check with one header: the source panics where the intended map has one entry. */
  lemma NilHeaderMapPanics()
    ensures HeaderMapAsWritten(["X-Probe: yes"]).None?
    ensures HeaderLoop(MapOf(map[]), ["X-Probe: yes"]) == Some(MapOf(map["X-Probe" := "yes"]))
  {
    HeaderMapAsWrittenPanics(["X-Probe: yes"]);
    AllocatedMapLoop(["X-Probe: yes"]);
    SplitHeaderExample();
    assert ["X-Probe: yes"][..0] == [];
  }

  /** The module, target and names `New` derives from a check, or its "unsupported change" error. */
  function BuildModule(check: Check): (r: Result<Built, BuildError>)
    ensures r.Err? <==> check.settings.ping.None? && check.settings.http.None? && check.settings.dns.None?
    ensures r.Ok? ==> r.value.probeModule.timeoutNs == check.timeout * 1_000_000
  {
    var timeoutNs := check.timeout * 1_000_000;
    match check.settings
    case Settings(Some(ping), _, _) =>
      var (proto, fallback) := IpVersionToIpProtocol(ping.ipVersion);
      Ok(Built(ping.hostname, "ping", ModuleName("icmp", proto, check.id),
               ProbeModule("icmp", timeoutNs, IcmpProbe(proto, fallback), ZeroHttp, ZeroDns)))
    case Settings(None, Some(http), _) =>
      var (proto, fallback) := IpVersionToIpProtocol(http.ipVersion);
      Ok(Built(http.url, "http", ModuleName("http", proto, check.id),
               ProbeModule("http", timeoutNs, ZeroIcmp,
                           HttpProbe(proto, fallback, http.httpMethod, http.body, MapOf(HeaderMap(http.headers))),
                           ZeroDns)))
    case Settings(None, None, Some(dns)) =>
      var (proto, fallback) := IpVersionToIpProtocol(dns.ipVersion);
      Ok(Built(dns.server, "dns", "",
               ProbeModule("", timeoutNs, ZeroIcmp, ZeroHttp,
                           DnsProbe(proto, fallback, dns.name, dns.recordType, "udp"))))
    case Settings(None, None, None) => Err(UnsupportedChange)
  }

  /** Ping checks: ICMP prober, the hostname as target, `icmp_<proto>_<id>` as module name. */
  lemma BuildModulePing(check: Check)
    requires check.settings.ping.Some?
    ensures var ping := check.settings.ping.value;
            var (proto, fallback) := IpVersionToIpProtocol(ping.ipVersion);
            var r := BuildModule(check);
            && r.Ok? && r.value.checkName == "ping" && r.value.target == ping.hostname
            && r.value.probeModule.prober == "icmp"
            && r.value.probeModule.icmp == IcmpProbe(proto, fallback)
            && r.value.moduleName == ModuleName("icmp", proto, check.id)
            && ParseModuleName(r.value.moduleName) == Some(("icmp", proto, check.id))
  {
  }

  /** HTTP checks: HTTP prober, the URL as target, method and body copied, headers mapped, `http_<proto>_<id>`. */
  lemma BuildModuleHttp(check: Check)
    requires check.settings.ping.None? && check.settings.http.Some?
    ensures var http := check.settings.http.value;
            var (proto, fallback) := IpVersionToIpProtocol(http.ipVersion);
            var r := BuildModule(check);
            && r.Ok? && r.value.checkName == "http" && r.value.target == http.url
            && r.value.probeModule.prober == "http"
            && r.value.probeModule.http == HttpProbe(proto, fallback, http.httpMethod, http.body, MapOf(HeaderMap(http.headers)))
            && Some(r.value.probeModule.http.headers) == HeaderLoop(MapOf(map[]), http.headers)
            && r.value.moduleName == ModuleName("http", proto, check.id)
            && ParseModuleName(r.value.moduleName) == Some(("http", proto, check.id))
  {
    AllocatedMapLoop(check.settings.http.value.headers);
  }

  /**
   * DNS checks: the server is the target, the query is copied and the
   * transport is always UDP; the branch sets neither the prober nor the
   * module name, so both stay empty.
   */
  lemma BuildModuleDns(check: Check)
    requires check.settings.ping.None? && check.settings.http.None? && check.settings.dns.Some?
    ensures var dns := check.settings.dns.value;
            var r := BuildModule(check);
            && r.Ok? && r.value.checkName == "dns" && r.value.target == dns.server
            && r.value.probeModule.prober == "" && r.value.moduleName == ""
            && r.value.probeModule.dns.transportProtocol == "udp"
            && r.value.probeModule.dns.queryName == dns.name
            && r.value.probeModule.dns.queryType == dns.recordType
  {
  }

  /** Consequently two DNS checks with different ids share the (empty) module name. */
  lemma DnsModuleNamesCollide(c1: Check, c2: Check)
    requires c1.settings == Settings(None, None, c1.settings.dns) && c1.settings.dns.Some?
    requires c2.settings == Settings(None, None, c2.settings.dns) && c2.settings.dns.Some?
    ensures BuildModule(c1).Ok? && BuildModule(c2).Ok?
    ensures BuildModule(c1).value.moduleName == BuildModule(c2).value.moduleName
  {
  }
}
