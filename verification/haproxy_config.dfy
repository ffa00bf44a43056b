/**
  The HAProxy backend configuration the charm renders from its settings
  (`_haproxy_backend_config` in src/charm.py): two backend stanzas,
  `mysql-writers` then `mysql-readers`, each sending TCP traffic to the one
  MySQL server `host:port` and health-checking it with an external script.

  Host and port are interpolated verbatim. The partner of the renderer is a
  reader, `ReadEndpoint`, that recovers `(host, port)` from a rendered
  document: every rendered document reads back to the settings it came from.
 */
module HaproxyConfig {
  import opened Options
  import Decimal

  const HostKey := "mysql_host"
  const PortKey := "mysql_port"
  const DefaultHost := "mysql"
  const DefaultPort := 3306

  const WritersBackend := "mysql-writers"
  const ReadersBackend := "mysql-readers"
  const HealthCheckScript := "/usr/local/bin/check_mysql.sh"

  /** A value in the charm's configuration store. */
  datatype ConfigValue = Str(s: string) | Int(i: int) | Bool(b: bool)

  type Config = map<string, ConfigValue>

  /** What f-string interpolation writes for a configuration value (`str()`). */
  function Show(v: ConfigValue): string {
    match v
    case Str(s) => s
    case Int(i) => Decimal.IntToString(i)
    case Bool(b) => Decimal.BoolToString(b)
  }

  /** `config.get(key, default)`. */
  function Setting(cfg: Config, key: string, default: ConfigValue): ConfigValue {
    (if key in cfg then Some(cfg[key]) else None).GetOr(default)
  }

  function HostSetting(cfg: Config): ConfigValue {
    Setting(cfg, HostKey, Str(DefaultHost))
  }

  function PortSetting(cfg: Config): ConfigValue {
    Setting(cfg, PortKey, Int(DefaultPort))
  }

  /** Terminates every line with a newline and concatenates them. */
  function Unlines(lines: seq<string>): string {
    if |lines| == 0 then "" else lines[0] + "\n" + Unlines(lines[1..])
  }

  /** Cuts text into lines at each newline; a final newline ends the last line. */
  function SplitLines(s: string): seq<string>
    decreases |s|
  {
    if |s| == 0 then []
    else match IndexOf(s, '\n')
      case None => [s]
      case Some(i) => [s[..i]] + SplitLines(s[i + 1..])
  }

  /** The lines of a stanza before its server line. */
  function FixedLines(name: string): seq<string> {
    [ "backend " + name,
      "    mode tcp",
      "    option srvtcpka",
      "    balance roundrobin",
      "    option external-check",
      "    external-check command " + HealthCheckScript ]
  }

  function ServerLine(address: string): string {
    "    server mysql " + address + " check"
  }

  function StanzaLines(name: string, address: string): seq<string> {
    FixedLines(name) + [ServerLine(address)]
  }

  /** Both stanzas, separated by an empty line. */
  function DocumentLines(address: string): seq<string> {
    StanzaLines(WritersBackend, address) + [""] + StanzaLines(ReadersBackend, address)
  }

  function Document(address: string): string {
    Unlines(DocumentLines(address))
  }

  /** `_haproxy_backend_config` once host and port have been turned into text. */
  function BackendConfig(host: string, port: string): string {
    Document(host + ":" + port)
  }

  /** `_haproxy_backend_config` reading its settings from the configuration store. */
  function RenderConfig(cfg: Config): string {
    BackendConfig(Show(HostSetting(cfg)), Show(PortSetting(cfg)))
  }

  /**
    The document is the writers stanza, an empty line and the readers stanza;
    read back as lines it is exactly those lines when host and port hold no
    newline; it ends with a newline.
   */
  lemma BackendConfigLayout(host: string, port: string)
    ensures BackendConfig(host, port)
            == Unlines(StanzaLines(WritersBackend, host + ":" + port)) + "\n"
               + Unlines(StanzaLines(ReadersBackend, host + ":" + port))
    ensures '\n' !in host && '\n' !in port ==>
              SplitLines(BackendConfig(host, port)) == DocumentLines(host + ":" + port)
    ensures var doc := BackendConfig(host, port); |doc| > 0 && doc[|doc| - 1] == '\n'
  {
    var address := host + ":" + port;
    DocumentStanzas(address);
    if '\n' !in host && '\n' !in port {
      DocumentLinesSplit(address);
    }
    DocumentLast(address);
  }

  /**
    The rendered document carries the looked-up settings' text as its server
    address, and with an integer port it reads back to exactly those settings.
   */
  lemma RenderConfigReadsBack(cfg: Config)
    ensures Decode(RenderConfig(cfg)) == Some(Show(HostSetting(cfg)) + ":" + Show(PortSetting(cfg)))
    ensures PortSetting(cfg).Int? ==>
              ReadEndpoint(RenderConfig(cfg)) == Some((Show(HostSetting(cfg)), PortSetting(cfg).i))
  {
    var host := Show(HostSetting(cfg));
    DecodeDocument(host + ":" + Show(PortSetting(cfg)));
    if PortSetting(cfg).Int? {
      ReadEndpointRoundTrip(host, PortSetting(cfg).i);
    }
  }

  /** Absent settings render as host `mysql` and port `3306`. */
  lemma DefaultsRender(cfg: Config)
    requires HostKey !in cfg && PortKey !in cfg
    ensures RenderConfig(cfg) == BackendConfig("mysql", "3306")
  {
    assert Decimal.NatToString(3) == "3";
    assert Decimal.NatToString(33) == "33";
    assert Decimal.NatToString(330) == "330";
    assert Decimal.NatToString(3306) == "3306";
  }

  /** An absent `mysql_host` renders as host `mysql`, whatever the port. */
  lemma HostDefaults(cfg: Config)
    requires HostKey !in cfg
    ensures RenderConfig(cfg) == BackendConfig("mysql", Show(PortSetting(cfg)))
    ensures Decode(RenderConfig(cfg)) == Some("mysql" + ":" + Show(PortSetting(cfg)))
  {
    DecodeDocument("mysql" + ":" + Show(PortSetting(cfg)));
  }

  /** An absent `mysql_port` renders as port `3306`, whatever the host. */
  lemma PortDefaults(cfg: Config)
    requires PortKey !in cfg
    ensures RenderConfig(cfg) == BackendConfig(Show(HostSetting(cfg)), "3306")
    ensures ReadEndpoint(RenderConfig(cfg)) == Some((Show(HostSetting(cfg)), 3306))
  {
    assert Decimal.NatToString(3) == "3";
    assert Decimal.NatToString(33) == "33";
    assert Decimal.NatToString(330) == "330";
    assert Decimal.NatToString(3306) == "3306";
    ReadEndpointRoundTrip(Show(HostSetting(cfg)), 3306);
  }

  /** The document depends on the configuration only through host and port. */
  lemma OnlyEndpointMatters(c1: Config, c2: Config)
    requires HostSetting(c1) == HostSetting(c2) && PortSetting(c1) == PortSetting(c2)
    ensures RenderConfig(c1) == RenderConfig(c2)
  {
  }

  lemma {:induction false} UnlinesAppend(a: seq<string>, b: seq<string>)
    ensures Unlines(a + b) == Unlines(a) + Unlines(b)
    decreases |a|
  {
    if |a| == 0 {
      assert a + b == b;
    } else {
      assert (a + b)[1..] == a[1..] + b;
      UnlinesAppend(a[1..], b);
    }
  }

  /** Splitting joined lines gives the lines back when none holds a newline. */
  lemma {:induction false} SplitUnlines(lines: seq<string>)
    requires forall k :: 0 <= k < |lines| ==> '\n' !in lines[k]
    ensures SplitLines(Unlines(lines)) == lines
    decreases |lines|
  {
    if |lines| > 0 {
      var s := Unlines(lines);
      var head := lines[0];
      assert s == head + "\n" + Unlines(lines[1..]);
      assert s[|head|] == '\n';
      assert forall j :: 0 <= j < |head| ==> s[j] == head[j];
      assert IndexOf(s, '\n') == Some(|head|);
      assert s[..|head|] == head;
      assert s[|head| + 1..] == Unlines(lines[1..]);
      SplitUnlines(lines[1..]);
    }
  }

  lemma DocumentStanzas(address: string)
    ensures Document(address) == Unlines(StanzaLines(WritersBackend, address)) + "\n"
                                 + Unlines(StanzaLines(ReadersBackend, address))
  {
    var w := StanzaLines(WritersBackend, address);
    var r := StanzaLines(ReadersBackend, address);
    UnlinesAppend(w + [""], r);
    UnlinesAppend(w, [""]);
    assert Unlines([""]) == "\n";
  }

  lemma StanzaLinesClean(name: string, address: string)
    requires '\n' !in name && '\n' !in address
    ensures forall k :: 0 <= k < |StanzaLines(name, address)| ==> '\n' !in StanzaLines(name, address)[k]
  {
  }

  lemma DocumentLinesSplit(address: string)
    requires '\n' !in address
    ensures SplitLines(Document(address)) == DocumentLines(address)
  {
    var w := StanzaLines(WritersBackend, address);
    var r := StanzaLines(ReadersBackend, address);
    var ls := DocumentLines(address);
    StanzaLinesClean(WritersBackend, address);
    StanzaLinesClean(ReadersBackend, address);
    forall k | 0 <= k < |ls|
      ensures '\n' !in ls[k]
    {
      if k < 7 {
        assert ls[k] == w[k];
      } else if k > 7 {
        assert ls[k] == r[k - 8];
      }
    }
    SplitUnlines(ls);
  }

  lemma DocumentLast(address: string)
    ensures |Document(address)| > 0 && Document(address)[|Document(address)| - 1] == '\n'
  {
    var ls := DocumentLines(address);
    UnlinesAppend(ls[..|ls| - 1], [ls[|ls| - 1]]);
    assert ls[..|ls| - 1] + [ls[|ls| - 1]] == ls;
  }

  /** The text around the server address in each stanza. */
  function Before(name: string): string {
    Unlines(FixedLines(name)) + "    server mysql "
  }

  const After := " check\n"

  lemma StanzaAround(name: string, address: string)
    ensures Unlines(StanzaLines(name, address)) == Before(name) + address + After
  {
    UnlinesAppend(FixedLines(name), [ServerLine(address)]);
    assert Unlines([ServerLine(address)]) == ServerLine(address) + "\n";
    assert ServerLine(address) + "\n" == "    server mysql " + address + After;
  }

  /** The document with its two server addresses exposed. */
  lemma DocumentAround(address: string)
    ensures Document(address)
            == Before(WritersBackend) + address + After + "\n" + Before(ReadersBackend) + address + After
  {
    DocumentStanzas(address);
    StanzaAround(WritersBackend, address);
    StanzaAround(ReadersBackend, address);
    var bw, br := Before(WritersBackend), Before(ReadersBackend);
    assert (bw + address + After) + "\n" + (br + address + After)
           == bw + address + After + "\n" + br + address + After;
  }

  /** Recovers the server address from a rendered document; None when `doc` was not rendered. */
  function Decode(doc: string): (r: Option<string>)
    ensures r.Some? ==> Document(r.value) == doc
  {
    var start := |Before(WritersBackend)|;
    var fixed := start + |After| + 1 + |Before(ReadersBackend)| + |After|;
    if |doc| < fixed || (|doc| - fixed) % 2 != 0 then None
    else
      var address := doc[start .. start + (|doc| - fixed) / 2];
      if Document(address) == doc then Some(address) else None
  }

  lemma DecodeDocument(address: string)
    ensures Decode(Document(address)) == Some(address)
  {
    DocumentAround(address);
    var doc := Document(address);
    var start := |Before(WritersBackend)|;
    assert doc[start .. start + |address|] == address;
  }

  /** Decoding is exact: it finds an address precisely when the document renders it. */
  lemma DecodeExact(doc: string, address: string)
    ensures Decode(doc) == Some(address) <==> doc == Document(address)
  {
    if doc == Document(address) {
      DecodeDocument(address);
    }
  }

  /** Position of the first `c` in `s`. */
  function IndexOf(s: string, c: char): (r: Option<nat>)
    ensures r.Some? ==> r.value < |s| && s[r.value] == c
                        && forall j :: 0 <= j < r.value ==> s[j] != c
    ensures r.None? ==> c !in s
    decreases |s|
  {
    if |s| == 0 then None
    else if s[0] == c then Some(0)
    else match IndexOf(s[1..], c)
      case None => None
      case Some(i) => Some(i + 1)
  }

  /** Position of the last `c` in `s`. */
  function LastIndexOf(s: string, c: char): (r: Option<nat>)
    ensures r.Some? ==> r.value < |s| && s[r.value] == c
                        && forall j :: r.value < j < |s| ==> s[j] != c
    ensures r.None? ==> c !in s
    decreases |s|
  {
    if |s| == 0 then None
    else if s[|s| - 1] == c then Some(|s| - 1)
    else LastIndexOf(s[..|s| - 1], c)
  }

  /** Splits `host:port` at its last colon and reads the port as an integer. */
  function SplitAddress(address: string): Option<(string, int)> {
    match LastIndexOf(address, ':')
    case None => None
    case Some(k) =>
      match Decimal.ParseInt(address[k + 1..])
      case None => None
      case Some(port) => Some((address[..k], port))
  }

  /** The `(host, port)` a rendered document sends traffic to. */
  function ReadEndpoint(doc: string): Option<(string, int)> {
    match Decode(doc)
    case None => None
    case Some(address) => SplitAddress(address)
  }

  lemma SplitAddressOf(host: string, port: int)
    ensures SplitAddress(host + ":" + Decimal.IntToString(port)) == Some((host, port))
  {
    var p := Decimal.IntToString(port);
    var address := host + ":" + p;
    assert address[|host|] == ':';
    assert forall j :: |host| < j < |address| ==> address[j] == p[j - |host| - 1];
    var k := LastIndexOf(address, ':');
    assert k == Some(|host|);
    assert address[|host| + 1..] == p;
    assert address[..|host|] == host;
    Decimal.ParseIntToString(port);
  }

  /** Rendering an integer port and reading the document back gives the settings. */
  lemma ReadEndpointRoundTrip(host: string, port: int)
    ensures ReadEndpoint(BackendConfig(host, Decimal.IntToString(port))) == Some((host, port))
  {
    DecodeDocument(host + ":" + Decimal.IntToString(port));
    SplitAddressOf(host, port);
  }

  /** Distinct settings with an integer port render to distinct documents. */
  lemma BackendConfigInjective(h1: string, p1: int, h2: string, p2: int)
    requires BackendConfig(h1, Decimal.IntToString(p1)) == BackendConfig(h2, Decimal.IntToString(p2))
    ensures h1 == h2 && p1 == p2
  {
    ReadEndpointRoundTrip(h1, p1);
    ReadEndpointRoundTrip(h2, p2);
  }
}
