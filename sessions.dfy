/**
  `Sunspot.build_session`, `master_config` and `slave_config`: the search
  session is a master/slave proxy when a master is configured and a single
  proxy over the slave endpoint otherwise.
 */
module Sessions {

  /** What `Sunspot::Mongoid::Configuration` answers: `has_master?` and the six endpoint fields. */
  datatype Settings = Settings(
    hasMaster: bool,
    masterHostname: string, masterPort: int, masterPath: string,
    hostname: string, port: int, path: string)

  /** The (host, port, path) of a Solr URL built by `URI::HTTP.build`. */
  datatype Endpoint = Endpoint(host: string, port: int, path: string)

  /** A `Sunspot::Configuration` whose `solr.url` is set. */
  datatype SolrConfig = SolrConfig(url: Endpoint)

  /** A `ThreadLocalSessionProxy` over one configuration. */
  datatype Proxy = ThreadLocal(config: SolrConfig)

  /** What `build_session` returns. */
  datatype Session =
    | MasterSlave(master: Proxy, slave: Proxy)  // MasterSlaveSessionProxy
    | Single(proxy: Proxy)                      // a lone ThreadLocalSessionProxy

  /** `master_config`: a Solr configuration for the master endpoint. */
  function MasterConfig(s: Settings): (c: SolrConfig)
    ensures c.url.host == s.masterHostname && c.url.port == s.masterPort && c.url.path == s.masterPath
  {
    SolrConfig(Endpoint(s.masterHostname, s.masterPort, s.masterPath))
  }

  /** `slave_config`: a Solr configuration for the slave endpoint. */
  function SlaveConfig(s: Settings): (c: SolrConfig)
    ensures c.url.host == s.hostname && c.url.port == s.port && c.url.path == s.path
  {
    SolrConfig(Endpoint(s.hostname, s.port, s.path))
  }

  /** `build_session`. */
  function BuildSession(s: Settings): (r: Session)
    ensures r.MasterSlave? <==> s.hasMaster
    ensures r.MasterSlave? ==> r.master.config.url == Endpoint(s.masterHostname, s.masterPort, s.masterPath)
    ensures r.MasterSlave? ==> r.slave.config.url == Endpoint(s.hostname, s.port, s.path)
    ensures r.Single? ==> r.proxy.config.url == Endpoint(s.hostname, s.port, s.path)
  {
    if s.hasMaster then MasterSlave(ThreadLocal(MasterConfig(s)), ThreadLocal(SlaveConfig(s)))
    else Single(ThreadLocal(SlaveConfig(s)))
  }

  /** The endpoints a session's proxies are built over. */
  function Endpoints(r: Session): set<Endpoint> {
    match r
    case MasterSlave(master, slave) => {master.config.url, slave.config.url}
    case Single(proxy) => {proxy.config.url}
  }

  /** The master proxy reads only the master fields: settings that agree on them give the same master endpoint. */
  lemma MasterReadsOnlyMasterFields(s: Settings, t: Settings)
    requires s.hasMaster && t.hasMaster
    requires s.masterHostname == t.masterHostname && s.masterPort == t.masterPort && s.masterPath == t.masterPath
    ensures BuildSession(s).master == BuildSession(t).master
  {
  }

  /** The slave proxy reads only the slave fields, in either mode. */
  lemma SlaveReadsOnlySlaveFields(s: Settings, t: Settings)
    requires s.hasMaster == t.hasMaster
    requires s.hostname == t.hostname && s.port == t.port && s.path == t.path
    ensures s.hasMaster ==> BuildSession(s).slave == BuildSession(t).slave
    ensures !s.hasMaster ==> BuildSession(s) == BuildSession(t)
  {
  }

  /** Without a master the session is built over the slave endpoint alone; with one, over both endpoints. */
  lemma SessionEndpoints(s: Settings)
    ensures !s.hasMaster ==> Endpoints(BuildSession(s)) == {Endpoint(s.hostname, s.port, s.path)}
    ensures s.hasMaster ==>
      Endpoints(BuildSession(s)) == {Endpoint(s.masterHostname, s.masterPort, s.masterPath), Endpoint(s.hostname, s.port, s.path)}
  {
  }

  /** No master, host "a", port 8983, path "/solr": one proxy bound to that endpoint. */
  lemma SingleEndpointScenario(s: Settings)
    requires !s.hasMaster && s.hostname == "a" && s.port == 8983 && s.path == "/solr"
    ensures BuildSession(s) == Single(ThreadLocal(SolrConfig(Endpoint("a", 8983, "/solr"))))
  {
  }

  /** Master "m" and slave "s", both on port 8983 at "/solr": the master proxy is bound to "m", the slave proxy to "s". */
  lemma MasterSlaveScenario(s: Settings)
    requires s.hasMaster && s.masterHostname == "m" && s.masterPort == 8983 && s.masterPath == "/solr"
    requires s.hostname == "s" && s.port == 8983 && s.path == "/solr"
    ensures BuildSession(s) == MasterSlave(
      ThreadLocal(SolrConfig(Endpoint("m", 8983, "/solr"))),
      ThreadLocal(SolrConfig(Endpoint("s", 8983, "/solr"))))
  {
  }
}
