/** One small run of each controller, with every name and address spelled out. */
module Examples {
  import opened Names
  import opened HaproxyStore
  import opened ServiceSync
  import opened WorkQueue
  import opened ServiceRuns
  import opened Creation
  import opened Episodes
  import opened Witnesses
  import PodRuns
  import PodRepeats
  import PodControllerClass

  // ---- a service ----

  function Web(): Service { Service("default", "web", "10.0.0.7", [ServicePort("http", 8080)], "1") }

  /** What HAProxy is to hold for it. */
  function WebProxy(): Config {
    var servers: map<string, string> := map["10.0.0.7:8080" := "10.0.0.7:8080"];
    var binds: map<string, int> := map["SVC_BIND_default_web_http" := 9000];
    Config(map["SVC_BACKEND_default.web:8080" := servers],
           map["SVC_FRONTEND_default.web:9000" := Frontend("SVC_BACKEND_default.web:8080", binds)])
  }

  lemma WebPorts()
    ensures Decimal(8080) == "8080" && Decimal(9000) == "9000"
  {
    assert Digits(8) == "8" && Digits(80) == "80" && Digits(808) == "808" && Digits(8080) == "8080";
    assert Digits(9) == "9" && Digits(90) == "90" && Digits(900) == "900" && Digits(9000) == "9000";
  }

  lemma WebObjects()
    ensures BackendName("default", "web", 8080) == "SVC_BACKEND_default.web:8080"
    ensures FrontendName("default", "web", 9000) == "SVC_FRONTEND_default.web:9000"
  {
    WebPorts();
    hide Decimal;
  }

  lemma WebKeys()
    ensures BindName("default", "web", "http") == "SVC_BIND_default_web_http"
    ensures MappingKey("default", "web", "http") == "default/web/http"
  {
  }

  lemma WebServer()
    ensures ServerName("10.0.0.7", 8080) == "10.0.0.7:8080" && MetaKey("default", "web") == "default/web"
  {
    WebPorts();
    hide Decimal;
  }

  lemma WebLabels()
    ensures IsLabel("default") && IsLabel("web")
  {
  }

  /** The service "web" with port 8080 becomes known to a controller for its port name and
      namespace and the ports from 9000 on, and to an empty HAProxy. */
  lemma WebIsServed(c: Settings, s: State) returns (t: State)
    requires Initial(s) && s.core.store.committed == Nothing() && WillingFor(c.env, s.core.store.clock, 6)
    requires c.first == 9000 && c.last == 9100 && c.namespaces == {"default"} && c.portNames == {"http"}
    ensures Reachable(c, t) && Calm(t) && t.core.store.committed == WebProxy()
    ensures "default/web/http" in t.core.table && t.core.table["default/web/http"].mappedPort == 9000
    ensures t.core.table["default/web/http"].clusterIP == "10.0.0.7" && t.core.table["default/web/http"].servicePort == 8080
  {
    WebObjects();
    WebKeys();
    WebServer();
    WebLabels();
    InitialIsCalm(c, s);
    hide Leads;
    hide Reachable;
    hide IsLabel;
    hide MetaKey;
    hide MappingKey;
    hide BackendName;
    hide FrontendName;
    hide BindName;
    hide ServerName;
    hide WillingFor;
    hide Calm;
    hide Initial;
    t := KnowFirst(c, s, Web(), true);
    LeadsReachable(c, s, t);
  }

  // ---- a pod ----

  function Jprofiled(): PodRuns.Pod {
    PodRuns.Pod("api-0", "10.1.2.3",
      [[PodRuns.ContainerPort("http", 8080)], [PodRuns.ContainerPort("jprofiler", 8849), PodRuns.ContainerPort("admin", 9001)]])
  }

  lemma JprofiledServers()
    ensures PodControllerClass.ResolvePort(Jprofiled(), "jprofiler", 18849) == 8849
    ensures PodControllerClass.ResolvePort(Jprofiled(), "debug", 18849) == 18849
    ensures PodRuns.PodServer(Jprofiled(), 8849) == PodRuns.Server("POD.api-0.10.1.2.3", "10.1.2.3:8849")
    ensures PodRuns.DefaultServer(8080) == PodRuns.Server("DEFAULT_APP.pod-proxier", "127.0.0.1:8080")
  {
    WebPorts();
    assert Digits(8) == "8" && Digits(88) == "88" && Digits(884) == "884" && Digits(8849) == "8849";
    var containers := Jprofiled().containers;
    assert PodControllerClass.IsLastNamed(containers, "jprofiler", 1, 0);
    assert PodControllerClass.NoneNamed(containers, "debug");
    PodControllerClass.ResolvePortMeans(Jprofiled(), "jprofiler", 18849);
    PodControllerClass.ResolvePortMeans(Jprofiled(), "debug", 18849);
  }

  /** The pod is mapped, its time passes, and the backend points back. */
  lemma JprofiledIsMapped(s: PodRuns.State) returns (mapped: PodRuns.State, reverted: PodRuns.State)
    requires PodRuns.AtRest(8080, s)
    ensures PodRuns.Leads(8080, s, mapped) && mapped.servers == map["POD.api-0.10.1.2.3" := "10.1.2.3:8849"]
    ensures PodRuns.Leads(8080, s, reverted) && reverted.servers == map["DEFAULT_APP.pod-proxier" := "127.0.0.1:8080"]
  {
    JprofiledServers();
    var server, e := PodRuns.PodServer(Jprofiled(), 8849), PodRuns.Event("default/api-0", 8849);
    PodRuns.LeadsSelf(8080, s);
    PodRuns.PodIsNotDefault(Jprofiled(), 8849);
    hide PodRuns.Leads;
    hide PodRuns.PodServer;
    hide PodRuns.DefaultServer;
    mapped := PodRepeats.MapAlone(8080, s, s, 0, Jprofiled(), 8849, "default/api-0");
    var due := PodRepeats.Due(8080, s, mapped, e);
    reverted := PodRepeats.ExpireAlone(8080, s, due, server, e);
  }
}
