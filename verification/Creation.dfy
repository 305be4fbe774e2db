/** createServiceProxy in an HAProxy that answers every read and does every write it
    can: exactly when it succeeds, and what reading the committed configuration costs. */
module Creation {
  import opened Names
  import opened HaproxyStore
  import opened ServiceSync
  import opened StaleReadTheorems
  import opened ServiceRuns

  /** From the n-th request on HAProxy does all it can. */
  ghost predicate WillingFrom(env: Environment, n: nat) { forall t: nat :: t >= n ==> env(t) == Done }

  /** From the n-th request on HAProxy does all it can with the next `count`. */
  ghost predicate WillingFor(env: Environment, n: nat, count: nat) { forall t: nat :: n <= t < n + count ==> env(t) == Done }

  lemma WillingLater(env: Environment, n: nat, m: nat)
    requires WillingFrom(env, n) && n <= m
    ensures WillingFrom(env, m)
  {
  }

  lemma WillingPerform(env: Environment, st: Store, op: Op)
    requires env(st.clock) == Done && st.staged.Some?
    ensures var (st', reply) := Perform(env, st, op);
            if Possible(st.staged.value, op) then reply == Done && st'.staged.value == Effect(st.staged.value, op)
            else reply == Failed && st'.staged == st.staged
    ensures var st' := Perform(env, st, op).0;
            && st'.clock == st.clock + 1
            && (st'.clean <==> st.clean && Clean(st.staged.value, op, if Possible(st.staged.value, op) then Done else Failed))
  {
  }

  ghost predicate HasServer(cfg: Config, b: string, server: string) { b in cfg.backends && server in cfg.backends[b] }

  ghost predicate HasBind(cfg: Config, f: string, n: string) { f in cfg.frontends && n in cfg.frontends[f].binds }

  /** The read agrees with what is staged. */
  ghost predicate BackendReadIsCurrent(st: Store, b: string)
    requires st.staged.Some?
  {
    b in st.committed.backends <==> b in st.staged.value.backends
  }

  ghost predicate FrontendReadIsCurrent(st: Store, f: string)
    requires st.staged.Some?
  {
    f in st.committed.frontends <==> f in st.staged.value.frontends
  }

  lemma WillingBackend(env: Environment, st: Store, b: string)
    requires WillingFor(env, st.clock, 2) && st.staged.Some?
    ensures var (st', ok) := StageBackend(env, st, b);
            var cfg := st.staged.value;
            && (ok <==> BackendReadIsCurrent(st, b)) && (st'.clean <==> st.clean) && st'.clock == st.clock + 2
            && st'.staged.value == if ok && b !in cfg.backends then cfg.(backends := cfg.backends[b := map[]]) else cfg
  {
    hide Perform;
    var (st1, there) := EnsureBackend(env, st, b);
    WillingPerform(env, st1, if there then ReplaceBackend(b) else AddBackend(b));
  }

  lemma WillingServer(env: Environment, st: Store, b: string, server: string)
    requires WillingFor(env, st.clock, 1) && st.staged.Some? && b in st.staged.value.backends
    ensures var (st', ok) := StageServer(env, st, b, server);
            var cfg := st.staged.value;
            && (ok <==> !HasServer(cfg, b, server)) && (st'.clean <==> st.clean) && st'.clock == st.clock + 1
            && st'.staged.value == if ok then cfg.(backends := cfg.backends[b := cfg.backends[b][server := server]]) else cfg
  {
    WillingPerform(env, st, AddServer(b, server, server));
    hide Perform;
  }

  lemma WillingFrontend(env: Environment, st: Store, f: string, b: string)
    requires WillingFor(env, st.clock, 2) && st.staged.Some?
    ensures var (st', ok) := StageFrontend(env, st, f, b);
            var cfg := st.staged.value;
            && (ok <==> FrontendReadIsCurrent(st, f)) && (st'.clean <==> st.clean) && st'.clock == st.clock + 2
            && (ok ==> f in st'.staged.value.frontends
                       && st'.staged.value.frontends[f].binds == if f in cfg.frontends then cfg.frontends[f].binds else map[])
            && (ok && f !in cfg.frontends ==> st'.staged.value == cfg.(frontends := cfg.frontends[f := Frontend(b, map[])]))
  {
    hide Perform;
    var (st1, there) := EnsureFrontend(env, st, f);
    WillingPerform(env, st1, if there then ReplaceFrontend(f, b) else AddFrontend(f, b));
  }

  lemma WillingBind(env: Environment, st: Store, f: string, n: string, p: int)
    requires WillingFor(env, st.clock, 1) && st.staged.Some? && f in st.staged.value.frontends
    ensures var (st', reply) := Perform(env, st, AddBind(f, n, p));
            var cfg := st.staged.value;
            && reply == (if HasBind(cfg, f, n) then Failed else Done)
            && (!HasBind(cfg, f, n) ==> (st'.clean <==> st.clean)) && st'.clock == st.clock + 1
  {
    WillingPerform(env, st, AddBind(f, n, p));
  }

  /** Nothing stands in the way of the mapping: both reads are current, the backend does
      not have the server, and the frontend does not have the bind. */
  ghost predicate Unobstructed(st: Store, m: Mapping)
    requires st.staged.Some?
  {
    && BackendReadIsCurrent(st, m.backendName) && FrontendReadIsCurrent(st, m.frontendName)
    && !HasServer(st.staged.value, m.backendName, ServerName(m.clusterIP, m.servicePort))
    && !HasBind(st.staged.value, m.frontendName, m.bindName)
  }

  /** In an HAProxy that does all it can, createServiceProxy succeeds if and only if the
      reads of the committed configuration agree with the staged one about the backend
      and the frontend, the backend does not have the server yet, and the frontend does
      not have the bind. */
  lemma WillingCreation(env: Environment, st: Store, m: Mapping)
    requires WillingFor(env, st.clock, 6) && st.staged.Some?
    ensures CreateProxy(env, st, m).1 <==> Unobstructed(st, m)
    ensures CreateProxy(env, st, m).1 ==> CreateProxy(env, st, m).0.clock == st.clock + 6
    ensures m.frontendName !in st.staged.value.frontends ==> (CreateProxy(env, st, m).0.clean <==> st.clean)
  {
    hide Perform;
    hide StageBackend;
    hide StageServer;
    hide StageFrontend;
    hide ServerName;
    var b, f, server := m.backendName, m.frontendName, ServerName(m.clusterIP, m.servicePort);
    WillingBackend(env, st, b);
    var (st1, ok1) := StageBackend(env, st, b);
    if ok1 {
      WillingServer(env, st1, b, server);
      var (st2, ok2) := StageServer(env, st1, b, server);
      if ok2 {
        WillingFrontend(env, st2, f, b);
        var (st3, ok3) := StageFrontend(env, st2, f, b);
        if ok3 { WillingBind(env, st3, f, m.bindName, m.mappedPort); }
      }
    }
  }

  /** A stale read can lose a creation: a backend that is staged without the server and
      not committed makes createServiceProxy fail, although the same creation succeeds
      when the read sees what is staged. */
  lemma StaleReadLosesCreation(env: Environment, st: Store, m: Mapping)
    requires WillingFor(env, st.clock, 6) && st.staged.Some? && m.frontendName !in st.staged.value.frontends
    requires m.backendName in st.staged.value.backends && m.backendName !in st.committed.backends
    requires ServerName(m.clusterIP, m.servicePort) !in st.staged.value.backends[m.backendName]
    ensures !CreateProxy(env, st, m).1
    ensures CreateProxy(env, st.(committed := st.staged.value), m).1
  {
    hide CreateProxy;
    WillingCreation(env, st, m);
    WillingCreation(env, st.(committed := st.staged.value), m);
  }

  /** The creation that comes next in a clean pass of a reachable state succeeds in a
      willing HAProxy if and only if the read of its backend is current and the backend
      does not have the server already. */
  lemma ReachableCreation(c: Settings, s: State, svc: Service, n: nat, p: int)
    requires Reachable(c, s) && s.worker.Busy? && s.worker.pc == Applying(Some(svc)) && n < |svc.ports|
    requires s.core.store.staged.Some? && SyncPorts(c, Retried(s.core, svc), svc, n).store.clean
    requires WillingFor(c.env, SyncPorts(c, Retried(s.core, svc), svc, n).store.clock, 6)
    requires FirstFree(SyncPorts(c, Retried(s.core, svc), svc, n).ledger, c.first, c.last) == Some(p)
    ensures var mid, m := SyncPorts(c, Retried(s.core, svc), svc, n), NewMapping(svc, svc.ports[n], p);
            var server := ServerName(m.clusterIP, m.servicePort);
            CreateProxy(c.env, mid.store, m).1 <==>
              BackendReadIsCurrent(mid.store, m.backendName) && !HasServer(mid.store.staged.value, m.backendName, server)
  {
    hide Reachable;
    hide SyncPorts;
    hide CreateProxy;
    hide FirstFree;
    hide BackendName;
    hide FrontendName;
    hide BindName;
    hide ServerName;
    StaleReadsInPass(c, s, svc, n);
    var mid, m := SyncPorts(c, Retried(s.core, svc), svc, n), NewMapping(svc, svc.ports[n], p);
    WillingCreation(c.env, mid.store, m);
  }

  // ---- an HAProxy whose conflicts are recognised ----

  /** The answer is true: Done if the request is possible, "already exists" to adding what
      is there, and Failed otherwise. */
  ghost predicate Candid(env: Environment, st: Store, op: Op)
    requires st.staged.Some?
  {
    var cfg := st.staged.value;
    env(st.clock) ==
      if Possible(cfg, op) then Done
      else if Present(cfg, op) && (op.AddBackend? || op.AddServer? || op.AddFrontend? || op.AddBind?) then AlreadyExists
      else Failed
  }

  ghost predicate CandidBackend(env: Environment, st: Store, b: string)
    requires st.staged.Some?
  {
    var (st1, there) := EnsureBackend(env, st, b);
    env(st.clock) != Failed && Candid(env, st1, if there then ReplaceBackend(b) else AddBackend(b))
  }

  ghost predicate CandidServer(env: Environment, st: Store, b: string, server: string)
    requires st.staged.Some?
  {
    var (st1, reply) := Perform(env, st, AddServer(b, server, server));
    Candid(env, st, AddServer(b, server, server))
    && (reply == AlreadyExists ==> Candid(env, st1, ReplaceServer(b, server, server, server)))
  }

  ghost predicate CandidFrontend(env: Environment, st: Store, f: string, b: string)
    requires st.staged.Some?
  {
    var (st1, there) := EnsureFrontend(env, st, f);
    env(st.clock) != Failed && Candid(env, st1, if there then ReplaceFrontend(f, b) else AddFrontend(f, b))
  }

  ghost predicate AllCandid(env: Environment, st: Store, m: Mapping)
    requires st.staged.Some?
  {
    var server := ServerName(m.clusterIP, m.servicePort);
    var (st1, ok1) := StageBackend(env, st, m.backendName);
    var (st2, ok2) := StageServer(env, st1, m.backendName, server);
    var (st3, ok3) := StageFrontend(env, st2, m.frontendName, m.backendName);
    && CandidBackend(env, st, m.backendName)
    && (ok1 ==> CandidServer(env, st1, m.backendName, server))
    && (ok1 && ok2 ==> CandidFrontend(env, st2, m.frontendName, m.backendName))
    && (ok1 && ok2 && ok3 ==> Candid(env, st3, AddBind(m.frontendName, m.bindName, m.mappedPort)))
  }

  lemma CandidStageBackend(env: Environment, st: Store, b: string)
    requires st.staged.Some? && CandidBackend(env, st, b)
    ensures var (st', ok) := StageBackend(env, st, b);
            && (ok <==> b in st.committed.backends ==> b in st.staged.value.backends)
            && (ok ==> b in st'.staged.value.backends) && st'.staged.value.frontends == st.staged.value.frontends
  {
  }

  lemma CandidStageServer(env: Environment, st: Store, b: string, server: string)
    requires st.staged.Some? && CandidServer(env, st, b, server) && b in st.staged.value.backends
    ensures var (st', ok) := StageServer(env, st, b, server);
            && ok && HasServer(st'.staged.value, b, server) && st'.staged.value.backends[b][server] == server
            && st'.staged.value.frontends == st.staged.value.frontends
  {
  }

  lemma CandidStageFrontend(env: Environment, st: Store, f: string, b: string)
    requires st.staged.Some? && CandidFrontend(env, st, f, b)
    ensures var (st', ok) := StageFrontend(env, st, f, b);
            && (ok <==> f in st.committed.frontends ==> f in st.staged.value.frontends)
            && (ok ==> f in st'.staged.value.frontends) && st'.staged.value.backends == st.staged.value.backends
            && (ok && f !in st.staged.value.frontends ==> st'.staged.value.frontends[f] == Frontend(b, map[]))
  {
  }

  /** Were conflicts recognised, creating again would be harmless: with true answers
      createServiceProxy succeeds unless the backend or the frontend is committed and no
      longer staged. It then leaves the backend with the server, whether or not it was
      there, and a new frontend leading to the backend with the bind. */
  lemma CandidCreation(env: Environment, st: Store, m: Mapping)
    requires st.staged.Some? && AllCandid(env, st, m)
    ensures var (st', ok) := CreateProxy(env, st, m);
            var b, f, server := m.backendName, m.frontendName, ServerName(m.clusterIP, m.servicePort);
            && (ok <==>
                  && (b in st.committed.backends ==> b in st.staged.value.backends)
                  && (f in st.committed.frontends ==> f in st.staged.value.frontends))
            && (ok ==>
                  && HasServer(st'.staged.value, b, server) && st'.staged.value.backends[b][server] == server
                  && HasBind(st'.staged.value, f, m.bindName)
                  && (f !in st.staged.value.frontends ==>
                        st'.staged.value.frontends[f] == Frontend(b, map[m.bindName := m.mappedPort])))
  {
    hide StageBackend;
    hide StageServer;
    hide StageFrontend;
    hide ServerName;
    hide CandidBackend;
    hide CandidServer;
    hide CandidFrontend;
    var b, f, server := m.backendName, m.frontendName, ServerName(m.clusterIP, m.servicePort);
    CandidStageBackend(env, st, b);
    var (st1, ok1) := StageBackend(env, st, b);
    if ok1 {
      CandidStageServer(env, st1, b, server);
      var (st2, ok2) := StageServer(env, st1, b, server);
      CandidStageFrontend(env, st2, f, b);
    }
  }
}
