/** The HAProxy Data Plane as its client sees it: a committed configuration and,
    while a transaction is open, a staged copy. Reads that decide between adding
    and replacing see the committed configuration, writes with a transaction id
    go to the staged one. */
module HaproxyStore {

  datatype Reply = Done | AlreadyExists | Failed

  /** What the environment answers to the n-th request. */
  type Environment = nat -> Reply

  /** `binds` maps a bind's name to its port, a backend maps its servers' names to
      their addresses. */
  datatype Frontend = Frontend(defaultBackend: string, binds: map<string, int>)
  datatype Config = Config(backends: map<string, map<string, string>>, frontends: map<string, Frontend>)

  datatype Op =
    | AddBackend(backend: string)
    | ReplaceBackend(backend: string)
    | DeleteBackend(backend: string)
    | AddServer(backend: string, server: string, address: string)
    | ReplaceServer(backend: string, oldServer: string, server: string, address: string)
    | AddFrontend(frontend: string, defaultBackend: string)
    | ReplaceFrontend(frontend: string, defaultBackend: string)
    | DeleteFrontend(frontend: string)
    | AddBind(frontend: string, bind: string, port: int)

  /** The object that the request names is in the configuration. */
  predicate Present(cfg: Config, op: Op) {
    match op
    case AddBackend(b) => b in cfg.backends
    case ReplaceBackend(b) => b in cfg.backends
    case DeleteBackend(b) => b in cfg.backends
    case AddServer(b, s, _) => b in cfg.backends && s in cfg.backends[b]
    case ReplaceServer(b, o, _, _) => b in cfg.backends && o in cfg.backends[b]
    case AddFrontend(f, _) => f in cfg.frontends
    case ReplaceFrontend(f, _) => f in cfg.frontends
    case DeleteFrontend(f) => f in cfg.frontends
    case AddBind(f, n, _) => f in cfg.frontends && n in cfg.frontends[f].binds
  }

  /** HAProxy can carry the request out. */
  predicate Possible(cfg: Config, op: Op) {
    match op
    case AddBackend(_) => !Present(cfg, op)
    case AddServer(b, _, _) => b in cfg.backends && !Present(cfg, op)
    case ReplaceServer(b, o, s, _) => Present(cfg, op) && (s == o || s !in cfg.backends[b])
    case AddFrontend(_, _) => !Present(cfg, op)
    case AddBind(f, _, _) => f in cfg.frontends && !Present(cfg, op)
    case _ => Present(cfg, op)
  }

  /** Replacing a backend keeps its servers, replacing a frontend keeps its binds,
      and deleting either removes what it holds. */
  function Effect(cfg: Config, op: Op): Config
    requires Possible(cfg, op)
  {
    match op
    case AddBackend(b) => cfg.(backends := cfg.backends[b := map[]])
    case ReplaceBackend(_) => cfg
    case DeleteBackend(b) => cfg.(backends := cfg.backends - {b})
    case AddServer(b, s, a) => cfg.(backends := cfg.backends[b := cfg.backends[b][s := a]])
    case ReplaceServer(b, o, s, a) => cfg.(backends := cfg.backends[b := (cfg.backends[b] - {o})[s := a]])
    case AddFrontend(f, b) => cfg.(frontends := cfg.frontends[f := Frontend(b, map[])])
    case ReplaceFrontend(f, b) => cfg.(frontends := cfg.frontends[f := cfg.frontends[f].(defaultBackend := b)])
    case DeleteFrontend(f) => cfg.(frontends := cfg.frontends - {f})
    case AddBind(f, n, p) => cfg.(frontends := cfg.frontends[f := cfg.frontends[f].(binds := cfg.frontends[f].binds[n := p])])
  }

  /** The answers a clean environment may give: "already exists" is true, a delete
      takes effect, and a bind of an existing frontend does not fail. */
  predicate Clean(cfg: Config, op: Op, reply: Reply) {
    && (reply == AlreadyExists ==> Present(cfg, op))
    && (op.DeleteBackend? || op.DeleteFrontend? ==> reply == Done || !Present(cfg, op))
    && (op.AddBind? && op.frontend in cfg.frontends ==> reply != Failed)
  }

  /** `clock` counts requests; `trail` holds every staged configuration, oldest
      first; `clean` says that no answer so far broke Clean. */
  datatype Store = Store(committed: Config, staged: Option<Config>, clock: nat, trail: seq<Config>, clean: bool)

  import opened Names

  /** One write inside the open transaction. HAProxy refuses what it cannot do; an
      answer other than Done leaves the configuration as it was. */
  function Perform(env: Environment, st: Store, op: Op): (r: (Store, Reply))
    requires st.staged.Some?
    ensures r.0.staged.Some? && r.0.committed == st.committed && (r.0.clean ==> st.clean)
    ensures r.0.trail == st.trail + [r.0.staged.value]
  {
    var cfg := st.staged.value;
    var reply := if env(st.clock) == Done && !Possible(cfg, op) then Failed else env(st.clock);
    var cfg' := if reply == Done then Effect(cfg, op) else cfg;
    (Store(st.committed, Some(cfg'), st.clock + 1, st.trail + [cfg'], st.clean && Clean(cfg, op, reply)), reply)
  }

  /** What a request is made for holds. */
  predicate Achieved(cfg: Config, op: Op) {
    match op
    case AddBackend(b) => b in cfg.backends
    case ReplaceBackend(b) => b in cfg.backends
    case DeleteBackend(b) => b !in cfg.backends
    case AddServer(b, s, a) => b in cfg.backends && s in cfg.backends[b] && cfg.backends[b][s] == a
    case ReplaceServer(b, o, s, a) => b in cfg.backends && s in cfg.backends[b] && cfg.backends[b][s] == a
                                   && (o != s ==> o !in cfg.backends[b])
    case AddFrontend(f, b) => f in cfg.frontends && cfg.frontends[f].defaultBackend == b
    case ReplaceFrontend(f, b) => f in cfg.frontends && cfg.frontends[f].defaultBackend == b
    case DeleteFrontend(f) => f !in cfg.frontends
    case AddBind(f, n, p) => f in cfg.frontends && n in cfg.frontends[f].binds && cfg.frontends[f].binds[n] == p
  }

  /** What an answer means: Done is given only to what is possible and then the request is
      achieved in the open transaction; with any other answer the transaction is as it
      was. The committed configuration stays the same in any case. */
  lemma WriteMeans(env: Environment, st: Store, op: Op)
    requires st.staged.Some?
    ensures var (st', reply) := Perform(env, st, op);
            && st'.committed == st.committed && st'.staged.Some?
            && (reply == Done ==> Possible(st.staged.value, op) && Achieved(st'.staged.value, op))
            && (reply != Done ==> st'.staged == st.staged)
  {
  }

  /** EnsureBackend: a read of the committed configuration; a request that fails
      answers false. */
  function EnsureBackend(env: Environment, st: Store, b: string): (Store, bool) {
    (st.(clock := st.clock + 1), env(st.clock) != Failed && b in st.committed.backends)
  }

  function EnsureFrontend(env: Environment, st: Store, f: string): (Store, bool) {
    (st.(clock := st.clock + 1), env(st.clock) != Failed && f in st.committed.frontends)
  }

  function Start(st: Store): Store { st.(staged := Some(st.committed)) }

  function Commit(st: Store, ok: bool): Store
    requires st.staged.Some?
  {
    if ok then st.(committed := st.staged.value, staged := None)
    else st.(staged := None, clean := false)
  }

  function Discard(st: Store): Store { st.(staged := None) }
}
