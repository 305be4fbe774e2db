/** Agreement between the mapping table and the port ledger, kept by every
    synchronisation whatever the HAProxy calls answer. */
module PortLedger {
  import opened Names
  import opened HaproxyStore
  import opened ServiceSync

  /** A mapping's key and names are the ones formatted from its fields. */
  ghost predicate WellNamed(key: string, m: Mapping) {
    && IsLabel(m.ns) && IsLabel(m.service)
    && key == MappingKey(m.ns, m.service, m.portName)
    && m.backendName == BackendName(m.ns, m.service, m.servicePort)
    && m.frontendName == FrontendName(m.ns, m.service, m.mappedPort)
    && m.bindName == BindName(m.ns, m.service, m.portName)
  }

  ghost predicate Named(table: map<string, Mapping>) {
    forall k :: k in table ==> WellNamed(k, table[k])
  }

  ghost predicate InRange(c: Settings, table: map<string, Mapping>) {
    forall k :: k in table ==> c.first <= table[k].mappedPort <= c.last
  }

  ghost predicate DistinctPorts(table: map<string, Mapping>) {
    forall k, k' :: k in table && k' in table && k != k' ==> table[k].mappedPort != table[k'].mappedPort
  }

  ghost predicate Mapped(table: map<string, Mapping>, port: int) {
    exists k :: k in table && table[k].mappedPort == port
  }

  /** The taken ports are exactly the mapped ones. */
  ghost predicate Agree(table: map<string, Mapping>, ledger: map<int, bool>) {
    forall p :: Taken(ledger, p) <==> Mapped(table, p)
  }

  /** No mapped port reaches past the largest size the table has had. */
  ghost predicate UnderPeak(c: Settings, table: map<string, Mapping>, peak: nat) {
    |table| <= peak && forall k :: k in table ==> table[k].mappedPort < c.first + peak
  }

  ghost predicate Consistent(c: Settings, core: Core) {
    && Named(core.table) && InRange(c, core.table) && DistinctPorts(core.table)
    && Agree(core.table, core.ledger) && UnderPeak(c, core.table, core.peak)
  }

  // ---- counting ----

  ghost predicate Covers(table: map<string, Mapping>, first: int, n: nat) {
    forall p :: first <= p < first + n ==> Mapped(table, p)
  }

  lemma {:induction false} CoveredPortsNeedMappings(table: map<string, Mapping>, first: int, n: nat)
    requires Covers(table, first, n)
    ensures |table| >= n
  {
    if n > 0 {
      assert Mapped(table, first + n - 1);
      var k :| k in table && table[k].mappedPort == first + n - 1;
      var rest := table - {k};
      assert rest.Keys == table.Keys - {k};
      forall p | first <= p < first + (n - 1) ensures Mapped(rest, p) {
        assert Mapped(table, p);
        var k' :| k' in table && table[k'].mappedPort == p;
        assert k' in rest;
      }
      CoveredPortsNeedMappings(rest, first, n - 1);
    }
  }

  /** How many ports of first, ..., p - 1 are free. */
  function FreeBelow(ledger: map<int, bool>, first: int, p: int): nat
    decreases p - first
  {
    if p <= first then 0
    else FreeBelow(ledger, first, p - 1) + (if Taken(ledger, p - 1) then 0 else 1)
  }

  ghost function MappedBelow(table: map<string, Mapping>, hi: int): set<string> {
    set k | k in table && table[k].mappedPort < hi
  }

  lemma OneMorePort(table: map<string, Mapping>, q: int)
    requires DistinctPorts(table)
    ensures |MappedBelow(table, q + 1)| == |MappedBelow(table, q)| + (if Mapped(table, q) then 1 else 0)
  {
    var before, now := MappedBelow(table, q), MappedBelow(table, q + 1);
    if Mapped(table, q) {
      var k :| k in table && table[k].mappedPort == q;
      assert k !in before && now == before + {k};
    } else {
      assert forall k :: k in now ==> table[k].mappedPort != q;
      assert now == before;
    }
  }

  lemma {:induction false} FreePlusMapped(c: Settings, table: map<string, Mapping>, ledger: map<int, bool>, p: int)
    requires InRange(c, table) && DistinctPorts(table) && Agree(table, ledger) && c.first <= p
    ensures FreeBelow(ledger, c.first, p) == p - c.first - |MappedBelow(table, p)|
    decreases p - c.first
  {
    if p == c.first {
      assert MappedBelow(table, p) == {};
    } else {
      FreePlusMapped(c, table, ledger, p - 1);
      OneMorePort(table, p - 1);
    }
  }

  /** Free ports and mappings always add up to the size of the range, and an
      allocation fails exactly when the table is as large as the range. */
  lemma Conservation(c: Settings, core: Core)
    requires Consistent(c, core) && c.first <= c.last
    ensures FreeBelow(core.ledger, c.first, c.last + 1) + |core.table| == c.last - c.first + 1
    ensures FirstFree(core.ledger, c.first, c.last) == None <==> |core.table| == c.last - c.first + 1
  {
    hide Named;
    hide Agree;
    FreePlusMapped(c, core.table, core.ledger, c.last + 1);
    assert MappedBelow(core.table, c.last + 1) == core.table.Keys;
    var r := FirstFree(core.ledger, c.first, c.last);
    if r == None {
      NoneFree(core.ledger, c.first, c.last + 1);
    } else {
      FreeBelowMonotone(core.ledger, c.first, r.value + 1, c.last + 1);
    }
  }

  lemma {:induction false} NoneFree(ledger: map<int, bool>, first: int, p: int)
    requires forall q :: first <= q < p ==> Taken(ledger, q)
    ensures FreeBelow(ledger, first, p) == 0
    decreases p - first
  {
    if p > first { NoneFree(ledger, first, p - 1); }
  }

  lemma {:induction false} FreeBelowMonotone(ledger: map<int, bool>, first: int, p: int, q: int)
    requires p <= q
    ensures FreeBelow(ledger, first, p) <= FreeBelow(ledger, first, q)
    decreases q - p
  {
    if p < q { FreeBelowMonotone(ledger, first, p, q - 1); }
  }

  // ---- one port ----

  lemma InsertAgrees(table: map<string, Mapping>, ledger: map<int, bool>, key: string, m: Mapping)
    requires Agree(table, ledger) && key !in table
    ensures Agree(table[key := m], ledger[m.mappedPort := true])
  {
    var table', ledger' := table[key := m], ledger[m.mappedPort := true];
    forall q ensures Taken(ledger', q) <==> Mapped(table', q) {
      if q == m.mappedPort {
        assert table'[key].mappedPort == q;
      } else if Mapped(table, q) {
        var k :| k in table && table[k].mappedPort == q;
        assert k in table' && table'[k].mappedPort == q;
      }
    }
  }

  lemma FirstFitUnderPeak(c: Settings, table: map<string, Mapping>, ledger: map<int, bool>, p: int)
    requires Agree(table, ledger) && FirstFree(ledger, c.first, c.last) == Some(p)
    ensures !Mapped(table, p) && p - c.first <= |table|
  {
    forall q | c.first <= q < p ensures Mapped(table, q) { assert Taken(ledger, q); }
    CoveredPortsNeedMappings(table, c.first, p - c.first);
  }

  /** A port's iteration either leaves the table and the set of taken ports alone,
      or adds the port's mapping on the first free port. */
  lemma SyncPortShape(c: Settings, core: Core, svc: Service, port: ServicePort)
    requires core.store.staged.Some?
    ensures var key, now := MappingKey(svc.ns, svc.name, port.name), SyncPort(c, core, svc, port);
            var r := FirstFree(core.ledger, c.first, c.last);
            || (now.table == core.table && now.peak == core.peak && forall q :: Taken(now.ledger, q) <==> Taken(core.ledger, q))
            || (key !in core.table && c.IsTarget(port.name) && r.Some?
                && now.table == core.table[key := NewMapping(svc, port, r.value)]
                && now.ledger == core.ledger[r.value := true]
                && now.peak == if |now.table| > core.peak then |now.table| else core.peak)
    ensures var key, now := MappingKey(svc.ns, svc.name, port.name), SyncPort(c, core, svc, port);
            var service := MetaKey(svc.ns, svc.name);
            && core.failed <= now.failed <= core.failed + {service}
            && (c.IsTarget(port.name) && service !in now.failed ==> key in now.table)
  {
    hide CreateProxy;
    hide MappingKey;
    hide UsesBackend;
    hide BackendName;
    hide FrontendName;
    hide BindName;
    hide FirstFree;
    var r := FirstFree(core.ledger, c.first, c.last);
    if r.Some? {
      assert !Taken(core.ledger, r.value);
    }
  }

  lemma InsertKeeps(c: Settings, table: map<string, Mapping>, ledger: map<int, bool>, peak: nat, key: string, m: Mapping)
    requires Named(table) && InRange(c, table) && DistinctPorts(table) && Agree(table, ledger) && UnderPeak(c, table, peak)
    requires WellNamed(key, m) && key !in table
    requires FirstFree(ledger, c.first, c.last) == Some(m.mappedPort)
    ensures var table', ledger' := table[key := m], ledger[m.mappedPort := true];
            && Named(table') && InRange(c, table') && DistinctPorts(table') && Agree(table', ledger')
            && UnderPeak(c, table', if |table'| > peak then |table'| else peak)
  {
    hide WellNamed;
    hide Agree;
    FirstFitUnderPeak(c, table, ledger, m.mappedPort);
    InsertAgrees(table, ledger, key, m);
  }

  lemma SyncPortKeeps(c: Settings, core: Core, svc: Service, port: ServicePort)
    requires core.store.staged.Some? && Consistent(c, core) && IsLabel(svc.ns) && IsLabel(svc.name)
    ensures Consistent(c, SyncPort(c, core, svc, port))
  {
    hide SyncPort;
    hide MappingKey;
    hide BackendName;
    hide FrontendName;
    hide BindName;
    hide IsLabel;
    hide Named;
    hide InRange;
    hide DistinctPorts;
    hide UnderPeak;
    SyncPortShape(c, core, svc, port);
    var key, r := MappingKey(svc.ns, svc.name, port.name), FirstFree(core.ledger, c.first, c.last);
    if key !in core.table && r.Some? {
      InsertKeeps(c, core.table, core.ledger, core.peak, key, NewMapping(svc, port, r.value));
    }
  }

  lemma {:induction false} SyncPortsKeep(c: Settings, core: Core, svc: Service, n: nat)
    requires core.store.staged.Some? && Consistent(c, core) && n <= |svc.ports|
    requires IsLabel(svc.ns) && IsLabel(svc.name)
    ensures Consistent(c, SyncPorts(c, core, svc, n))
  {
    hide SyncPort;
    hide Consistent;
    hide IsLabel;
    if n > 0 {
      SyncPortsKeep(c, core, svc, n - 1);
      SyncPortKeeps(c, SyncPorts(c, core, svc, n - 1), svc, svc.ports[n - 1]);
    }
  }

  // ---- removal ----

  lemma RemoveAgrees(table: map<string, Mapping>, ledger: map<int, bool>, key: string)
    requires Agree(table, ledger) && DistinctPorts(table) && key in table
    ensures Agree(table - {key}, ledger[table[key].mappedPort := false])
  {
    var table', ledger' := table - {key}, ledger[table[key].mappedPort := false];
    forall q ensures Taken(ledger', q) <==> Mapped(table', q) {
      if q != table[key].mappedPort && Mapped(table, q) {
        var k :| k in table && table[k].mappedPort == q;
        assert k in table' && table'[k].mappedPort == q;
      }
    }
  }

  lemma RemoveMappingKeeps(c: Settings, core: Core, key: string)
    requires core.store.staged.Some? && Consistent(c, core) && key in core.table
    ensures Consistent(c, RemoveMapping(c, core, key))
  {
    hide Perform;
    hide WellNamed;
    hide Agree;
    assert (core.table - {key}).Keys == core.table.Keys - {key};
    RemoveAgrees(core.table, core.ledger, key);
  }

  lemma {:induction false} RemoveListedKeeps(c: Settings, core: Core, keys: seq<string>, n: nat)
    requires core.store.staged.Some? && Consistent(c, core) && n <= |keys|
    ensures Consistent(c, RemoveListed(c, core, keys, n))
  {
    hide RemoveMapping;
    hide Consistent;
    if n > 0 {
      RemoveListedKeeps(c, core, keys, n - 1);
      var before := RemoveListed(c, core, keys, n - 1);
      if keys[n - 1] in before.table { RemoveMappingKeeps(c, before, keys[n - 1]); }
    }
  }

  ghost predicate Listing(keys: seq<string>, table: map<string, Mapping>) {
    && (forall i, j :: 0 <= i < j < |keys| ==> keys[i] != keys[j])
    && (forall i :: 0 <= i < |keys| ==> keys[i] in table)
  }

  /** What is left of the table after n removals. */
  lemma {:induction false} RemoveListedTable(c: Settings, core: Core, keys: seq<string>, n: nat)
    requires core.store.staged.Some? && Listing(keys, core.table) && n <= |keys|
    ensures var now := RemoveListed(c, core, keys, n).table;
            && (forall k :: k in now <==> k in core.table && k !in keys[..n])
            && (forall k :: k in now ==> now[k] == core.table[k])
            && (forall i :: n <= i < |keys| ==> keys[i] in now)
    ensures n > 0 ==> var before := RemoveListed(c, core, keys, n - 1);
            keys[n - 1] in before.table && RemoveListed(c, core, keys, n) == RemoveMapping(c, before, keys[n - 1])
  {
    hide RemoveMapping;
    if n > 0 {
      RemoveListedTable(c, core, keys, n - 1);
      assert keys[..n] == keys[..n - 1] + [keys[n - 1]];
    }
  }

  lemma RetriedKeeps(c: Settings, core: Core, svc: Service)
    requires Consistent(c, core)
    ensures Consistent(c, Retried(core, svc))
  {
  }

  /** Ledger agreement: every synchronisation of every key keeps the table and the
      ledger in agreement, whatever the lister found and whatever HAProxy answered. */
  lemma SyncKeyKeeps(c: Settings, core: Core, key: string, seen: Option<Service>, keys: seq<string>, core': Core)
    requires core.store.staged.Some? && SplitMetaKey(key).Some? && Consistent(c, core)
    requires seen.Some? ==> IsLabel(seen.value.ns) && IsLabel(seen.value.name)
    requires SyncKey(c, core, key, seen, keys, core')
    ensures Consistent(c, core')
  {
    hide SyncPorts;
    hide RemoveListed;
    hide Consistent;
    match seen
    case None => RemoveListedKeeps(c, core, keys, |keys|);
    case Some(svc) =>
      RetriedKeeps(c, core, svc);
      SyncPortsKeep(c, Retried(core, svc), svc, |svc.ports|);
  }

  // ---- the order of allocation ----

  /** After a pass that has made `j` mappings so far, the taken ports are those
      taken at the start and the `j` lowest ones free at the start. */
  ghost predicate TookLowest(c: Settings, before: map<int, bool>, now: map<int, bool>, j: int) {
    forall p :: Taken(now, p) <==>
      Taken(before, p) || (c.first <= p <= c.last && FreeBelow(before, c.first, p) < j)
  }

  lemma {:induction false} FirstFreeIsNext(c: Settings, before: map<int, bool>, now: map<int, bool>, j: nat, p: int)
    requires TookLowest(c, before, now, j) && FirstFree(now, c.first, c.last) == Some(p)
    ensures !Taken(before, p) && FreeBelow(before, c.first, p) == j
  {
    assert !Taken(now, p);
    LowestFit(c, before, now, j, p);
  }

  lemma {:induction false} LowestFit(c: Settings, before: map<int, bool>, now: map<int, bool>, j: nat, p: int)
    requires TookLowest(c, before, now, j) && c.first <= p <= c.last + 1
    requires forall q :: c.first <= q < p ==> Taken(now, q)
    ensures FreeBelow(before, c.first, p) <= j
    decreases p - c.first
  {
    if p > c.first {
      LowestFit(c, before, now, j, p - 1);
      assert Taken(now, p - 1);
    }
  }

  lemma FreeBelowStrict(ledger: map<int, bool>, first: int, p: int, q: int)
    requires first <= p < q && !Taken(ledger, p)
    ensures FreeBelow(ledger, first, p) < FreeBelow(ledger, first, q)
  {
    FreeBelowMonotone(ledger, first, p + 1, q);
  }

  lemma {:induction false} PassTakesLowest(c: Settings, core: Core, svc: Service, n: nat)
    requires core.store.staged.Some? && n <= |svc.ports|
    ensures var now := SyncPorts(c, core, svc, n);
            |now.table| >= |core.table| && TookLowest(c, core.ledger, now.ledger, |now.table| - |core.table|)
  {
    hide SyncPort;
    hide MappingKey;
    hide NewMapping;
    hide TookLowest;
    if n == 0 {
      NoneTookYet(c, core.ledger);
    } else {
      PassTakesLowest(c, core, svc, n - 1);
      var mid := SyncPorts(c, core, svc, n - 1);
      PassStep(c, core.ledger, mid, svc, svc.ports[n - 1], |mid.table| - |core.table|);
    }
  }

  lemma PassStep(c: Settings, before: map<int, bool>, mid: Core, svc: Service, port: ServicePort, j: nat)
    requires mid.store.staged.Some? && TookLowest(c, before, mid.ledger, j)
    ensures var now := SyncPort(c, mid, svc, port);
            |now.table| >= |mid.table| && TookLowest(c, before, now.ledger, j + |now.table| - |mid.table|)
  {
    hide SyncPort;
    hide MappingKey;
    hide NewMapping;
    hide TookLowest;
    hide FirstFree;
    var now, key := SyncPort(c, mid, svc, port), MappingKey(svc.ns, svc.name, port.name);
    SyncPortShape(c, mid, svc, port);
    if key in now.table && key !in mid.table {
      TakeNext(c, before, mid.ledger, j, FirstFree(mid.ledger, c.first, c.last).value);
    } else {
      SameTaken(c, before, mid.ledger, now.ledger, j);
    }
  }

  lemma NoneTookYet(c: Settings, ledger: map<int, bool>)
    ensures TookLowest(c, ledger, ledger, 0)
  {
  }

  lemma SameTaken(c: Settings, before: map<int, bool>, now: map<int, bool>, now': map<int, bool>, j: int)
    requires TookLowest(c, before, now, j) && forall q :: Taken(now', q) <==> Taken(now, q)
    ensures TookLowest(c, before, now', j)
  {
  }

  lemma TakeNext(c: Settings, before: map<int, bool>, now: map<int, bool>, j: nat, p: int)
    requires TookLowest(c, before, now, j) && FirstFree(now, c.first, c.last) == Some(p)
    ensures TookLowest(c, before, now[p := true], j + 1)
  {
    FirstFreeIsNext(c, before, now, j, p);
    forall q ensures Taken(now[p := true], q) <==>
        Taken(before, q) || (c.first <= q <= c.last && FreeBelow(before, c.first, q) < j + 1) {
      if c.first <= q <= c.last && !Taken(before, q) && q != p {
        if p < q { FreeBelowStrict(before, c.first, p, q); } else { FreeBelowStrict(before, c.first, q, p); }
      }
    }
  }

  /** Order under failure: the mapping that a pass adds as its i-th gets the i-th
      lowest port of the range that was free when the pass began, whichever creations failed in
      between, and records the service as it was seen; mappings that were there stay
      as they are. */
  lemma OrderUnderFailure(c: Settings, core: Core, svc: Service, n: nat, key: string)
    requires core.store.staged.Some? && n < |svc.ports|
    requires key in SyncPorts(c, core, svc, n + 1).table
    ensures var before, after := SyncPorts(c, core, svc, n), SyncPorts(c, core, svc, n + 1);
            if key in before.table then after.table[key] == before.table[key]
            else
              && after.table[key].ns == svc.ns && after.table[key].service == svc.name
              && after.table[key].clusterIP == svc.clusterIP
              && after.table[key].portName == svc.ports[n].name && after.table[key].servicePort == svc.ports[n].port
              && c.first <= after.table[key].mappedPort <= c.last
              && !Taken(core.ledger, after.table[key].mappedPort)
              && FreeBelow(core.ledger, c.first, after.table[key].mappedPort) == |before.table| - |core.table|
              && |after.table| == |before.table| + 1
  {
    hide SyncPort;
    hide MappingKey;
    hide BackendName;
    hide FrontendName;
    hide BindName;
    PassTakesLowest(c, core, svc, n);
    var before, after := SyncPorts(c, core, svc, n), SyncPorts(c, core, svc, n + 1);
    SyncPortShape(c, before, svc, svc.ports[n]);
    if key !in before.table {
      var p := FirstFree(before.ledger, c.first, c.last).value;
      FirstFreeIsNext(c, core.ledger, before.ledger, |before.table| - |core.table|, p);
    }
  }
}
