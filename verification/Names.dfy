/** The strings the controllers build: queue keys, mapping keys and the names of
    the HAProxy objects. Everything the controllers rely on when they use a
    formatted string as an identity is proved here. */
module Names {

  datatype Option<+T> = None | Some(value: T)

  const BACKEND: string := "SVC_BACKEND_"
  const FRONTEND: string := "SVC_FRONTEND_"
  const BIND: string := "SVC_BIND_"

  /** A DNS label (section 2.3.1 of RFC 1035, section 2.1 of RFC 1123), the form
      Kubernetes demands of namespaces and service names. */
  predicate IsLabel(s: string) {
    |s| > 0 && forall ch :: ch in s ==> 'a' <= ch <= 'z' || '0' <= ch <= '9' || ch == '-'
  }

  // ---- decimal numbers ----

  function Digit(d: nat): char
    requires d < 10
  {
    ('0' as int + d) as char
  }

  function Digits(n: nat): string {
    if n < 10 then [Digit(n)] else Digits(n / 10) + [Digit(n % 10)]
  }

  /** The "%d" verb. */
  function Decimal(n: int): string {
    if n < 0 then "-" + Digits(-n) else Digits(n)
  }

  function ReadDigits(s: string): int {
    if s == [] then 0 else 10 * ReadDigits(s[..|s| - 1]) + (s[|s| - 1] as int - '0' as int)
  }

  function ReadDecimal(s: string): int {
    if s != [] && s[0] == '-' then -ReadDigits(s[1..]) else ReadDigits(s)
  }

  lemma {:induction false} DigitsRoundTrip(n: nat)
    ensures ReadDigits(Digits(n)) == n
    ensures |Digits(n)| > 0 && Digits(n)[0] != '-'
  {
    if n < 10 {
      assert Digits(n)[..0] == [];
    } else {
      DigitsRoundTrip(n / 10);
      var s := Digits(n);
      assert s[..|s| - 1] == Digits(n / 10);
    }
  }

  lemma DecimalRoundTrip(n: int)
    ensures ReadDecimal(Decimal(n)) == n
  {
    if n < 0 {
      DigitsRoundTrip(-n);
      assert Decimal(n)[1..] == Digits(-n);
    } else {
      DigitsRoundTrip(n);
    }
  }

  /** The text is a decimal number, with a sign if it is negative, of this value. */
  predicate ReadsAs(text: string, n: int) {
    var digits := if text != [] && text[0] == '-' then text[1..] else text;
    digits != [] && (forall ch :: ch in digits ==> '0' <= ch <= '9') && ReadDecimal(text) == n
  }

  lemma {:induction false} DigitsAreDigits(n: nat)
    ensures Digits(n) != [] && forall ch :: ch in Digits(n) ==> '0' <= ch <= '9'
  {
    if n >= 10 { DigitsAreDigits(n / 10); }
  }

  lemma DecimalReads(n: int)
    ensures ReadsAs(Decimal(n), n)
  {
    DecimalRoundTrip(n);
    if n < 0 {
      DigitsAreDigits(-n);
      assert Decimal(n)[1..] == Digits(-n);
    } else {
      DigitsAreDigits(n);
      DigitsRoundTrip(n);
    }
  }

  // ---- addresses ----

  /** An address consists of a host and, behind a colon, a port. */
  predicate IsAddress(address: string, host: string, port: int) {
    && |host| < |address| && address[..|host|] == host && address[|host|] == ':'
    && ReadsAs(address[|host| + 1..], port)
  }

  lemma AddressReads(host: string, port: int)
    ensures IsAddress(host + (":" + Decimal(port)), host, port)
  {
    var address := host + (":" + Decimal(port));
    DecimalReads(port);
    assert address[..|host|] == host && address[|host| + 1..] == Decimal(port);
  }

  // ---- queue keys ----

  /** cache.MetaNamespaceKeyFunc and cache.DeletionHandlingMetaNamespaceKeyFunc. */
  function MetaKey(ns: string, name: string): string {
    if ns == "" then name else ns + ("/" + name)
  }

  /** strings.Split with a one-character separator. */
  function SplitOn(s: string, sep: char): (parts: seq<string>)
    ensures |parts| > 0
  {
    SplitFrom(s, sep, 0)
  }

  function SplitFrom(s: string, sep: char, i: nat): (parts: seq<string>)
    requires i <= |s|
    ensures |parts| > 0
    decreases |s|, |s| - i
  {
    if i == |s| then [s]
    else if s[i] == sep then [s[..i]] + SplitFrom(s[i + 1..], sep, 0)
    else SplitFrom(s, sep, i + 1)
  }

  /** cache.SplitMetaNamespaceKey: one part is a bare name, two parts are a
      namespace and a name, anything else is an error (None). */
  function SplitMetaKey(key: string): Option<(string, string)> {
    var parts := SplitOn(key, '/');
    if |parts| == 1 then Some(("", parts[0]))
    else if |parts| == 2 then Some((parts[0], parts[1]))
    else None
  }

  lemma {:induction false} SplitWhole(s: string, sep: char, i: nat)
    requires i <= |s| && sep !in s
    ensures SplitFrom(s, sep, i) == [s]
    decreases |s| - i
  {
    if i < |s| {
      assert s[i] in s;
      SplitWhole(s, sep, i + 1);
    }
  }

  lemma {:induction false} SplitFirst(a: string, b: string, sep: char, i: nat)
    requires i <= |a| && sep !in a
    ensures SplitFrom(a + [sep] + b, sep, i) == [a] + SplitFrom(b, sep, 0)
    decreases |a| - i
  {
    var s := a + [sep] + b;
    if i == |a| {
      assert s[..i] == a && s[i + 1..] == b;
    } else {
      assert s[i] == a[i] && a[i] in a;
      SplitFirst(a, b, sep, i + 1);
    }
  }

  /** The worker takes apart exactly what the event handlers put together. */
  lemma MetaKeyRoundTrip(ns: string, name: string)
    requires '/' !in ns && '/' !in name
    ensures SplitMetaKey(MetaKey(ns, name)) == Some((ns, name))
  {
    SplitWhole(name, '/', 0);
    if ns != "" {
      SplitFirst(ns, name, '/', 0);
      assert ns + ("/" + name) == ns + ['/'] + name;
    }
  }

  /** The parts with the separator between them. */
  function Join(parts: seq<string>, sep: char): string
    requires |parts| > 0
  {
    if |parts| == 1 then parts[0] else parts[0] + ([sep] + Join(parts[1..], sep))
  }

  lemma {:induction false} SplitJoins(s: string, sep: char, i: nat)
    requires i <= |s| && sep !in s[..i]
    ensures var parts := SplitFrom(s, sep, i);
            Join(parts, sep) == s && forall k :: 0 <= k < |parts| ==> sep !in parts[k]
    decreases |s|, |s| - i
  {
    if i == |s| {
      assert s[..i] == s;
    } else if s[i] == sep {
      SplitJoins(s[i + 1..], sep, 0);
      var rest := SplitFrom(s[i + 1..], sep, 0);
      assert ([s[..i]] + rest)[1..] == rest;
      assert s == s[..i] + ([sep] + s[i + 1..]);
    } else {
      assert s[..i + 1] == s[..i] + [s[i]];
      SplitJoins(s, sep, i + 1);
    }
  }

  /** What the worker makes of any key: without a slash it is a bare name, with one it
      is a namespace and a name, with more it is an error. */
  lemma SplitMetaKeyMeans(key: string)
    ensures match SplitMetaKey(key)
            case Some((ns, name)) => '/' !in name && ((ns == "" && key == name) || ('/' !in ns && key == ns + ("/" + name)))
            case None => exists i, j :: 0 <= i < j < |key| && key[i] == '/' && key[j] == '/'
  {
    var parts := SplitOn(key, '/');
    SplitJoins(key, '/', 0);
    if |parts| == 2 {
      assert Join(parts[1..], '/') == parts[1];
    } else if |parts| > 2 {
      var rest := Join(parts[1..], '/');
      assert rest == parts[1] + (['/'] + Join(parts[2..], '/')) by { assert parts[1..][1..] == parts[2..]; }
      assert key[|parts[0]|] == '/' && key[|parts[0]| + 1 + |parts[1]|] == '/';
    }
  }

  // ---- mapping keys and object names ----

  function ServicePrefix(ns: string, name: string): string {
    ns + ("/" + (name + "/"))
  }

  function MappingKey(ns: string, name: string, portName: string): string {
    ns + ("/" + (name + ("/" + portName)))
  }

  function BackendName(ns: string, name: string, port: int): string {
    BACKEND + (ns + ("." + (name + (":" + Decimal(port)))))
  }

  function FrontendName(ns: string, name: string, mappedPort: int): string {
    FRONTEND + (ns + ("." + (name + (":" + Decimal(mappedPort)))))
  }

  function BindName(ns: string, name: string, portName: string): string {
    BIND + (ns + ("_" + (name + ("_" + portName))))
  }

  /** Name and address of a server are the same string. */
  function ServerName(clusterIP: string, port: int): string {
    clusterIP + (":" + Decimal(port))
  }

  predicate IsSvcFrontend(name: string) { FRONTEND <= name }

  lemma CutAtFirst(a: string, b: string, a': string, b': string, sep: char)
    requires sep !in a && sep !in a'
    requires a + ([sep] + b) == a' + ([sep] + b')
    ensures a == a' && b == b'
  {
    var s, s' := a + ([sep] + b), a' + ([sep] + b');
    assert s[|a|] == sep && s[|a'|] == sep;
    assert forall i :: 0 <= i < |a| ==> s[i] == a[i] && a[i] in a;
    assert forall i :: 0 <= i < |a'| ==> s[i] == a'[i] && a'[i] in a';
    assert |a| == |a'|;
    assert a == s[..|a|] && a' == s'[..|a'|];
    assert b == s[|a| + 1..] && b' == s'[|a| + 1..];
  }

  lemma DropCommon(p: string, a: string, b: string)
    requires p + a == p + b
    ensures a == b
  {
    assert a == (p + a)[|p|..] && b == (p + b)[|p|..];
  }

  lemma MappingKeyInjective(ns: string, name: string, port: string, ns': string, name': string, port': string)
    requires IsLabel(ns) && IsLabel(name) && IsLabel(ns') && IsLabel(name')
    requires MappingKey(ns, name, port) == MappingKey(ns', name', port')
    ensures ns == ns' && name == name' && port == port'
  {
    CutAtFirst(ns, name + ("/" + port), ns', name' + ("/" + port'), '/');
    CutAtFirst(name, port, name', port', '/');
  }

  lemma MetaKeyInjective(ns: string, name: string, ns': string, name': string)
    requires IsLabel(ns) && IsLabel(name) && IsLabel(ns') && IsLabel(name')
    requires MetaKey(ns, name) == MetaKey(ns', name')
    ensures ns == ns' && name == name'
  {
    CutAtFirst(ns, name, ns', name', '/');
  }

  lemma QualifiedInjective(prefix: string, ns: string, name: string, n: int, ns': string, name': string, n': int)
    requires IsLabel(ns) && IsLabel(name) && IsLabel(ns') && IsLabel(name')
    requires prefix + (ns + ("." + (name + (":" + Decimal(n))))) == prefix + (ns' + ("." + (name' + (":" + Decimal(n')))))
    ensures ns == ns' && name == name' && n == n'
  {
    DropCommon(prefix, ns + ("." + (name + (":" + Decimal(n)))), ns' + ("." + (name' + (":" + Decimal(n')))));
    CutAtFirst(ns, name + (":" + Decimal(n)), ns', name' + (":" + Decimal(n')), '.');
    CutAtFirst(name, Decimal(n), name', Decimal(n'), ':');
    DecimalRoundTrip(n);
    DecimalRoundTrip(n');
  }

  lemma BackendNameInjective(ns: string, name: string, port: int, ns': string, name': string, port': int)
    requires IsLabel(ns) && IsLabel(name) && IsLabel(ns') && IsLabel(name')
    ensures BackendName(ns, name, port) == BackendName(ns', name', port') <==> ns == ns' && name == name' && port == port'
  {
    if BackendName(ns, name, port) == BackendName(ns', name', port') {
      QualifiedInjective(BACKEND, ns, name, port, ns', name', port');
    }
  }

  lemma FrontendNameInjective(ns: string, name: string, port: int, ns': string, name': string, port': int)
    requires IsLabel(ns) && IsLabel(name) && IsLabel(ns') && IsLabel(name')
    ensures FrontendName(ns, name, port) == FrontendName(ns', name', port') <==> ns == ns' && name == name' && port == port'
  {
    if FrontendName(ns, name, port) == FrontendName(ns', name', port') {
      QualifiedInjective(FRONTEND, ns, name, port, ns', name', port');
    }
  }

  // ---- reading names back ----

  /** What stands before and behind the first separator. */
  function Cut(s: string, sep: char): Option<(string, string)> {
    if s == [] then None
    else if s[0] == sep then Some(("", s[1..]))
    else match Cut(s[1..], sep)
      case None => None
      case Some((a, b)) => Some(([s[0]] + a, b))
  }

  lemma {:induction false} CutFirst(a: string, b: string, sep: char)
    requires sep !in a
    ensures Cut(a + ([sep] + b), sep) == Some((a, b))
  {
    var s := a + ([sep] + b);
    if a == [] {
      assert s[1..] == b;
    } else {
      assert s[0] == a[0] && a[0] in a && s[1..] == a[1..] + ([sep] + b);
      CutFirst(a[1..], b, sep);
      assert [s[0]] + a[1..] == a;
    }
  }

  /** The name has the prefix, and behind it three parts with these separators. */
  function ReadName(s: string, prefix: string, sep: char, sep': char): Option<(string, string, string)> {
    if !(prefix <= s) then None
    else match Cut(s[|prefix|..], sep)
      case None => None
      case Some((a, rest)) =>
        match Cut(rest, sep')
        case None => None
        case Some((b, c)) => Some((a, b, c))
  }

  lemma ReadThree(prefix: string, a: string, b: string, c: string, sep: char, sep': char)
    requires sep !in a && sep' !in b
    ensures ReadName(prefix + (a + ([sep] + (b + ([sep'] + c)))), prefix, sep, sep') == Some((a, b, c))
  {
    var s := prefix + (a + ([sep] + (b + ([sep'] + c))));
    assert s[|prefix|..] == a + ([sep] + (b + ([sep'] + c)));
    CutFirst(a, b + ([sep'] + c), sep);
    CutFirst(b, c, sep');
  }

  /** The name of a backend tells namespace, service and service port. */
  lemma BackendNameReads(ns: string, name: string, port: int)
    requires IsLabel(ns) && IsLabel(name)
    ensures var r := ReadName(BackendName(ns, name, port), "SVC_BACKEND_", '.', ':');
            r.Some? && r.value.0 == ns && r.value.1 == name && ReadsAs(r.value.2, port)
  {
    ReadThree("SVC_BACKEND_", ns, name, Decimal(port), '.', ':');
    DecimalReads(port);
  }

  /** The name of a frontend tells namespace, service and mapped port. */
  lemma FrontendNameReads(ns: string, name: string, mappedPort: int)
    requires IsLabel(ns) && IsLabel(name)
    ensures var r := ReadName(FrontendName(ns, name, mappedPort), "SVC_FRONTEND_", '.', ':');
            r.Some? && r.value.0 == ns && r.value.1 == name && ReadsAs(r.value.2, mappedPort)
  {
    ReadThree("SVC_FRONTEND_", ns, name, Decimal(mappedPort), '.', ':');
    DecimalReads(mappedPort);
  }

  /** The name of a bind tells namespace, service and port name. */
  lemma BindNameReads(ns: string, name: string, portName: string)
    requires IsLabel(ns) && IsLabel(name)
    ensures ReadName(BindName(ns, name, portName), "SVC_BIND_", '_', '_') == Some((ns, name, portName))
  {
    ReadThree("SVC_BIND_", ns, name, portName, '_', '_');
  }

  /** A mapping key tells namespace, service and port name. */
  lemma MappingKeyReads(ns: string, name: string, portName: string)
    requires IsLabel(ns) && IsLabel(name)
    ensures ReadName(MappingKey(ns, name, portName), "", '/', '/') == Some((ns, name, portName))
  {
    ReadThree("", ns, name, portName, '/', '/');
  }

  /** A server's address is the cluster IP and the service port. */
  lemma ServerNameReads(clusterIP: string, port: int)
    ensures IsAddress(ServerName(clusterIP, port), clusterIP, port)
  {
    AddressReads(clusterIP, port);
  }

  /** The prefix scan picks a mapping exactly when it belongs to the service, also
      when one service's name extends another's. */
  lemma PrefixIsExact(ns: string, name: string, ns': string, name': string, port': string)
    requires IsLabel(ns) && IsLabel(name) && IsLabel(ns') && IsLabel(name')
    ensures ServicePrefix(ns, name) <= MappingKey(ns', name', port') <==> ns == ns' && name == name'
  {
    var p, k := ServicePrefix(ns, name), MappingKey(ns', name', port');
    if p <= k {
      var rest := k[|p|..];
      assert k == p + rest;
      assert k == MappingKey(ns, name, rest);
      MappingKeyInjective(ns, name, rest, ns', name', port');
    }
    if ns == ns' && name == name' {
      assert k == p + port';
    }
  }
}
