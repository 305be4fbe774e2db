/** How the HAProxy client turns an HTTP response into a result, and how the
    controllers read that result. */
module HaproxyClient {
  import opened Names
  import HaproxyStore

  datatype Kind = Bind | Frontend | Backend | Server

  /** What a caller passes as the resource: a name, a model by value, or a pointer to
      a model. Reads and deletes pass names, adds and replaces pass pointers. */
  datatype Resource = Name(text: string) | Value(kind: Kind, name: string) | Pointer

  /** `err` is a transport error. */
  datatype Response = Response(err: Option<string>, code: int, body: string)

  /** The messages, for names without a percent sign; each is empty for a resource that
      no case covers. */
  function NotFoundText(res: Resource): string {
    match res
    case Name(n) => "The specified resource " + n + " was not found"
    case Value(Bind, n) => "The specified resource " + n + " was not found "
    case Value(_, n) => "The specified resource was not found " + n
    case Pointer => ""
  }

  function ConflictText(res: Resource): string {
    if res.Value? then "The specified resource " + (res.name + " already exists.") else ""
  }

  /** The bind's format string has one verb for two arguments, and what it produces is
      used as a format string once more. */
  function BadRequestText(res: Resource): string {
    match res
    case Value(Bind, n) => "Bad request bind: bind%!!(MISSING)(EXTRA string=" + n + ")"
    case Value(Frontend, n) => "Bad request frontend: " + n
    case Value(Backend, n) => "Bad request backend: " + n
    case Value(Server, n) => "Bad request server: " + n
    case _ => ""
  }

  function DeletedText(res: Resource): string {
    if res.Name? then "The resource " + res.text + " deleted." else ""
  }

  /** handleError: whether the resource exists, and the error. */
  function HandleError(resp: Response, res: Resource): (bool, Option<string>) {
    if resp.err.Some? then (false, resp.err)
    else if resp.code == 0 || resp.code == 200 || resp.code == 201 || resp.code == 202 then (true, None)
    else if resp.code == 204 then (true, Some(DeletedText(res)))
    else if resp.code == 400 then (false, Some(BadRequestText(res)))
    else if resp.code == 404 then (false, Some(NotFoundText(res)))
    else if resp.code == 409 then (true, Some(ConflictText(res)))
    else (false, Some("Unkown error, " + resp.body))
  }

  /** strings.Contains. */
  predicate Contains(s: string, part: string) {
    exists i :: 0 <= i <= |s| && part <= s[i..]
  }

  /** How createServiceProxy reads the error of an add or a replace. */
  function Classify(err: Option<string>): HaproxyStore.Reply {
    match err
    case None => HaproxyStore.Done
    case Some(text) => if Contains(text, "already exists") then HaproxyStore.AlreadyExists else HaproxyStore.Failed
  }

  /** The reply to an add or a replace. A conflict is not recognised as "already
      exists", because the payload is a pointer and its text is empty: only a
      transport error or an unexpected code whose text says so is. */
  lemma WriteReply(resp: Response)
    ensures var reply := Classify(HandleError(resp, Pointer).1);
            && (reply == HaproxyStore.Done <==> resp.err == None && resp.code in {0, 200, 201, 202})
            && (reply == HaproxyStore.AlreadyExists <==>
                  || (resp.err.Some? && Contains(resp.err.value, "already exists"))
                  || (resp.err == None && resp.code !in {0, 200, 201, 202, 204, 400, 404, 409}
                      && Contains("Unkown error, " + resp.body, "already exists")))
    ensures resp.err == None && resp.code == 409 ==> Classify(HandleError(resp, Pointer).1) == HaproxyStore.Failed
  {
    assert !Contains("", "already exists");
  }

  /** Had the model been passed by value, a conflict would have been recognised. */
  lemma ValueConflict(resp: Response, kind: Kind, name: string)
    requires resp.err == None && resp.code == 409 && '%' !in name
    ensures Classify(HandleError(resp, Value(kind, name)).1) == HaproxyStore.AlreadyExists
  {
    var text := ConflictText(Value(kind, name));
    var i := |"The specified resource "| + |name| + 1;
    assert text[i..] == "already exists.";
    assert Contains(text, "already exists");
  }

  lemma ContainsPart(a: string, part: string, b: string)
    ensures Contains(a + (part + b), part)
  {
    var s := a + (part + b);
    assert s[|a|..] == part + b;
  }

  /** An error about a resource that was passed by name or by value names it: "not found"
      for both, a bad request and a conflict for a value, a deletion for a name. */
  lemma ErrorNames(resp: Response, kind: Kind, name: string)
    requires resp.err == None
    ensures resp.code in {204, 404} ==> HandleError(resp, Name(name)).1.Some? && Contains(HandleError(resp, Name(name)).1.value, name)
    ensures resp.code in {400, 404, 409} ==>
              HandleError(resp, Value(kind, name)).1.Some? && Contains(HandleError(resp, Value(kind, name)).1.value, name)
  {
    hide Contains;
    ContainsPart("The specified resource ", name, " was not found");
    ContainsPart("The resource ", name, " deleted.");
    ContainsPart("The specified resource ", name, " was not found ");
    ContainsPart("The specified resource was not found ", name, "");
    ContainsPart("The specified resource ", name, " already exists.");
    ContainsPart("Bad request bind: bind%!!(MISSING)(EXTRA string=", name, ")");
    ContainsPart("Bad request frontend: ", name, "");
    ContainsPart("Bad request backend: ", name, "");
    ContainsPart("Bad request server: ", name, "");
    Spelled(name);
  }

  /** The texts, in the form in which ContainsPart speaks of them. */
  lemma Spelled(n: string)
    ensures NotFoundText(Name(n)) == "The specified resource " + (n + " was not found")
    ensures NotFoundText(Value(Bind, n)) == "The specified resource " + (n + " was not found ")
    ensures forall kind :: kind != Bind ==> NotFoundText(Value(kind, n)) == "The specified resource was not found " + (n + "")
    ensures BadRequestText(Value(Bind, n)) == "Bad request bind: bind%!!(MISSING)(EXTRA string=" + (n + ")")
    ensures BadRequestText(Value(Frontend, n)) == "Bad request frontend: " + (n + "")
    ensures BadRequestText(Value(Backend, n)) == "Bad request backend: " + (n + "")
    ensures BadRequestText(Value(Server, n)) == "Bad request server: " + (n + "")
    ensures DeletedText(Name(n)) == "The resource " + (n + " deleted.")
  {
  }

  /** A response to a query for an object that is there or not: success and "not found"
      are true, and the codes that go with writes do not occur. */
  predicate TruthfulRead(resp: Response, present: bool) {
    resp.err == None ==>
      && (resp.code == 200 ==> present) && (resp.code == 404 ==> !present)
      && resp.code !in {0, 201, 202, 204, 409}
  }

  predicate Answered(resp: Response) { resp.err == None && resp.code in {200, 404} }

  /** The existence queries refine the store's reads: what the client makes of a truthful
      response is what EnsureBackend and EnsureFrontend answer for the committed
      configuration, where a query fails if it is not answered. So an object reads as
      present if and only if the query was answered and the object is committed, and a
      query that fails reads as absence. Of the other answers, those that go with writes
      read as presence and all others as absence. */
  lemma EnsureAnswer(env: HaproxyStore.Environment, st: HaproxyStore.Store, resp: Response, name: string)
    requires (env(st.clock) == HaproxyStore.Failed) <==> !Answered(resp)
    ensures TruthfulRead(resp, name in st.committed.backends) ==>
              && HandleError(resp, Name(name)).0 == HaproxyStore.EnsureBackend(env, st, name).1
              && (HandleError(resp, Name(name)).0 <==> Answered(resp) && name in st.committed.backends)
    ensures TruthfulRead(resp, name in st.committed.frontends) ==>
              && HandleError(resp, Name(name)).0 == HaproxyStore.EnsureFrontend(env, st, name).1
              && (HandleError(resp, Name(name)).0 <==> Answered(resp) && name in st.committed.frontends)
    ensures !Answered(resp) ==> (HandleError(resp, Name(name)).0 <==> resp.err == None && resp.code in {0, 201, 202, 204, 409})
  {
  }

  /** getVersionOrTxID: a write goes to the transaction when there is one, and to the
      given configuration version otherwise. */
  function VersionOrTxID(txID: string, version: int): string {
    if txID != "" then "transaction_id=" + txID else "version=" + Decimal(version)
  }

  datatype Target = Transaction(id: string) | Version(number: int)

  const TRANSACTION: string := "transaction_id="
  const VERSION: string := "version="

  /** What HAProxy reads from the query of a write. */
  function ReadQuery(query: string): Option<Target> {
    if TRANSACTION <= query then Some(Transaction(query[|TRANSACTION|..]))
    else if VERSION <= query then Some(Version(ReadDecimal(query[|VERSION|..])))
    else None
  }

  /** A write with a transaction reaches that transaction, one without it the given
      version. */
  lemma QueryReads(txID: string, version: int)
    ensures ReadQuery(VersionOrTxID(txID, version)) == Some(if txID != "" then Transaction(txID) else Version(version))
    ensures var query := VersionOrTxID(txID, version);
            if txID != "" then |query| == 15 + |txID| && query[..15] == "transaction_id=" && query[15..] == txID
            else |query| > 8 && query[..8] == "version=" && ReadsAs(query[8..], version)
  {
    var query := VersionOrTxID(txID, version);
    if txID != "" {
      assert query[..15] == "transaction_id=" && query[15..] == txID;
    } else {
      DecimalReads(version);
      assert query[..8] == "version=" && query[8..] == Decimal(version);
      assert query[0] == 'v' && TRANSACTION[0] == 't';
    }
  }

  /** The query determines the target of a write. */
  lemma WriteTarget(txID: string, version: int, txID': string, version': int)
    requires VersionOrTxID(txID, version) == VersionOrTxID(txID', version')
    ensures txID == txID' && (txID == "" ==> version == version')
  {
    hide VersionOrTxID;
    QueryReads(txID, version);
    QueryReads(txID', version');
  }
}
