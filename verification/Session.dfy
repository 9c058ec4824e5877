/** The session row: its types, constants, derived predicates and optimistic lock. */
module Session {
  import opened Wrappers
  import JsonValue

  datatype Status =
    | Composing | AwaitingSpecApproval | Building
    | AwaitingCriticResolution | AwaitingPushConfirm
    | VerifyFailed | Done | PushFailed | Failed | Cancelled

  /** Over, or a retryable park that a cancel must not clobber. */
  predicate IsCancelImmune(s: Status) {
    s in {Done, Failed, Cancelled, PushFailed, VerifyFailed}
  }

  datatype Spec = Spec(title: string, body: string)
  datatype RepoFile = RepoFile(filePath: string, content: string)
  type Files = seq<RepoFile>
  datatype Approval = Approval(spec: Spec, specDigest: string)
  datatype VerifyToken = VerifyToken(sessionId: string, testsRun: int, codeDigest: string, evidenceDigest: string)
  datatype Evidence = Evidence(testsRun: int, passed: bool, durationMs: int)
  datatype Passport = Passport(sessionId: string, testsRun: int, codeDigest: string, evidenceDigest: string)
  datatype Delivery = Delivery(owner: string, repo: string)
  datatype Publish = Publish(ok: bool, at: string)
  datatype ChatTurn = ChatTurn(role: string, content: string, at: string)

  datatype WriteStatus = Proposed | Executing | Executed | WriteFailed
  datatype WriteRecord = WriteRecord(
    id: string, provider: JsonValue.Text, summary: string, action: JsonValue.Text,
    target: JsonValue.Value, payload: JsonValue.Value,
    status: WriteStatus, result: Option<string>, proposedAt: string, confirmedAt: Option<string>)

  const EXTERNAL_WRITES_MAX := 50
  const CHAT_TURNS_MAX := 200

  /** How often the pipeline's writers retry after a version conflict. */
  const MAX_RESILIENT_WRITE_RETRY := 5

  datatype Row = Row(
    id: string,
    status: Status,
    spec: Option<Spec>,
    approval: Option<Approval>,
    code: Option<Files>,
    base: Option<Files>,
    verifyToken: Option<VerifyToken>,
    testEvidence: Option<Evidence>,
    passport: Option<Passport>,
    publish: Option<Publish>,
    chat: seq<ChatTurn>,
    externalWrites: seq<WriteRecord>,
    delivery: Option<Delivery>,
    version: nat)

  function InitialSession(id: string, base: Option<Files>, delivery: Option<Delivery>, chat: seq<ChatTurn>): Row {
    Row(id, Composing, None, None, None, base, None, None, None, None, chat, [], delivery, 0)
  }

  predicate IsVerified(s: Row) {
    s.verifyToken.Some? && s.verifyToken.value.sessionId == s.id
  }

  /** `session.code?.files ?? []`. */
  function CodeFiles(s: Row): Files {
    s.code.GetOr([])
  }

  /** `list.slice(-n)` for a positive n. */
  function LastN<T>(s: seq<T>, n: nat): seq<T> {
    if |s| <= n then s else s[|s| - n..]
  }

  /** Cutting to the last n after each append is cutting to the last n once. */
  lemma LastNAppend<T>(s: seq<T>, t: seq<T>, n: nat)
    ensures LastN(LastN(s, n) + t, n) == LastN(s + t, n)
  {
    if |s| > n {
      var k := |s| - n;
      assert s[k..] + t == (s + t)[k..];
      DropDrop(s + t, k, |t|);
    }
  }

  lemma DropDrop<T>(s: seq<T>, a: nat, b: nat)
    requires a + b <= |s|
    ensures s[a..][b..] == s[a + b..]
  {
  }

  // ----- the store

  /** The columns the generic `update` can write. Approval, verify token, base, id and version are not among them. */
  datatype Patch = Patch(
    status: Option<Status>, spec: Option<Spec>, code: Option<Files>,
    testEvidence: Option<Evidence>, passport: Option<Passport>, publish: Option<Publish>,
    chat: Option<seq<ChatTurn>>, externalWrites: Option<seq<WriteRecord>>, delivery: Option<Delivery>)

  const NO_PATCH := Patch(None, None, None, None, None, None, None, None, None)

  datatype Write = Generic(patch: Patch) | RecordApproval(approval: Approval) | RecordVerification(token: VerifyToken)

  function Apply(r: Row, w: Write): (r': Row)
    ensures r'.version == r.version + 1 && r'.id == r.id && r'.base == r.base
  {
    match w
    case RecordApproval(a) => r.(approval := Some(a), version := r.version + 1)
    case RecordVerification(t) => r.(verifyToken := Some(t), version := r.version + 1)
    case Generic(p) =>
      r.(status := p.status.GetOr(r.status),
         spec := p.spec.OrElse(r.spec),
         code := p.code.OrElse(r.code),
         testEvidence := p.testEvidence.OrElse(r.testEvidence),
         passport := p.passport.OrElse(r.passport),
         publish := p.publish.OrElse(r.publish),
         chat := p.chat.GetOr(r.chat),
         externalWrites := p.externalWrites.GetOr(r.externalWrites),
         delivery := p.delivery.OrElse(r.delivery),
         version := r.version + 1)
  }

  /** A row image read earlier: if nobody has committed since, it is the row. */
  ghost predicate SnapOk(row: Row, snap: Row) {
    snap.version <= row.version && (snap.version == row.version ==> snap == row)
  }

  /** One optimistically locked write: `None` is the store's "version conflict". */
  function Commit(r: Row, w: Write, expected: nat): Option<Row> {
    if r.version == expected then Some(Apply(r, w)) else None
  }
}
