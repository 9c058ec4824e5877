/** The external-write gate: allow-lists, the content digest, minting and the guarded execution. */
module ExternalWriteGate {
  import opened Wrappers
  import opened JsonValue
  import opened Session
  import CanonicalJson

  const ATLASSIAN: Text := Ascii("atlassian")
  const GITHUB: Text := Ascii("github")
  const MERGE_PULL_REQUEST: Text := Ascii("merge_pull_request")

  const ATLASSIAN_WRITE_ACTIONS: set<Text> := {Ascii("createPage"), Ascii("createJiraIssue")}

  const GITHUB_WRITE_ACTIONS: set<Text> := {
    Ascii("issue_write"), Ascii("add_issue_comment"), Ascii("pull_request_review_write"),
    Ascii("create_pull_request"), Ascii("update_pull_request"), MERGE_PULL_REQUEST,
    Ascii("update_pull_request_branch"), Ascii("request_copilot_review")
  }

  /** Provider-scoped; an unknown provider has no list and allows nothing. */
  predicate IsAllowed(provider: Text, action: Text) {
    if provider == ATLASSIAN then action in ATLASSIAN_WRITE_ACTIONS
    else if provider == GITHUB then action in GITHUB_WRITE_ACTIONS
    else false
  }

  function MembersOf(v: Value): seq<Member> {
    if v.Object? then v.members else []
  }

  /** `collidingExternalWriteKeys`, as a set. */
  function CollidingKeys(target: Value, payload: Value): set<Text> {
    Keys(MembersOf(target)) * Keys(MembersOf(payload))
  }

  /** An object's properties as a map; a later duplicate would win. */
  function Properties(ms: seq<Member>): (m: map<Text, Value>)
    ensures m.Keys == Keys(ms)
  {
    if |ms| == 0 then map[]
    else
      var init := ms[..|ms| - 1];
      assert forall i :: 0 <= i < |init| ==> init[i] == ms[i];
      assert Keys(ms) == Keys(init) + {ms[|ms| - 1].key};
      Properties(init)[ms[|ms| - 1].key := ms[|ms| - 1].value]
  }

  /** The call's arguments, `{ ...target, ...payload }`. */
  function Arguments(target: Value, payload: Value): map<Text, Value> {
    Properties(MembersOf(target)) + Properties(MembersOf(payload))
  }

  /** A content digest of provider, action, target and payload. */
  type DigestFn = (Text, Text, Value, Value) -> string

  /** `digestExternalWrite`: SHA-256 over the canonical pre-image, with the hash left abstract. */
  function HashedPreimage(hash: Text -> string): DigestFn {
    (provider: Text, action: Text, target: Value, payload: Value) =>
      hash(CanonicalJson.Preimage(provider, action, target, payload))
  }

  function Digest(d: DigestFn, r: WriteRecord): string {
    d(r.provider, r.action, r.target, r.payload)
  }

  datatype Token = Token(writeId: string, digest: string)

  /** `mintApprovedExternalWrite`; `None` is any of its three refusals. */
  function Mint(d: DigestFn, r: WriteRecord, confirmed: string): Option<Token> {
    if !IsAllowed(r.provider, r.action) then None
    else if CollidingKeys(r.target, r.payload) != {} then None
    else if confirmed != Digest(d, r) then None
    else Some(Token(r.id, Digest(d, r)))
  }

  /** The checks `executeExternalWrite` repeats before it lets `callTool` run. */
  predicate MayExecute(d: DigestFn, t: Token, r: WriteRecord) {
    && IsAllowed(r.provider, r.action)
    && t.writeId == r.id && t.digest == Digest(d, r)
    && CollidingKeys(r.target, r.payload) == {}
  }

  /** A minted token passes those checks on the record it was minted for. */
  lemma MintedMayExecute(d: DigestFn, r: WriteRecord, confirmed: string)
    ensures Mint(d, r, confirmed).Some? <==>
      IsAllowed(r.provider, r.action) && CollidingKeys(r.target, r.payload) == {} && confirmed == Digest(d, r)
    ensures Mint(d, r, confirmed).Some? ==> MayExecute(d, Mint(d, r, confirmed).value, r)
  {
  }

  /** Without a collision the merge is a disjoint union: nothing of target or payload is overridden. */
  lemma ArgumentsAreDisjointUnion(target: Value, payload: Value)
    requires CollidingKeys(target, payload) == {}
    ensures var t, p, args := Properties(MembersOf(target)), Properties(MembersOf(payload)), Arguments(target, payload);
      && args.Keys == t.Keys + p.Keys && t.Keys * p.Keys == {}
      && (forall k :: k in t ==> args[k] == t[k]) && (forall k :: k in p ==> args[k] == p[k])
  {
    var t, p := Properties(MembersOf(target)), Properties(MembersOf(payload));
    assert t.Keys * p.Keys == CollidingKeys(target, payload);
    assert forall k :: k in t ==> k !in p.Keys || k in t.Keys * p.Keys;
  }

  /**
   With a collision-free hash, a digest that a human saw for one proposal can only approve a record with the
   same provider and action and, `__proto__` members aside, the same target and payload up to key order.
   */
  lemma ConfirmedContentIsRecordedContent(hash: Text -> string, shown: WriteRecord, stored: WriteRecord)
    requires forall x, y :: hash(x) == hash(y) ==> x == y
    requires WellFormed(shown.target) && WellFormed(shown.payload) && WellFormed(stored.target) && WellFormed(stored.payload)
    requires Mint(HashedPreimage(hash), stored, Digest(HashedPreimage(hash), shown)).Some?
    ensures shown.provider == stored.provider && shown.action == stored.action
    ensures CanonicalJson.Equivalent(CanonicalJson.Strip(shown.target), CanonicalJson.Strip(stored.target))
    ensures CanonicalJson.Equivalent(CanonicalJson.Strip(shown.payload), CanonicalJson.Strip(stored.payload))
  {
    CanonicalJson.PreimageCanonical(
      shown.provider, shown.action, shown.target, shown.payload,
      stored.provider, stored.action, stored.target, stored.payload);
  }
}
