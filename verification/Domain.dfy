/** Storage-neutral values shared by every component: facts, actors, commands, results and errors. */
module Domain {
  // A uuid4 is a value no earlier call returned; the store hands them out from a counter.
  type Uuid = nat
  type OrgId = nat
  type Time = nat

  datatype Option<+T> = None | Some(value: T)

  datatype Result<+T> = Ok(value: T) | Err(error: Error)

  datatype Error =
    | PolicyViolation
    | ValueError
    | TypeError
    | KeyError
    | ValidationError
    | IdempotencyConflict(key: string)
    | ResponseMissing
    | FactAlreadyExists(id: string)
    | FactMissing(id: string)
    | RequestMissing(request: Uuid)
    | RevisionConflict(conflictId: string, expected: int, actual: int)
    | IntegrityError

  datatype Kind = Philosophy | Logic | Knowhow
  datatype Status = Active | Invalidated
  datatype SourceType = User | Agent | ExternalUntrusted
  datatype ChangeOperation = Created | WasInvalidated | Promoted

  datatype FactKey = FactKey(org: OrgId, id: string)

  datatype Payload = Payload(
    kind: Kind, statement: string, why: string, howToApply: string, source: string,
    sourceType: SourceType, namespace: string, tags: seq<string>, body: string)

  datatype Actor = Actor(org: OrgId, id: string, roles: set<string>)

  datatype CreateFact = CreateFact(factId: string, payload: Payload, changeReason: string, supersedes: seq<string>)

  datatype InvalidateFact = InvalidateFact(factId: string, reason: string)

  datatype WriteResult = WriteResult(factId: string, revision: nat, replayed: bool, eventId: Uuid)

  datatype FactRecord = FactRecord(
    key: FactKey, revision: nat, payload: Payload, status: Status, invalidationReason: Option<string>,
    createdBy: string, createdAt: Time, updatedBy: string, updatedAt: Time)

  const SHARED := "plk.shared"
  const QUARANTINE := "plk.quarantine"
  const DOMAIN_PREFIX := "plk.domain."

  predicate IsDomainNamespace(namespace: string) {
    DOMAIN_PREFIX <= namespace
  }

  /** The characters str.strip removes. */
  predicate IsSpace(c: char) {
    || '\U{9}' <= c <= '\U{D}' || '\U{1C}' <= c <= '\U{20}' || c == '\U{85}' || c == '\U{A0}'
    || c == '\U{1680}' || '\U{2000}' <= c <= '\U{200A}' || c == '\U{2028}' || c == '\U{2029}'
    || c == '\U{202F}' || c == '\U{205F}' || c == '\U{3000}'
  }

  function Strip(s: string): string {
    if s == [] then s
    else if IsSpace(s[0]) then Strip(s[1..])
    else if IsSpace(s[|s| - 1]) then Strip(s[..|s| - 1])
    else s
  }

  /** What is left of a text is its longest part that neither begins nor ends with a space: all around it is space. */
  lemma {:induction false} StripExactly(s: string) returns (i: nat, j: nat)
    ensures i <= j <= |s| && Strip(s) == s[i..j]
    ensures (forall k :: 0 <= k < i ==> IsSpace(s[k])) && (forall k :: j <= k < |s| ==> IsSpace(s[k]))
    ensures i < j ==> !IsSpace(s[i]) && !IsSpace(s[j - 1])
    decreases |s|
  {
    hide IsSpace;
    if s == [] {
      i, j := 0, 0;
    } else if IsSpace(s[0]) {
      var m, n := StripExactly(s[1..]);
      i, j := m + 1, n + 1;
      var rest := s[1..];
      assert s[i..j] == rest[m..n];
      forall k | 0 < k < |s| ensures s[k] == rest[k - 1] {
      }
    } else if IsSpace(s[|s| - 1]) {
      var rest := s[..|s| - 1];
      i, j := StripExactly(rest);
      assert s[i..j] == rest[i..j];
      forall k | 0 <= k < |rest| ensures s[k] == rest[k] {
      }
    } else {
      i, j := 0, |s|;
    }
  }

  function ReplacedBy(newId: string): string {
    "後継ファクト " + newId + " により置換"
  }
}
